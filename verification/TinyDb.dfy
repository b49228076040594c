/** The TinyDB driver: every table is a list of documents, `create_key` appends without
    looking, so a table may hold several documents for one key. */
module TinyDb {
  import opened Records
  import opened Batches

  datatype Doc = Doc(key: Id, value: Value)

  type Docs = seq<Doc>

  type Tables = map<Table, Docs>

  // ----- the document store on values

  function DocsOf(db: Tables, t: Table): Docs {
    if t in db then db[t] else []
  }

  /** `get(Query().key == key)`: the first matching document. */
  function First(docs: Docs, k: Id): Option<Value> {
    if docs == [] then None
    else if docs[0].key == k then Some(docs[0].value)
    else First(docs[1..], k)
  }

  /** `update({'value': v}, Query().key == k)`: every matching document. */
  function Replaced(docs: Docs, k: Id, v: Value): Docs {
    if docs == [] then []
    else [if docs[0].key == k then Doc(k, v) else docs[0]] + Replaced(docs[1..], k, v)
  }

  /** `remove(Query().key == k)`: every matching document. */
  function Without(docs: Docs, k: Id): Docs {
    if docs == [] then []
    else (if docs[0].key == k then [] else [docs[0]]) + Without(docs[1..], k)
  }

  function Get(db: Tables, l: Loc): Option<Value> {
    First(DocsOf(db, l.table), l.key)
  }

  function Create(db: Tables, e: Entry): Tables {
    db[e.table := DocsOf(db, e.table) + [Doc(e.key, e.value)]]
  }

  function Set(db: Tables, e: Entry): Tables {
    if Get(db, e.At()).Some?
    then db[e.table := Replaced(DocsOf(db, e.table), e.key, e.value)]
    else Create(db, e)
  }

  function Remove(db: Tables, l: Loc): Tables {
    db[l.table := Without(DocsOf(db, l.table), l.key)]
  }

  function CreateAll(db: Tables, b: Batch): Tables {
    if b == [] then db else Create(CreateAll(db, b[..|b| - 1]), b[|b| - 1])
  }

  function SetAll(db: Tables, b: Batch): Tables {
    if b == [] then db else Set(SetAll(db, b[..|b| - 1]), b[|b| - 1])
  }

  function RemoveAll(db: Tables, ls: seq<Loc>): Tables {
    if ls == [] then db else Remove(RemoveAll(db, ls[..|ls| - 1]), ls[|ls| - 1])
  }

  // ----- what the operations mean for the first matching document

  lemma {:induction false} FirstOfAppend(docs: Docs, d: Doc, k: Id)
    ensures First(docs + [d], k) ==
            if First(docs, k).Some? then First(docs, k) else if d.key == k then Some(d.value) else None
  {
    if docs == [] {
      assert docs + [d] == [d];
    } else {
      assert (docs + [d])[1..] == docs[1..] + [d];
      FirstOfAppend(docs[1..], d, k);
    }
  }

  lemma {:induction false} FirstOfReplaced(docs: Docs, k: Id, v: Value, k': Id)
    ensures First(Replaced(docs, k, v), k') ==
            if k' == k && First(docs, k).Some? then Some(v) else First(docs, k')
  {
    if docs == [] {
    } else {
      FirstOfReplaced(docs[1..], k, v, k');
      assert Replaced(docs, k, v)[1..] == Replaced(docs[1..], k, v);
    }
  }

  lemma {:induction false} FirstOfWithout(docs: Docs, k: Id, k': Id)
    ensures First(Without(docs, k), k') == if k' == k then None else First(docs, k')
  {
    if docs == [] {
    } else {
      FirstOfWithout(docs[1..], k, k');
      if docs[0].key != k {
        assert Without(docs, k)[1..] == Without(docs[1..], k);
      } else {
        assert Without(docs, k) == Without(docs[1..], k);
      }
    }
  }

  lemma GetAfterSet(db: Tables, e: Entry, l: Loc)
    ensures Get(Set(db, e), l) == if l == e.At() then Some(e.value) else Get(db, l)
  {
    FirstOfReplaced(DocsOf(db, e.table), e.key, e.value, l.key);
    FirstOfAppend(DocsOf(db, e.table), Doc(e.key, e.value), l.key);
  }

  lemma GetAfterRemove(db: Tables, l: Loc, l': Loc)
    ensures Get(Remove(db, l), l') == if l' == l then None else Get(db, l')
  {
    FirstOfWithout(DocsOf(db, l.table), l.key, l'.key);
  }

  /** `apply` on TinyDB: a location reads as the first value its batch gives it. */
  lemma {:induction false} GetAfterCreateAll(db: Tables, b: Batch, l: Loc)
    ensures Get(CreateAll(db, b), l) == if Get(db, l).Some? then Get(db, l) else FirstValue(b, l)
  {
    if b == [] {
    } else {
      var init, last := b[..|b| - 1], b[|b| - 1];
      GetAfterCreateAll(db, init, l);
      FirstOfAppend(DocsOf(CreateAll(db, init), last.table), Doc(last.key, last.value), l.key);
      FirstValueOfAppend(init, last, l);
      assert b == init + [last];
    }
  }

  lemma {:induction false} FirstValueOfAppend(b: Batch, e: Entry, l: Loc)
    ensures FirstValue(b + [e], l) ==
            if FirstValue(b, l).Some? then FirstValue(b, l) else if e.At() == l then Some(e.value) else None
  {
    if b == [] {
      assert b + [e] == [e];
    } else {
      assert (b + [e])[1..] == b[1..] + [e];
      FirstValueOfAppend(b[1..], e, l);
    }
  }

  /** `update` on TinyDB: the last value of the batch, whatever duplicates the table held. */
  lemma {:induction false} GetAfterSetAll(db: Tables, b: Batch, l: Loc)
    ensures Get(SetAll(db, b), l) == if LastValue(b, l).Some? then LastValue(b, l) else Get(db, l)
  {
    if b == [] {
    } else {
      GetAfterSetAll(db, b[..|b| - 1], l);
      GetAfterSet(SetAll(db, b[..|b| - 1]), b[|b| - 1], l);
    }
  }

  /** `delete` on TinyDB: exactly the listed keys are gone. */
  lemma {:induction false} GetAfterRemoveAll(db: Tables, ls: seq<Loc>, l: Loc)
    ensures Get(RemoveAll(db, ls), l) == if l in ls then None else Get(db, l)
  {
    if ls == [] {
    } else {
      var init, last := ls[..|ls| - 1], ls[|ls| - 1];
      GetAfterRemoveAll(db, init, l);
      GetAfterRemove(RemoveAll(db, init), last, l);
      assert ls == init + [last];
    }
  }

  /** A removed key leaves no document behind, and every other document stays, in order. */
  lemma {:induction false} WithoutKeepsTheRest(docs: Docs, k: Id, d: Doc)
    ensures multiset(Without(docs, k))[d] == if d.key == k then 0 else multiset(docs)[d]
  {
    if docs == [] {
    } else {
      WithoutKeepsTheRest(docs[1..], k, d);
      assert docs == [docs[0]] + docs[1..];
    }
  }

  lemma RemoveKeepsTheRest(db: Tables, l: Loc, t: Table, d: Doc)
    ensures multiset(DocsOf(Remove(db, l), t))[d] == if l == Loc(t, d.key) then 0 else multiset(DocsOf(db, t))[d]
  {
    WithoutKeepsTheRest(DocsOf(db, l.table), l.key, d);
  }

  /** A delete batch removes every document of the listed keys and no other, duplicates included. */
  lemma {:induction false} RemoveAllKeepsTheRest(db: Tables, ls: seq<Loc>, t: Table, d: Doc)
    ensures multiset(DocsOf(RemoveAll(db, ls), t))[d] ==
            if Loc(t, d.key) in ls then 0 else multiset(DocsOf(db, t))[d]
  {
    if ls == [] {
    } else {
      var init, last := ls[..|ls| - 1], ls[|ls| - 1];
      RemoveAllKeepsTheRest(db, init, t, d);
      RemoveKeepsTheRest(RemoveAll(db, init), last, t, d);
      assert ls == init + [last];
    }
  }

  // ----- the invariant on duplicates

  /** Documents with equal keys have equal values; duplicates may persist. */
  ghost predicate Agreeing(db: Tables) {
    forall t :: t in db ==> AgreeingDocs(db[t])
  }

  ghost predicate AgreeingDocs(docs: Docs) {
    forall d :: d in docs ==> First(docs, d.key) == Some(d.value)
  }

  lemma {:induction false} ReplacedMembers(docs: Docs, k: Id, v: Value, d: Doc)
    requires d in Replaced(docs, k, v)
    ensures (d == Doc(k, v) && First(docs, k).Some?) || (d in docs && d.key != k)
  {
    if docs[0].key != k && d == docs[0] {
    } else if docs[0].key != k {
      assert d in Replaced(docs[1..], k, v);
      ReplacedMembers(docs[1..], k, v, d);
    } else if d != Doc(k, v) {
      assert d in Replaced(docs[1..], k, v);
      ReplacedMembers(docs[1..], k, v, d);
    }
  }

  lemma AgreeingAfterSet(db: Tables, e: Entry)
    requires Agreeing(db)
    ensures Agreeing(Set(db, e))
  {
    var docs := DocsOf(db, e.table);
    if Get(db, e.At()).Some? {
      var docs' := Replaced(docs, e.key, e.value);
      forall d | d in docs' ensures First(docs', d.key) == Some(d.value) {
        ReplacedMembers(docs, e.key, e.value, d);
        FirstOfReplaced(docs, e.key, e.value, d.key);
      }
    } else {
      AgreeingAfterAppend(docs, Doc(e.key, e.value));
    }
  }

  lemma AgreeingAfterAppend(docs: Docs, d: Doc)
    requires AgreeingDocs(docs)
    requires First(docs, d.key).Some? ==> First(docs, d.key) == Some(d.value)
    ensures AgreeingDocs(docs + [d])
  {
    forall c | c in docs + [d] ensures First(docs + [d], c.key) == Some(c.value) {
      FirstOfAppend(docs, d, c.key);
    }
  }

  lemma AgreeingAfterRemove(db: Tables, l: Loc)
    requires Agreeing(db)
    ensures Agreeing(Remove(db, l))
  {
    var docs := DocsOf(db, l.table);
    forall d | d in Without(docs, l.key) ensures First(Without(docs, l.key), d.key) == Some(d.value) {
      WithoutKeepsTheRest(docs, l.key, d);
      FirstOfWithout(docs, l.key, d.key);
    }
  }

  lemma {:induction false} AgreeingAfterCreateAll(b: Batch)
    requires Consistent(b)
    ensures Agreeing(CreateAll(map[], b))
  {
    if b == [] {
    } else {
      var init, last := b[..|b| - 1], b[|b| - 1];
      assert b == init + [last];
      AgreeingAfterCreateAll(init);
      var db := CreateAll(map[], init);
      GetAfterCreateAll(map[], init, last.At());
      FirstIsAnEntry(init, last.At());
      AgreeingAfterAppend(DocsOf(db, last.table), Doc(last.key, last.value));
    }
  }

  // ----- executing a command twice

  lemma {:induction false} ReplacedIdle(docs: Docs, k: Id, v: Value)
    requires forall d :: d in docs && d.key == k ==> d.value == v
    ensures Replaced(docs, k, v) == docs
  {
    if docs == [] {
    } else {
      ReplacedIdle(docs[1..], k, v);
    }
  }

  lemma {:induction false} WithoutIdle(docs: Docs, k: Id)
    requires First(docs, k) == None
    ensures Without(docs, k) == docs
  {
    if docs == [] {
    } else {
      WithoutIdle(docs[1..], k);
    }
  }

  lemma {:induction false} ReplacedShape(docs: Docs, k: Id, v: Value)
    ensures |Replaced(docs, k, v)| == |docs|
    ensures forall i :: 0 <= i < |docs| ==> Replaced(docs, k, v)[i] == if docs[i].key == k then Doc(k, v) else docs[i]
  {
    if docs == [] {
    } else {
      ReplacedShape(docs[1..], k, v);
    }
  }

  /** Every document whose key the batch names carries the batch's last value for it. */
  ghost predicate Settled(db: Tables, b: Batch) {
    forall t, d :: t in db && d in db[t] && LastValue(b, Loc(t, d.key)).Some? ==>
      LastValue(b, Loc(t, d.key)).value == d.value
  }

  lemma {:induction false} SetAllSettles(db: Tables, b: Batch)
    ensures Settled(SetAll(db, b), b)
  {
    if b == [] {
    } else {
      var init, last := b[..|b| - 1], b[|b| - 1];
      var db' := SetAll(db, init);
      SetAllSettles(db, init);
      var docs := DocsOf(db', last.table);
      forall t, d | t in SetAll(db, b) && d in SetAll(db, b)[t] && LastValue(b, Loc(t, d.key)).Some?
        ensures LastValue(b, Loc(t, d.key)).value == d.value
      {
        if t == last.table && Get(db', last.At()).Some? {
          ReplacedMembers(docs, last.key, last.value, d);
        } else if t == last.table && d != Doc(last.key, last.value) {
          FirstIsSomeDoc(docs, d.key);
          assert d in docs;
        }
      }
    }
  }

  /** What a batch of updates does to documents that are all there already. */
  ghost predicate Overlaid(db: Tables, db': Tables, b: Batch) {
    db'.Keys == db.Keys &&
    forall t :: t in db ==>
      |db'[t]| == |db[t]| &&
      forall i :: 0 <= i < |db[t]| ==>
        db'[t][i] == Doc(db[t][i].key,
          if LastValue(b, Loc(t, db[t][i].key)).Some? then LastValue(b, Loc(t, db[t][i].key)).value else db[t][i].value)
  }

  lemma {:induction false} SetAllOverlays(db: Tables, b: Batch)
    requires forall e :: e in b ==> Get(db, e.At()).Some?
    ensures Overlaid(db, SetAll(db, b), b)
  {
    if b == [] {
    } else {
      var init, last := b[..|b| - 1], b[|b| - 1];
      SetAllOverlays(db, init);
      var db' := SetAll(db, init);
      assert last in b;
      GetAfterSetAll(db, init, last.At());
      ReplacedShape(DocsOf(db', last.table), last.key, last.value);
    }
  }

  /** Running an update batch again changes no document and adds none. */
  lemma SetAllTwice(db: Tables, b: Batch)
    ensures SetAll(SetAll(db, b), b) == SetAll(db, b)
  {
    var db1 := SetAll(db, b);
    forall e | e in b ensures Get(db1, e.At()).Some? {
      GetAfterSetAll(db, b, e.At());
      assert Mentions(b, e.At());
      LastIsAnEntry(b, e.At());
    }
    SetAllOverlays(db1, b);
    SetAllSettles(db, b);
    var db2 := SetAll(db1, b);
    forall t | t in db1 ensures db2[t] == db1[t] {
      forall i | 0 <= i < |db1[t]| ensures db2[t][i] == db1[t][i] {
        assert db1[t][i] in db1[t];
      }
    }
  }

  lemma {:induction false} RemoveAllIdle(db: Tables, ls: seq<Loc>)
    requires forall l :: l in ls ==> l.table in db && Get(db, l) == None
    ensures RemoveAll(db, ls) == db
  {
    if ls == [] {
    } else {
      RemoveAllIdle(db, ls[..|ls| - 1]);
      WithoutIdle(DocsOf(db, ls[|ls| - 1].table), ls[|ls| - 1].key);
    }
  }

  lemma {:induction false} RemoveAllTables(db: Tables, ls: seq<Loc>)
    ensures forall l :: l in ls ==> l.table in RemoveAll(db, ls)
    ensures db.Keys <= RemoveAll(db, ls).Keys
  {
    if ls == [] {
    } else {
      RemoveAllTables(db, ls[..|ls| - 1]);
      assert ls == ls[..|ls| - 1] + [ls[|ls| - 1]];
    }
  }

  lemma RemoveAllTwice(db: Tables, ls: seq<Loc>)
    ensures RemoveAll(RemoveAll(db, ls), ls) == RemoveAll(db, ls)
  {
    RemoveAllTables(db, ls);
    forall l | l in ls ensures Get(RemoveAll(db, ls), l) == None {
      GetAfterRemoveAll(db, ls, l);
    }
    RemoveAllIdle(RemoveAll(db, ls), ls);
  }

  // ----- the driver

  class TinyDbDriver {
    var tables: Tables

    constructor ()
      ensures tables == map[]
    {
      tables := map[];
    }

    method GetKey(table: Table, key: Id) returns (value: Option<Value>)
      ensures value == Get(tables, Loc(table, key))
    {
      value := First(DocsOf(tables, table), key);
    }

    method CreateKey(table: Table, key: Id, value: Value)
      modifies this
      ensures tables == Create(old(tables), Entry(table, key, value))
    {
      tables := tables[table := DocsOf(tables, table) + [Doc(key, value)]];
    }

    method SetKey(table: Table, key: Id, value: Value)
      modifies this
      ensures tables == Set(old(tables), Entry(table, key, value))
    {
      var docs := DocsOf(tables, table);
      if First(docs, key).Some? {
        tables := tables[table := Replaced(docs, key, value)];
      } else {
        CreateKey(table, key, value);
      }
    }

    method DeleteKey(table: Table, key: Id)
      modifies this
      ensures tables == Remove(old(tables), Loc(table, key))
    {
      tables := tables[table := Without(DocsOf(tables, table), key)];
    }

    method GetAllKeys(table: Table) returns (res: seq<Id>)
      ensures |res| == |DocsOf(tables, table)|
      ensures forall i :: 0 <= i < |res| ==> res[i] == DocsOf(tables, table)[i].key
      ensures forall k :: k in res <==> Get(tables, Loc(table, k)).Some?
    {
      var docs := DocsOf(tables, table);
      res := [];
      for i := 0 to |docs|
        invariant |res| == i
        invariant forall j :: 0 <= j < i ==> res[j] == docs[j].key
      {
        res := res + [docs[i].key];
      }
      forall k ensures k in res <==> First(docs, k).Some? {
        FirstIsSomeDoc(docs, k);
        if First(docs, k).Some? {
          var j :| 0 <= j < |docs| && docs[j].key == k;
          assert res[j] == k;
        }
      }
    }

    method GetAllEntries(table: Table) returns (res: seq<Value>)
      ensures |res| == |DocsOf(tables, table)|
      ensures forall i :: 0 <= i < |res| ==> res[i] == DocsOf(tables, table)[i].value
    {
      var docs := DocsOf(tables, table);
      res := [];
      for i := 0 to |docs|
        invariant |res| == i
        invariant forall j :: 0 <= j < i ==> res[j] == docs[j].value
      {
        res := res + [docs[i].value];
      }
    }

    method ClearAll()
      modifies this
      ensures tables == map[]
    {
      tables := map[];
    }

    /** Nothing raises on TinyDB, so every batch runs to its end and reports success. */
    method Apply(connectDb: Batch) returns (ok: bool)
      modifies this
      ensures ok && tables == CreateAll(map[], connectDb)
      ensures forall l :: Get(tables, l) == FirstValue(connectDb, l)
    {
      ClearAll();
      for i := 0 to |connectDb|
        invariant tables == CreateAll(map[], connectDb[..i])
      {
        var entry := connectDb[i];
        assert connectDb[..i + 1][..i] == connectDb[..i];
        CreateKey(entry.table, entry.key, entry.value);
      }
      assert connectDb[..|connectDb|] == connectDb;
      ok := true;
      forall l ensures Get(tables, l) == FirstValue(connectDb, l) {
        GetAfterCreateAll(map[], connectDb, l);
      }
    }

    method Update(connectDbUpdate: Batch) returns (ok: bool)
      modifies this
      ensures ok && tables == SetAll(old(tables), connectDbUpdate)
      ensures forall l :: Get(tables, l) == if LastValue(connectDbUpdate, l).Some? then LastValue(connectDbUpdate, l)
                                            else Get(old(tables), l)
    {
      for i := 0 to |connectDbUpdate|
        invariant tables == SetAll(old(tables), connectDbUpdate[..i])
      {
        var entry := connectDbUpdate[i];
        assert connectDbUpdate[..i + 1][..i] == connectDbUpdate[..i];
        SetKey(entry.table, entry.key, entry.value);
      }
      assert connectDbUpdate[..|connectDbUpdate|] == connectDbUpdate;
      ok := true;
      forall l ensures Get(tables, l) == if LastValue(connectDbUpdate, l).Some? then LastValue(connectDbUpdate, l)
                                         else Get(old(tables), l)
      {
        GetAfterSetAll(old(tables), connectDbUpdate, l);
      }
    }

    method Delete(connectDbDelete: seq<Loc>) returns (ok: bool)
      modifies this
      ensures ok && tables == RemoveAll(old(tables), connectDbDelete)
      ensures forall l :: Get(tables, l) == if l in connectDbDelete then None else Get(old(tables), l)
    {
      for i := 0 to |connectDbDelete|
        invariant tables == RemoveAll(old(tables), connectDbDelete[..i])
      {
        assert connectDbDelete[..i + 1][..i] == connectDbDelete[..i];
        DeleteKey(connectDbDelete[i].table, connectDbDelete[i].key);
      }
      assert connectDbDelete[..|connectDbDelete|] == connectDbDelete;
      ok := true;
      forall l ensures Get(tables, l) == if l in connectDbDelete then None else Get(old(tables), l) {
        GetAfterRemoveAll(old(tables), connectDbDelete, l);
      }
    }
  }

  lemma {:induction false} FirstIsSomeDoc(docs: Docs, k: Id)
    ensures First(docs, k).Some? <==> exists i :: 0 <= i < |docs| && docs[i].key == k
  {
    if docs == [] {
    } else {
      FirstIsSomeDoc(docs[1..], k);
      if docs[0].key == k {
      } else if exists i :: 0 <= i < |docs| && docs[i].key == k {
        var i :| 0 <= i < |docs| && docs[i].key == k;
        assert docs[1..][i - 1].key == k;
      } else {
        assert forall i :: 0 <= i < |docs[1..]| ==> docs[1..][i] == docs[i + 1];
      }
    }
  }
}
