/** The BSD driver: one file per table, a dictionary of open handles whose contents live
    in memory until they are synced, and a delete that raises on a missing key. */
module BsdDb {
  import opened Records
  import opened Batches

  type Tables = map<Table, map<Id, Value>>

  /** `files` is the database directory, `open` the contents behind the open handles. */
  datatype Bsd = Bsd(files: Tables, open: Tables) {
    /** Each open handle names an existing file. */
    ghost predicate Valid() { open.Keys <= files.Keys }

    /** What every open handle holds is on disk. */
    ghost predicate Synced() { Valid() && forall t :: t in open ==> files[t] == open[t] }
  }

  // ----- the operations on values

  function ContentOf(s: Bsd, t: Table): map<Id, Value> {
    if t in s.open then s.open[t] else if t in s.files then s.files[t] else map[]
  }

  function Get(s: Bsd, l: Loc): Option<Value> {
    var c := ContentOf(s, l.table);
    if l.key in c then Some(c[l.key]) else None
  }

  /** `_get_db`: opening a table creates its file and syncs it. */
  function Opened(s: Bsd, t: Table): Bsd {
    if t in s.open then s else Bsd(s.files[t := ContentOf(s, t)], s.open[t := ContentOf(s, t)])
  }

  function SyncOne(s: Bsd, t: Table): Bsd {
    if t in s.open then s.(files := s.files[t := s.open[t]]) else s
  }

  function SyncAll(s: Bsd): Bsd {
    s.(files := s.files + s.open)
  }

  function Put(s: Bsd, e: Entry): Bsd {
    var s' := Opened(s, e.table);
    s'.(open := s'.open[e.table := s'.open[e.table][e.key := e.value]])
  }

  function Dropped(s: Bsd, l: Loc): Bsd {
    var s' := Opened(s, l.table);
    s'.(open := s'.open[l.table := s'.open[l.table] - {l.key}])
  }

  function Cleared(s: Bsd): Bsd {
    Bsd(map[], s.open - s.files.Keys)
  }

  function PutAll(s: Bsd, b: Batch): Bsd {
    if b == [] then s else Put(PutAll(s, b[..|b| - 1]), b[|b| - 1])
  }

  function DropAll(s: Bsd, ls: seq<Loc>): Bsd {
    if ls == [] then s else Dropped(DropAll(s, ls[..|ls| - 1]), ls[|ls| - 1])
  }

  function ApplyBatch(s: Bsd, b: Batch): Bsd { SyncAll(PutAll(Cleared(s), b)) }

  function UpdateBatch(s: Bsd, b: Batch): Bsd { SyncAll(PutAll(s, b)) }

  /** How many keys a delete batch removes before it meets an absent or repeated one. */
  function Removable(s: Bsd, ls: seq<Loc>): (n: nat)
    ensures n <= |ls|
  {
    if ls == [] then 0
    else
      var n := Removable(s, ls[..|ls| - 1]);
      if n == |ls| - 1 && Get(DropAll(s, ls[..n]), ls[n]).Some? then n + 1 else n
  }

  /** A delete that runs to its end syncs; one that raises leaves the failing table open, unsynced. */
  function DeleteBatch(s: Bsd, ls: seq<Loc>): Bsd {
    var n := Removable(s, ls);
    if n == |ls| then SyncAll(DropAll(s, ls)) else Opened(DropAll(s, ls[..n]), ls[n].table)
  }

  // ----- what the operations mean for `get_key`

  lemma GetAfterPut(s: Bsd, e: Entry, l: Loc)
    ensures Get(Put(s, e), l) == if l == e.At() then Some(e.value) else Get(s, l)
  {
  }

  lemma GetAfterDrop(s: Bsd, l: Loc, l': Loc)
    ensures Get(Dropped(s, l), l') == if l' == l then None else Get(s, l')
  {
  }

  lemma {:induction false} GetAfterPutAll(s: Bsd, b: Batch, l: Loc)
    ensures Get(PutAll(s, b), l) == if LastValue(b, l).Some? then LastValue(b, l) else Get(s, l)
  {
    if b == [] {
    } else {
      GetAfterPutAll(s, b[..|b| - 1], l);
      GetAfterPut(PutAll(s, b[..|b| - 1]), b[|b| - 1], l);
    }
  }

  lemma {:induction false} GetAfterDropAll(s: Bsd, ls: seq<Loc>, l: Loc)
    ensures Get(DropAll(s, ls), l) == if l in ls then None else Get(s, l)
  {
    if ls == [] {
    } else {
      var init, last := ls[..|ls| - 1], ls[|ls| - 1];
      GetAfterDropAll(s, init, l);
      GetAfterDrop(DropAll(s, init), last, l);
      assert ls == init + [last];
    }
  }

  /** `apply` on BSD: a location reads as the last value its batch gives it. */
  lemma GetAfterApply(s: Bsd, b: Batch, l: Loc)
    requires s.Valid()
    ensures Get(ApplyBatch(s, b), l) == LastValue(b, l)
  {
    GetAfterPutAll(Cleared(s), b, l);
    assert Cleared(s).open == map[];
    GetAfterSync(PutAll(Cleared(s), b), l);
  }

  lemma GetAfterSync(s: Bsd, l: Loc)
    ensures Get(SyncAll(s), l) == Get(s, l)
  {
  }

  lemma GetAfterUpdate(s: Bsd, b: Batch, l: Loc)
    ensures Get(UpdateBatch(s, b), l) == if LastValue(b, l).Some? then LastValue(b, l) else Get(s, l)
  {
    GetAfterPutAll(s, b, l);
    GetAfterSync(PutAll(s, b), l);
  }

  /** The keys removed are those before the first one that is absent or repeated. */
  ghost predicate DistinctAndPresent(s: Bsd, ls: seq<Loc>) {
    NoDup(ls) && forall l :: l in ls ==> Get(s, l).Some?
  }

  lemma DistinctAndPresentAppend(s: Bsd, ls: seq<Loc>, l: Loc)
    requires DistinctAndPresent(s, ls) && l !in ls && Get(s, l).Some?
    ensures DistinctAndPresent(s, ls + [l])
  {
  }

  lemma {:induction false} RemovablePrefix(s: Bsd, ls: seq<Loc>)
    ensures DistinctAndPresent(s, ls[..Removable(s, ls)])
    ensures Removable(s, ls) < |ls| ==>
              var n := Removable(s, ls); ls[n] in ls[..n] || Get(s, ls[n]).None?
  {
    if ls == [] {
    } else {
      var init := ls[..|ls| - 1];
      RemovablePrefix(s, init);
      var n := Removable(s, init);
      if n == |ls| - 1 {
        GetAfterDropAll(s, init, ls[n]);
        assert ls[..n] == init == init[..n];
        assert ls[..|ls|] == ls == init + [ls[n]];
        if Removable(s, ls) == |ls| {
          DistinctAndPresentAppend(s, init, ls[n]);
        }
      } else {
        assert init[..n] == ls[..n];
      }
    }
  }

  /** `delete` reports success exactly when all keys were distinct and present. */
  lemma DeleteSucceedsIff(s: Bsd, ls: seq<Loc>)
    ensures Removable(s, ls) == |ls| <==> DistinctAndPresent(s, ls)
  {
    RemovablePrefix(s, ls);
    var n := Removable(s, ls);
    assert ls[..|ls|] == ls;
    if n < |ls| {
      assert ls[n] in ls;
      assert forall j :: 0 <= j < n ==> ls[..n][j] == ls[j];
      assert !DistinctAndPresent(s, ls);
    }
  }

  /** `delete` removes exactly the keys before the stop, whether or not it reports success. */
  lemma GetAfterDelete(s: Bsd, ls: seq<Loc>, l: Loc)
    ensures Get(DeleteBatch(s, ls), l) == if l in ls[..Removable(s, ls)] then None else Get(s, l)
  {
    var n := Removable(s, ls);
    GetAfterDropAll(s, ls[..n], l);
    if n == |ls| {
      assert ls[..n] == ls;
      GetAfterSync(DropAll(s, ls), l);
    }
  }

  // ----- files and handles

  lemma {:induction false} PutAllKeepsValid(s: Bsd, b: Batch)
    requires s.Valid()
    ensures PutAll(s, b).Valid()
  {
    if b == [] {
    } else {
      PutAllKeepsValid(s, b[..|b| - 1]);
    }
  }

  lemma {:induction false} DropAllKeepsValid(s: Bsd, ls: seq<Loc>)
    requires s.Valid()
    ensures DropAll(s, ls).Valid()
  {
    if ls == [] {
    } else {
      DropAllKeepsValid(s, ls[..|ls| - 1]);
    }
  }

  lemma SyncAllSyncs(s: Bsd)
    requires s.Valid()
    ensures SyncAll(s).Synced()
    ensures SyncAll(s).files.Keys == s.files.Keys
  {
  }

  function TablesOf(b: Batch): set<Table> {
    set e | e in b :: e.table
  }

  lemma TablesOfAppend(b: Batch, e: Entry)
    ensures TablesOf(b + [e]) == TablesOf(b) + {e.table}
  {
    forall t ensures t in TablesOf(b + [e]) <==> t in TablesOf(b) + {e.table} {
      assert e in b + [e];
      if t in TablesOf(b) {
        var f :| f in b && f.table == t;
        assert f in b + [e];
      }
    }
  }

  /** Writing opens, and thereby creates, exactly the tables the batch names. */
  lemma {:induction false} PutAllTables(s: Bsd, b: Batch)
    requires s.open == map[] && s.files == map[]
    ensures PutAll(s, b).files.Keys == TablesOf(b)
    ensures PutAll(s, b).open.Keys == TablesOf(b)
  {
    if b == [] {
    } else {
      var init, last := b[..|b| - 1], b[|b| - 1];
      PutAllTables(s, init);
      assert b == init + [last];
      TablesOfAppend(init, last);
      var s' := PutAll(s, init);
      assert Put(s', last).open.Keys == s'.open.Keys + {last.table};
      assert Put(s', last).files.Keys == s'.files.Keys + {last.table};
    }
  }

  /** After an apply the directory holds exactly the tables named in the batch: every other
      file, the lock file among them, is gone. */
  lemma ApplyLeavesBatchTables(s: Bsd, b: Batch)
    requires s.Valid()
    ensures ApplyBatch(s, b).Synced()
    ensures ApplyBatch(s, b).files.Keys == ApplyBatch(s, b).open.Keys == TablesOf(b)
  {
    var c := Cleared(s);
    assert c.open == map[] && c.files == map[];
    PutAllTables(c, b);
    PutAllKeepsValid(c, b);
    SyncAllSyncs(PutAll(c, b));
  }

  /** Losing the process loses the handles; the next one reads the files. */
  function Crashed(s: Bsd): Bsd { Bsd(s.files, map[]) }

  lemma SyncedSurvivesCrash(s: Bsd, l: Loc)
    requires s.Synced()
    ensures Get(Crashed(s), l) == Get(s, l)
  {
  }

  lemma {:induction false} DropAllFiles(s: Bsd, ls: seq<Loc>)
    requires s.Synced()
    ensures DropAll(s, ls).Valid()
    ensures forall l :: Get(Crashed(DropAll(s, ls)), l) == Get(s, l)
  {
    if ls == [] {
    } else {
      DropAllFiles(s, ls[..|ls| - 1]);
    }
  }

  /** A failed delete is visible at once and undone by a crash, whatever it had removed. */
  lemma FailedDeleteIsNotDurable(s: Bsd, ls: seq<Loc>)
    requires s.Synced() && Removable(s, ls) < |ls|
    ensures forall l :: Get(DeleteBatch(s, ls), l) == if l in ls[..Removable(s, ls)] then None else Get(s, l)
    ensures forall l :: Get(Crashed(DeleteBatch(s, ls)), l) == Get(s, l)
  {
    var n := Removable(s, ls);
    forall l ensures Get(DeleteBatch(s, ls), l) == if l in ls[..n] then None else Get(s, l) {
      GetAfterDelete(s, ls, l);
    }
    DropAllFiles(s, ls[..n]);
  }

  /** Writing with `sync=True` after every entry. */
  function PutAllSynced(s: Bsd, b: Batch): Bsd {
    if b == [] then s
    else SyncOne(Put(PutAllSynced(s, b[..|b| - 1]), b[|b| - 1]), b[|b| - 1].table)
  }

  /** One sync at the end of a batch writes what a sync after each entry writes. */
  lemma {:induction false} OneSyncIsEnough(s: Bsd, b: Batch)
    requires s.Synced()
    ensures PutAllSynced(s, b).Synced()
    ensures SyncAll(PutAll(s, b)) == PutAllSynced(s, b)
  {
    if b == [] {
      assert s.files + s.open == s.files;
    } else {
      var init, last := b[..|b| - 1], b[|b| - 1];
      OneSyncIsEnough(s, init);
      PutAllKeepsValid(s, init);
      PutOnSynced(PutAll(s, init), last);
    }
  }

  lemma PutOnSynced(s: Bsd, e: Entry)
    requires s.Valid()
    ensures SyncAll(Put(s, e)) == SyncOne(Put(SyncAll(s), e), e.table)
    ensures SyncOne(Put(SyncAll(s), e), e.table).Synced()
  {
    SyncAllSyncs(s);
    PutIsSet(s, e);
    PutIsSet(SyncAll(s), e);
    var c := ContentOf(s, e.table)[e.key := e.value];
    assert ContentOf(SyncAll(s), e.table) == ContentOf(s, e.table);
    assert Put(s, e).files + Put(s, e).open == (s.files + s.open)[e.table := c];
  }

  lemma PutIsSet(s: Bsd, e: Entry)
    ensures Put(s, e).open == s.open[e.table := ContentOf(s, e.table)[e.key := e.value]]
    ensures Put(s, e).files == if e.table in s.open then s.files else s.files[e.table := ContentOf(s, e.table)]
  {
    assert s.open[e.table := ContentOf(s, e.table)][e.table := ContentOf(s, e.table)[e.key := e.value]]
        == s.open[e.table := ContentOf(s, e.table)[e.key := e.value]];
  }

  // ----- the driver

  class BsdDbDriver {
    var files: Tables
    var tables: Tables

    ghost function View(): Bsd
      reads this
    {
      Bsd(files, tables)
    }

    constructor (dir: Tables)
      ensures View() == Bsd(dir, map[])
    {
      files, tables := dir, map[];
    }

    method GetDb(table: Table)
      modifies this
      ensures View() == Opened(old(View()), table)
      ensures table in tables
    {
      if table !in tables {
        if table !in files {
          files := files[table := map[]];
        }
        tables := tables[table := files[table]];
      }
    }

    method GetKey(table: Table, key: Id) returns (value: Option<Value>)
      modifies this
      ensures View() == Opened(old(View()), table)
      ensures value == Get(old(View()), Loc(table, key))
    {
      GetDb(table);
      value := if key in tables[table] then Some(tables[table][key]) else None;
    }

    method SetKey(table: Table, key: Id, value: Value, sync: bool)
      modifies this
      ensures var put := Put(old(View()), Entry(table, key, value));
              View() == if sync then SyncOne(put, table) else put
    {
      GetDb(table);
      tables := tables[table := tables[table][key := value]];
      if sync {
        files := files[table := tables[table]];
      }
    }

    /** The handle's delete raises when the key is absent; `ok` is false then. */
    method DeleteKey(table: Table, key: Id, sync: bool) returns (ok: bool)
      modifies this
      ensures ok == Get(old(View()), Loc(table, key)).Some?
      ensures !ok ==> View() == Opened(old(View()), table)
      ensures ok ==> var dropped := Dropped(old(View()), Loc(table, key));
                     View() == if sync then SyncOne(dropped, table) else dropped
    {
      GetDb(table);
      ok := key in tables[table];
      if ok {
        tables := tables[table := tables[table] - {key}];
        if sync {
          files := files[table := tables[table]];
        }
      }
    }

    /** Removing the file raises when there is none; the handle is closed either way. */
    method DeleteTable(table: Table) returns (ok: bool)
      modifies this
      ensures View() == Bsd(old(files) - {table}, old(tables) - {table})
      ensures ok == (table in old(files))
    {
      tables := tables - {table};
      ok := table in files;
      files := files - {table};
    }

    /** The keys of a table, in whatever order the hash file yields them. */
    method GetAllKeys(table: Table) returns (res: seq<Id>)
      modifies this
      ensures View() == Opened(old(View()), table)
      ensures NoDup(res)
      ensures forall k :: k in res <==> Get(old(View()), Loc(table, k)).Some?
    {
      GetDb(table);
      var todo := tables[table].Keys;
      res := [];
      while todo != {}
        invariant todo <= tables[table].Keys
        invariant View() == Opened(old(View()), table)
        invariant NoDup(res)
        invariant forall k :: k in res <==> k in tables[table] && k !in todo
        decreases |todo|
      {
        var k :| k in todo;
        res := res + [k];
        todo := todo - {k};
      }
    }

    method Sync()
      requires View().Valid()
      modifies this
      ensures View() == SyncAll(old(View()))
      ensures View().Synced()
    {
      var todo := tables.Keys;
      while todo != {}
        invariant todo <= tables.Keys && tables == old(tables)
        invariant files.Keys == old(files).Keys
        invariant forall t :: t in files ==>
                    files[t] == if t in tables && t !in todo then tables[t] else old(files)[t]
        decreases |todo|
      {
        var table :| table in todo;
        files := files[table := tables[table]];
        todo := todo - {table};
      }
      assert files == old(files) + tables;
    }

    method ClearAll()
      modifies this
      ensures View() == Cleared(old(View()))
    {
      var listed := files.Keys;
      while listed != {}
        invariant listed <= old(files).Keys
        invariant files.Keys == listed
        invariant forall t :: t in tables <==> t in old(tables) && (t in listed || t !in old(files))
        invariant forall t :: t in tables ==> tables[t] == old(tables)[t]
        decreases |listed|
      {
        var f :| f in listed;
        var removed := DeleteTable(f);
        assert removed;
        listed := listed - {f};
      }
      assert tables == old(tables) - old(files).Keys;
      assert files == map[];
    }

    /** Puts never raise, so an apply always ends with every table synced. */
    method Apply(connectDb: Batch) returns (ok: bool)
      requires View().Valid()
      modifies this
      ensures ok && View() == ApplyBatch(old(View()), connectDb)
      ensures View().Synced()
      ensures forall l :: Get(View(), l) == LastValue(connectDb, l)
    {
      ClearAll();
      ghost var cleared := View();
      assert cleared.open == map[];
      for i := 0 to |connectDb|
        invariant View() == PutAll(cleared, connectDb[..i])
      {
        var entry := connectDb[i];
        assert connectDb[..i + 1][..i] == connectDb[..i];
        SetKey(entry.table, entry.key, entry.value, false);
      }
      assert connectDb[..|connectDb|] == connectDb;
      PutAllKeepsValid(cleared, connectDb);
      Sync();
      ok := true;
      forall l ensures Get(View(), l) == LastValue(connectDb, l) {
        GetAfterApply(old(View()), connectDb, l);
      }
    }

    method Update(connectDbUpdate: Batch) returns (ok: bool)
      requires View().Valid()
      modifies this
      ensures ok && View() == UpdateBatch(old(View()), connectDbUpdate)
      ensures View().Synced()
    {
      for i := 0 to |connectDbUpdate|
        invariant View() == PutAll(old(View()), connectDbUpdate[..i])
      {
        var entry := connectDbUpdate[i];
        assert connectDbUpdate[..i + 1][..i] == connectDbUpdate[..i];
        SetKey(entry.table, entry.key, entry.value, false);
      }
      assert connectDbUpdate[..|connectDbUpdate|] == connectDbUpdate;
      PutAllKeepsValid(old(View()), connectDbUpdate);
      Sync();
      ok := true;
    }

    /** The first raise ends the batch: no later key is looked at and nothing is synced. */
    method Delete(connectDbDelete: seq<Loc>) returns (ok: bool)
      requires View().Valid()
      modifies this
      ensures View() == DeleteBatch(old(View()), connectDbDelete) && View().Valid()
      ensures ok <==> DistinctAndPresent(old(View()), connectDbDelete)
      ensures ok ==> View().Synced()
    {
      ghost var s := View();
      for i := 0 to |connectDbDelete|
        invariant View() == DropAll(s, connectDbDelete[..i])
        invariant Removable(s, connectDbDelete[..i]) == i
      {
        var l := connectDbDelete[i];
        assert connectDbDelete[..i + 1][..i] == connectDbDelete[..i];
        var removed := DeleteKey(l.table, l.key, false);
        if !removed {
          RemovableStops(s, connectDbDelete, i);
          DropAllKeepsValid(s, connectDbDelete[..i]);
          DeleteSucceedsIff(s, connectDbDelete);
          return false;
        }
      }
      assert connectDbDelete[..|connectDbDelete|] == connectDbDelete;
      DropAllKeepsValid(s, connectDbDelete);
      DeleteSucceedsIff(s, connectDbDelete);
      Sync();
      ok := true;
    }
  }

  /** Once a prefix of a batch stops, the whole batch stops there. */
  lemma {:induction false} RemovableStops(s: Bsd, ls: seq<Loc>, i: nat)
    requires i < |ls| && Removable(s, ls[..i]) == i
    requires Get(DropAll(s, ls[..i]), ls[i]).None?
    ensures Removable(s, ls) == i
  {
    var init := ls[..|ls| - 1];
    if i < |ls| - 1 {
      assert init[..i] == ls[..i] && init[i] == ls[i];
      RemovableStops(s, init, i);
    }
  }
}
