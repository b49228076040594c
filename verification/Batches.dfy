/** What a list of entries means as a map: its first and its last value for a
    location, when the two coincide, and why order then does not matter. */
module Batches {
  import opened Records

  type Batch = seq<Entry>

  type Store = map<Loc, Value>

  function Locs(b: Batch): seq<Loc> {
    seq(|b|, i requires 0 <= i < |b| => b[i].At())
  }

  /** The value of the first entry for `l`. */
  function FirstValue(b: Batch, l: Loc): Option<Value> {
    if b == [] then None
    else if b[0].At() == l then Some(b[0].value)
    else FirstValue(b[1..], l)
  }

  /** The value of the last entry for `l`. */
  function LastValue(b: Batch, l: Loc): Option<Value> {
    if b == [] then None
    else if b[|b| - 1].At() == l then Some(b[|b| - 1].value)
    else LastValue(b[..|b| - 1], l)
  }

  /** Equal locations carry equal values. */
  ghost predicate Consistent(b: Batch) {
    forall e, f :: e in b && f in b && e.At() == f.At() ==> e.value == f.value
  }

  ghost predicate Mentions(b: Batch, l: Loc) {
    exists e :: e in b && e.At() == l
  }

  /** The map a batch denotes when its entries are written one after the other. */
  function MapOf(b: Batch): Store {
    if b == [] then map[] else MapOf(b[..|b| - 1])[b[|b| - 1].At() := b[|b| - 1].value]
  }

  function Lookup(s: Store, l: Loc): Option<Value> {
    if l in s then Some(s[l]) else None
  }

  lemma {:induction false} FirstIsAnEntry(b: Batch, l: Loc)
    ensures FirstValue(b, l).Some? <==> Mentions(b, l)
    ensures FirstValue(b, l).Some? ==> Entry(l.table, l.key, FirstValue(b, l).value) in b
  {
    if b == [] {
    } else {
      FirstIsAnEntry(b[1..], l);
      assert b == [b[0]] + b[1..];
      if b[0].At() == l {
        assert b[0] in b;
      } else if Mentions(b, l) {
        var e :| e in b && e.At() == l;
        assert e in b[1..];
      }
    }
  }

  lemma {:induction false} LastIsAnEntry(b: Batch, l: Loc)
    ensures LastValue(b, l).Some? <==> Mentions(b, l)
    ensures LastValue(b, l).Some? ==> Entry(l.table, l.key, LastValue(b, l).value) in b
  {
    if b == [] {
    } else {
      var init, last := b[..|b| - 1], b[|b| - 1];
      LastIsAnEntry(init, l);
      assert b == init + [last];
      if last.At() == l {
        assert last in b;
      } else if Mentions(b, l) {
        var e :| e in b && e.At() == l;
        assert e in init;
      }
    }
  }

  lemma {:induction false} MapOfIsLast(b: Batch, l: Loc)
    ensures Lookup(MapOf(b), l) == LastValue(b, l)
  {
    if b == [] {
    } else {
      MapOfIsLast(b[..|b| - 1], l);
    }
  }

  /** A consistent batch reads the same from either end. */
  lemma ConsistentFirstIsLast(b: Batch, l: Loc)
    requires Consistent(b)
    ensures FirstValue(b, l) == LastValue(b, l)
  {
    FirstIsAnEntry(b, l);
    LastIsAnEntry(b, l);
    if Mentions(b, l) {
      var e := Entry(l.table, l.key, FirstValue(b, l).value);
      var f := Entry(l.table, l.key, LastValue(b, l).value);
      assert e.At() == f.At() == l;
    }
  }

  /** In a consistent batch every entry is what the map holds, and the map holds nothing else. */
  lemma MapOfConsistent(b: Batch)
    requires Consistent(b)
    ensures forall e :: e in b ==> Lookup(MapOf(b), e.At()) == Some(e.value)
    ensures forall l :: l in MapOf(b) <==> Mentions(b, l)
    ensures forall l :: l in MapOf(b) ==> Entry(l.table, l.key, MapOf(b)[l]) in b
  {
    forall l ensures l in MapOf(b) <==> Mentions(b, l)
             ensures l in MapOf(b) ==> Entry(l.table, l.key, MapOf(b)[l]) in b
    {
      MapOfIsLast(b, l);
      LastIsAnEntry(b, l);
    }
    forall e | e in b ensures Lookup(MapOf(b), e.At()) == Some(e.value) {
      var l := e.At();
      assert Mentions(b, l);
      var f := Entry(l.table, l.key, MapOf(b)[l]);
      assert f in b && f.At() == e.At();
    }
  }

  /** The order in which a consistent batch lists its entries, and how often, is irrelevant. */
  lemma MapOfOrderFree(b: Batch, c: Batch)
    requires Consistent(b)
    requires forall e :: e in b <==> e in c
    ensures MapOf(b) == MapOf(c)
  {
    MapOfConsistent(b);
    MapOfConsistent(c);
    forall l ensures Lookup(MapOf(b), l) == Lookup(MapOf(c), l) {
      assert Mentions(b, l) <==> Mentions(c, l);
      if l in MapOf(b) {
        var e := Entry(l.table, l.key, MapOf(b)[l]);
        assert e in c;
        assert Lookup(MapOf(c), e.At()) == Some(e.value);
      }
    }
    assert forall l :: l in MapOf(b) <==> Lookup(MapOf(b), l).Some?;
    assert forall l :: l in MapOf(c) <==> Lookup(MapOf(c), l).Some?;
    assert forall l :: l in MapOf(b) ==> Lookup(MapOf(b), l) == Lookup(MapOf(c), l);
  }
}
