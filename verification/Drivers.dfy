/** The two drivers side by side: which abstract map each refines, exactly when they
    agree, and why executing a command more than once is harmless. */
module Drivers {
  import opened Records
  import opened Batches
  import T = TinyDb
  import B = BsdDb

  datatype Command = Apply(batch: Batch) | Update(batch: Batch) | Delete(locs: seq<Loc>)

  // ----- the abstract store, and the two implementations, one command at a time

  function Without(m: Store, ls: seq<Loc>): Store {
    map l | l in m && l !in ls :: m[l]
  }

  function StoreStep(m: Store, c: Command): Store {
    match c
    case Apply(b) => MapOf(b)
    case Update(b) => m + MapOf(b)
    case Delete(ls) => Without(m, ls)
  }

  function TinyStep(db: T.Tables, c: Command): T.Tables {
    match c
    case Apply(b) => T.CreateAll(map[], b)
    case Update(b) => T.SetAll(db, b)
    case Delete(ls) => T.RemoveAll(db, ls)
  }

  function BsdStep(s: B.Bsd, c: Command): B.Bsd {
    match c
    case Apply(b) => B.ApplyBatch(s, b)
    case Update(b) => B.UpdateBatch(s, b)
    case Delete(ls) => B.DeleteBatch(s, ls)
  }

  ghost predicate TinyShows(db: T.Tables, m: Store) {
    forall l :: T.Get(db, l) == Lookup(m, l)
  }

  ghost predicate BsdShows(s: B.Bsd, m: Store) {
    forall l :: B.Get(s, l) == Lookup(m, l)
  }

  // ----- exact refinement

  /** The first and the last value of a batch coincide at every location. */
  ghost predicate EndsAgree(b: Batch) {
    forall l :: FirstValue(b, l) == LastValue(b, l)
  }

  /** A BSD delete that stops early has skipped no key that was still there. */
  ghost predicate SkipsNothing(s: B.Bsd, ls: seq<Loc>) {
    var n := B.Removable(s, ls);
    forall l :: l in ls ==> l in ls[..n] || B.Get(s, l).None?
  }

  ghost predicate TinyFits(c: Command) {
    c.Apply? ==> EndsAgree(c.batch)
  }

  ghost predicate BsdFits(s: B.Bsd, c: Command) {
    c.Delete? ==> SkipsNothing(s, c.locs)
  }

  lemma LookupOfUpdate(m: Store, b: Batch, l: Loc)
    ensures Lookup(m + MapOf(b), l) == if LastValue(b, l).Some? then LastValue(b, l) else Lookup(m, l)
  {
    MapOfIsLast(b, l);
  }

  /** TinyDB implements the map exactly when an apply names no location with two values
      of which the first and the last differ. */
  lemma TinyRefines(db: T.Tables, m: Store, c: Command)
    requires TinyShows(db, m)
    ensures TinyShows(TinyStep(db, c), StoreStep(m, c)) <==> TinyFits(c)
  {
    match c
    case Apply(b) =>
      forall l ensures T.Get(TinyStep(db, c), l) == FirstValue(b, l)
               ensures Lookup(StoreStep(m, c), l) == LastValue(b, l)
      {
        T.GetAfterCreateAll(map[], b, l);
        MapOfIsLast(b, l);
      }
    case Update(b) =>
      forall l ensures T.Get(TinyStep(db, c), l) == Lookup(StoreStep(m, c), l) {
        T.GetAfterSetAll(db, b, l);
        LookupOfUpdate(m, b, l);
      }
    case Delete(ls) =>
      forall l ensures T.Get(TinyStep(db, c), l) == Lookup(StoreStep(m, c), l) {
        T.GetAfterRemoveAll(db, ls, l);
      }
  }

  /** BSD implements the map exactly when a delete that raises had nothing left to do. */
  lemma BsdRefines(s: B.Bsd, m: Store, c: Command)
    requires s.Valid() && BsdShows(s, m)
    ensures BsdShows(BsdStep(s, c), StoreStep(m, c)) <==> BsdFits(s, c)
  {
    match c
    case Apply(b) =>
      forall l ensures B.Get(BsdStep(s, c), l) == Lookup(StoreStep(m, c), l) {
        B.GetAfterApply(s, b, l);
        MapOfIsLast(b, l);
      }
    case Update(b) =>
      forall l ensures B.Get(BsdStep(s, c), l) == Lookup(StoreStep(m, c), l) {
        B.GetAfterUpdate(s, b, l);
        LookupOfUpdate(m, b, l);
      }
    case Delete(ls) =>
      var n := B.Removable(s, ls);
      forall l ensures B.Get(BsdStep(s, c), l) == if l in ls[..n] then None else B.Get(s, l)
               ensures Lookup(StoreStep(m, c), l) == if l in ls then None else B.Get(s, l)
               ensures l in ls[..n] ==> l in ls
      {
        B.GetAfterDelete(s, ls, l);
      }
      if !SkipsNothing(s, ls) {
        var l :| l in ls && l !in ls[..n] && B.Get(s, l).Some?;
        assert B.Get(BsdStep(s, c), l) != Lookup(StoreStep(m, c), l);
      }
  }

  ghost predicate Agree(db: T.Tables, s: B.Bsd) {
    forall l :: T.Get(db, l) == B.Get(s, l)
  }

  /** Two applied stores agree exactly when the batch reads the same from both ends,
      whatever the stores held before. */
  lemma ApplyDivergesIff(db: T.Tables, s: B.Bsd, b: Batch)
    requires s.Valid()
    ensures Agree(TinyStep(db, Apply(b)), BsdStep(s, Apply(b))) <==> EndsAgree(b)
  {
    forall l ensures T.Get(TinyStep(db, Apply(b)), l) == FirstValue(b, l)
             ensures B.Get(BsdStep(s, Apply(b)), l) == LastValue(b, l)
    {
      T.GetAfterCreateAll(map[], b, l);
      B.GetAfterApply(s, b, l);
    }
  }

  /** From agreeing stores a delete keeps them agreeing exactly when BSD skips nothing. */
  lemma DeleteDivergesIff(db: T.Tables, s: B.Bsd, ls: seq<Loc>)
    requires Agree(db, s)
    ensures Agree(TinyStep(db, Delete(ls)), BsdStep(s, Delete(ls))) <==> SkipsNothing(s, ls)
  {
    var n := B.Removable(s, ls);
    forall l ensures B.Get(BsdStep(s, Delete(ls)), l) == if l in ls[..n] then None else B.Get(s, l)
             ensures T.Get(TinyStep(db, Delete(ls)), l) == if l in ls then None else B.Get(s, l)
             ensures l in ls[..n] ==> l in ls
    {
      B.GetAfterDelete(s, ls, l);
      T.GetAfterRemoveAll(db, ls, l);
    }
    if !SkipsNothing(s, ls) {
      var l :| l in ls && l !in ls[..n] && B.Get(s, l).Some?;
      assert T.Get(TinyStep(db, Delete(ls)), l) != B.Get(BsdStep(s, Delete(ls)), l);
    }
  }

  // ----- runs

  function TinyRun(db: T.Tables, cs: seq<Command>): T.Tables {
    if cs == [] then db else TinyStep(TinyRun(db, cs[..|cs| - 1]), cs[|cs| - 1])
  }

  function BsdRun(s: B.Bsd, cs: seq<Command>): B.Bsd {
    if cs == [] then s else BsdStep(BsdRun(s, cs[..|cs| - 1]), cs[|cs| - 1])
  }

  function StoreRun(m: Store, cs: seq<Command>): Store {
    if cs == [] then m else StoreStep(StoreRun(m, cs[..|cs| - 1]), cs[|cs| - 1])
  }

  /** Every apply of the run is consistent, every delete names distinct keys that are
      present when it is executed. */
  ghost predicate WellFormedRun(m: Store, cs: seq<Command>) {
    forall i :: 0 <= i < |cs| ==> WellFormedCommand(StoreRun(m, cs[..i]), cs[i])
  }

  ghost predicate WellFormedCommand(m: Store, c: Command) {
    match c
    case Apply(b) => Consistent(b)
    case Update(b) => true
    case Delete(ls) => NoDup(ls) && forall l :: l in ls ==> l in m
  }

  lemma WellFormedFits(s: B.Bsd, m: Store, c: Command)
    requires BsdShows(s, m) && WellFormedCommand(m, c)
    ensures TinyFits(c) && BsdFits(s, c)
    ensures c.Delete? ==> B.Removable(s, c.locs) == |c.locs|
  {
    if c.Apply? {
      forall l ensures FirstValue(c.batch, l) == LastValue(c.batch, l) {
        ConsistentFirstIsLast(c.batch, l);
      }
    }
    if c.Delete? {
      forall l | l in c.locs ensures B.Get(s, l).Some? {
        assert B.Get(s, l) == Lookup(m, l);
      }
      B.DeleteSucceedsIff(s, c.locs);
      assert c.locs[..|c.locs|] == c.locs;
    }
  }

  lemma BsdStepKeepsValid(s: B.Bsd, c: Command)
    requires s.Valid()
    ensures BsdStep(s, c).Valid()
    ensures (c.Delete? && B.Removable(s, c.locs) < |c.locs|) || BsdStep(s, c).Synced()
  {
    match c
    case Apply(b) => B.ApplyLeavesBatchTables(s, b);
    case Update(b) =>
      B.PutAllKeepsValid(s, b);
      B.SyncAllSyncs(B.PutAll(s, b));
    case Delete(ls) =>
      var n := B.Removable(s, ls);
      B.DropAllKeepsValid(s, ls);
      B.DropAllKeepsValid(s, ls[..n]);
      B.SyncAllSyncs(B.DropAll(s, ls));
  }

  /** Over every well-formed run both drivers show one and the same map, so they answer
      every `get_key` alike and hold the same keys; TinyDB's duplicates agree throughout;
      and the BSD files are always up to date. */
  lemma {:induction false} DriversEquivalent(db: T.Tables, s: B.Bsd, m: Store, cs: seq<Command>)
    requires TinyShows(db, m) && BsdShows(s, m) && T.Agreeing(db) && s.Synced()
    requires WellFormedRun(m, cs)
    ensures TinyShows(TinyRun(db, cs), StoreRun(m, cs)) && BsdShows(BsdRun(s, cs), StoreRun(m, cs))
    ensures T.Agreeing(TinyRun(db, cs))
    ensures BsdRun(s, cs).Synced()
  {
    if cs == [] {
    } else {
      var init, c := cs[..|cs| - 1], cs[|cs| - 1];
      forall i | 0 <= i < |init| ensures WellFormedCommand(StoreRun(m, init[..i]), init[i]) {
        assert init[..i] == cs[..i] && init[i] == cs[i];
      }
      DriversEquivalent(db, s, m, init);
      var db', s', m' := TinyRun(db, init), BsdRun(s, init), StoreRun(m, init);
      assert WellFormedCommand(m', c);
      WellFormedFits(s', m', c);
      TinyRefines(db', m', c);
      BsdRefines(s', m', c);
      BsdStepKeepsValid(s', c);
      AgreeingStep(db', c);
    }
  }

  lemma AgreeingStep(db: T.Tables, c: Command)
    requires T.Agreeing(db) && (c.Apply? ==> Consistent(c.batch))
    ensures T.Agreeing(TinyStep(db, c))
  {
    match c
    case Apply(b) => T.AgreeingAfterCreateAll(b);
    case Update(b) => AgreeingAfterSetAll(db, b);
    case Delete(ls) => AgreeingAfterRemoveAll(db, ls);
  }

  lemma {:induction false} AgreeingAfterSetAll(db: T.Tables, b: Batch)
    requires T.Agreeing(db)
    ensures T.Agreeing(T.SetAll(db, b))
  {
    if b == [] {
    } else {
      AgreeingAfterSetAll(db, b[..|b| - 1]);
      T.AgreeingAfterSet(T.SetAll(db, b[..|b| - 1]), b[|b| - 1]);
    }
  }

  lemma {:induction false} AgreeingAfterRemoveAll(db: T.Tables, ls: seq<Loc>)
    requires T.Agreeing(db)
    ensures T.Agreeing(T.RemoveAll(db, ls))
  {
    if ls == [] {
    } else {
      AgreeingAfterRemoveAll(db, ls[..|ls| - 1]);
      T.AgreeingAfterRemove(T.RemoveAll(db, ls[..|ls| - 1]), ls[|ls| - 1]);
    }
  }

  // ----- executing a command more than once

  lemma TinyIdempotent(db: T.Tables, c: Command)
    ensures TinyStep(TinyStep(db, c), c) == TinyStep(db, c)
  {
    match c
    case Apply(b) =>
    case Update(b) => T.SetAllTwice(db, b);
    case Delete(ls) => T.RemoveAllTwice(db, ls);
  }

  /** On BSD a repeated delete stops at its first key and reports failure, yet changes nothing. */
  lemma BsdIdempotent(s: B.Bsd, c: Command)
    requires s.Valid()
    ensures BsdStep(BsdStep(s, c), c) == BsdStep(s, c)
    ensures c.Delete? && c.locs != [] ==> B.Removable(BsdStep(s, c), c.locs) == 0
  {
    BsdStepKeepsValid(s, c);
    match c
    case Apply(b) =>
      assert B.Cleared(s) == B.Bsd(map[], map[]) == B.Cleared(BsdStep(s, c));
    case Update(b) => BsdUpdateTwice(s, b);
    case Delete(ls) => BsdDeleteTwice(s, ls);
  }

  lemma {:induction false} PutAllOpens(s: B.Bsd, b: Batch)
    ensures B.PutAll(s, b).open.Keys == s.open.Keys + B.TablesOf(b)
    ensures B.TablesOf(b) <= s.open.Keys ==> B.PutAll(s, b).files == s.files
  {
    if b == [] {
    } else {
      var init, last := b[..|b| - 1], b[|b| - 1];
      PutAllOpens(s, init);
      assert b == init + [last];
      B.TablesOfAppend(init, last);
      B.PutIsSet(B.PutAll(s, init), last);
    }
  }

  lemma SameReads(s: B.Bsd, u: B.Bsd, t: Table)
    requires t in s.open && t in u.open
    requires forall l: Loc :: l.table == t ==> B.Get(u, l) == B.Get(s, l)
    ensures u.open[t] == s.open[t]
  {
    forall k ensures (k in u.open[t] <==> k in s.open[t]) && (k in s.open[t] ==> u.open[t][k] == s.open[t][k]) {
      assert B.Get(u, Loc(t, k)) == B.Get(s, Loc(t, k));
    }
  }

  lemma UpdateTwiceReads(s: B.Bsd, b: Batch, l: Loc)
    ensures B.Get(B.UpdateBatch(B.UpdateBatch(s, b), b), l) == B.Get(B.UpdateBatch(s, b), l)
  {
    B.GetAfterUpdate(s, b, l);
    B.GetAfterUpdate(B.UpdateBatch(s, b), b, l);
  }

  lemma BsdUpdateTwice(s: B.Bsd, b: Batch)
    requires s.Valid()
    ensures B.UpdateBatch(B.UpdateBatch(s, b), b) == B.UpdateBatch(s, b)
  {
    var s1 := B.UpdateBatch(s, b);
    var s2 := B.UpdateBatch(s1, b);
    BsdStepKeepsValid(s, Update(b));
    PutAllOpens(s, b);
    PutAllOpens(s1, b);
    assert s2.open.Keys == s1.open.Keys;
    forall t | t in s1.open ensures s2.open[t] == s1.open[t] {
      forall l: Loc | l.table == t ensures B.Get(s2, l) == B.Get(s1, l) {
        UpdateTwiceReads(s, b, l);
      }
      SameReads(s1, s2, t);
    }
    assert s2.open == s1.open;
    assert s1.files + s1.open == s1.files;
  }

  lemma {:induction false} DropAllOpens(s: B.Bsd, ls: seq<Loc>)
    ensures forall l :: l in ls ==> l.table in B.DropAll(s, ls).open
    ensures s.open.Keys <= B.DropAll(s, ls).open.Keys
  {
    if ls == [] {
    } else {
      DropAllOpens(s, ls[..|ls| - 1]);
      assert ls == ls[..|ls| - 1] + [ls[|ls| - 1]];
    }
  }

  lemma BsdDeleteTwice(s: B.Bsd, ls: seq<Loc>)
    requires s.Valid()
    ensures B.DeleteBatch(B.DeleteBatch(s, ls), ls) == B.DeleteBatch(s, ls)
    ensures ls != [] ==> B.Removable(B.DeleteBatch(s, ls), ls) == 0
  {
    var s1 := B.DeleteBatch(s, ls);
    if ls == [] {
      assert s1.files + s1.open == s1.files;
    } else {
      var n := B.Removable(s, ls);
      B.GetAfterDelete(s, ls, ls[0]);
      B.RemovablePrefix(s, ls);
      assert B.Get(s1, ls[0]).None?;
      assert ls[..0] == [];
      B.RemovableStops(s1, ls, 0);
      DropAllOpens(s, ls[..n]);
      assert ls[..|ls|] == ls;
      assert ls[0].table in s1.open by {
        if n > 0 {
          assert ls[0] in ls[..n];
        }
      }
    }
  }

  function Times(c: Command, n: nat): seq<Command> {
    if n == 0 then [] else Times(c, n - 1) + [c]
  }

  /** A run in which command `i` is executed `times[i]` times in a row. */
  function Repeated(cs: seq<Command>, times: seq<nat>): seq<Command>
    requires |cs| == |times|
  {
    if cs == [] then []
    else Repeated(cs[..|cs| - 1], times[..|cs| - 1]) + Times(cs[|cs| - 1], times[|cs| - 1])
  }

  // ----- runs of any machine that executes commands

  function Run<S>(step: (S, Command) -> S, s: S, cs: seq<Command>): S {
    if cs == [] then s else step(Run(step, s, cs[..|cs| - 1]), cs[|cs| - 1])
  }

  /** Executing a command again changes nothing. */
  ghost predicate Idempotent<S(!new)>(step: (S, Command) -> S, valid: S -> bool) {
    forall s, c :: valid(s) ==> valid(step(s, c)) && step(step(s, c), c) == step(s, c)
  }

  lemma RunOfLast<S>(step: (S, Command) -> S, s: S, cs: seq<Command>, c: Command)
    ensures Run(step, s, cs + [c]) == step(Run(step, s, cs), c)
  {
    assert (cs + [c])[..|cs|] == cs;
  }

  lemma {:induction false} RunKeepsValid<S(!new)>(step: (S, Command) -> S, valid: S -> bool, s: S, cs: seq<Command>)
    requires Idempotent(step, valid) && valid(s)
    ensures valid(Run(step, s, cs))
  {
    if cs == [] {
    } else {
      RunKeepsValid(step, valid, s, cs[..|cs| - 1]);
    }
  }

  lemma {:induction false} RunOfTimes<S(!new)>(step: (S, Command) -> S, valid: S -> bool, s: S, cs: seq<Command>,
                                               c: Command, n: nat)
    requires Idempotent(step, valid) && valid(Run(step, s, cs)) && n >= 1
    ensures Run(step, s, cs + Times(c, n)) == step(Run(step, s, cs), c)
  {
    assert cs + Times(c, n) == (cs + Times(c, n - 1)) + [c];
    RunOfLast(step, s, cs + Times(c, n - 1), c);
    if n == 1 {
      assert cs + Times(c, 0) == cs;
    } else {
      RunOfTimes(step, valid, s, cs, c, n - 1);
    }
  }

  lemma {:induction false} RunRetry<S(!new)>(step: (S, Command) -> S, valid: S -> bool, s: S, cs: seq<Command>,
                                             times: seq<nat>)
    requires Idempotent(step, valid) && valid(s)
    requires |cs| == |times| && forall i :: 0 <= i < |times| ==> times[i] >= 1
    ensures Run(step, s, Repeated(cs, times)) == Run(step, s, cs)
  {
    if cs == [] {
    } else {
      var n := |cs| - 1;
      RunRetry(step, valid, s, cs[..n], times[..n]);
      RunKeepsValid(step, valid, s, cs[..n]);
      RunOfTimes(step, valid, s, Repeated(cs[..n], times[..n]), cs[n], times[n]);
    }
  }

  // ----- and of the two drivers

  lemma {:induction false} TinyRunIs(db: T.Tables, cs: seq<Command>)
    ensures TinyRun(db, cs) == Run(TinyStep, db, cs)
  {
    if cs == [] {
    } else {
      TinyRunIs(db, cs[..|cs| - 1]);
    }
  }

  lemma {:induction false} BsdRunIs(s: B.Bsd, cs: seq<Command>)
    ensures BsdRun(s, cs) == Run(BsdStep, s, cs)
  {
    if cs == [] {
    } else {
      BsdRunIs(s, cs[..|cs| - 1]);
    }
  }

  lemma {:induction false} BsdRunKeepsValid(s: B.Bsd, cs: seq<Command>)
    requires s.Valid()
    ensures BsdRun(s, cs).Valid()
  {
    if cs == [] {
    } else {
      BsdRunKeepsValid(s, cs[..|cs| - 1]);
      BsdStepKeepsValid(BsdRun(s, cs[..|cs| - 1]), cs[|cs| - 1]);
    }
  }

  lemma TinyRetry(db: T.Tables, cs: seq<Command>, times: seq<nat>)
    requires |cs| == |times| && forall i :: 0 <= i < |times| ==> times[i] >= 1
    ensures TinyRun(db, Repeated(cs, times)) == TinyRun(db, cs)
  {
    var valid := (t: T.Tables) => true;
    forall t, c ensures valid(TinyStep(t, c)) && TinyStep(TinyStep(t, c), c) == TinyStep(t, c) {
      TinyIdempotent(t, c);
    }
    RunRetry(TinyStep, valid, db, cs, times);
    TinyRunIs(db, cs);
    TinyRunIs(db, Repeated(cs, times));
  }

  lemma BsdRetry(s: B.Bsd, cs: seq<Command>, times: seq<nat>)
    requires s.Valid() && |cs| == |times| && forall i :: 0 <= i < |times| ==> times[i] >= 1
    ensures BsdRun(s, Repeated(cs, times)) == BsdRun(s, cs)
  {
    var valid := (t: B.Bsd) => t.Valid();
    forall t, c | valid(t) ensures valid(BsdStep(t, c)) && BsdStep(BsdStep(t, c), c) == BsdStep(t, c) {
      BsdStepKeepsValid(t, c);
      BsdIdempotent(t, c);
    }
    RunRetry(BsdStep, valid, s, cs, times);
    BsdRunIs(s, cs);
    BsdRunIs(s, Repeated(cs, times));
  }

  /** At-least-once execution leaves both drivers in exactly the state of exactly-once. */
  lemma RetryIsHarmless(db: T.Tables, s: B.Bsd, cs: seq<Command>, times: seq<nat>)
    requires s.Valid() && |cs| == |times|
    requires forall i :: 0 <= i < |times| ==> times[i] >= 1
    ensures TinyRun(db, Repeated(cs, times)) == TinyRun(db, cs)
    ensures BsdRun(s, Repeated(cs, times)) == BsdRun(s, cs)
  {
    TinyRetry(db, cs, times);
    BsdRetry(s, cs, times);
  }
}
