/** The ZeroMQ transport: one shared sender per connection, guarded by a lock, used by any
    number of bulk and single sends at once. Every atomic action of a thread is a step. */
module ZeroMq {
  import opened Records

  type Conn = string
  type BulkId = nat
  type Tid = nat

  /** A request socket strictly alternates: after a send it only accepts a receive. */
  datatype Socket = Ready | Awaiting(sender: Tid)

  datatype Sender = Sender(lock: Option<Tid>, socket: Socket)

  /** Where a thread is in `_send`. Replies are named by the thread whose message they answer. */
  datatype Stage =
    | Waiting
    | Locked
    | Sent
    | Got(reply: Tid)
    | Raising
    | Unlocked(reply: Tid)
    | Done(reply: Tid)
    | Failed

  datatype Thread = Thread(conn: Conn, bulk: Option<BulkId>, stage: Stage)

  /** `todo` holds the connections a bulk caller still has to send to; `cur` is the set the
      pool keeps for each bulk that has not been waited for. */
  datatype Pool = Pool(senders: map<Conn, Sender>, cur: map<BulkId, set<Conn>>,
                       todo: map<BulkId, set<Conn>>, threads: map<Tid, Thread>)

  const EMPTY_POOL := Pool(map[], map[], map[], map[])

  datatype Action =
    | StartBulk(b: BulkId, conns: set<Conn>)
    | Spawn(b: BulkId, c: Conn, t: Tid)
    | StartSingle(c: Conn, t: Tid)
    | Acquire(t: Tid)
    | SendReturns(t: Tid)
    | SendRaises(t: Tid)
    | RecvReturns(t: Tid)
    | RecvRaises(t: Tid)
    | Release(t: Tid)
    | Remove(t: Tid)
    | Loop(b: BulkId)

  function SenderOf(p: Pool, c: Conn): Sender {
    if c in p.senders then p.senders[c] else Sender(None, Ready)
  }

  predicate At(p: Pool, t: Tid, s: Stage) {
    t in p.threads && p.threads[t].stage == s
  }

  predicate Finished(s: Stage) { s.Done? || s.Failed? }

  predicate HoldsLock(s: Stage) { s.Locked? || s.Sent? || s.Got? || s.Raising? }

  predicate Enabled(p: Pool, a: Action) {
    match a
    case StartBulk(b, conns) =>
      b !in p.cur && b !in p.todo && forall t :: t in p.threads ==> p.threads[t].bulk != Some(b)
    case Spawn(b, c, t) => b in p.cur && b in p.todo && c in p.todo[b] && t !in p.threads
    case StartSingle(c, t) => t !in p.threads
    case Acquire(t) => At(p, t, Waiting) && SenderOf(p, p.threads[t].conn).lock.None?
    case SendReturns(t) => At(p, t, Locked) && SenderOf(p, p.threads[t].conn).socket.Ready?
    case SendRaises(t) => At(p, t, Locked)
    case RecvReturns(t) => At(p, t, Sent) && SenderOf(p, p.threads[t].conn).socket.Awaiting?
    case RecvRaises(t) => At(p, t, Sent)
    case Release(t) => t in p.threads && (p.threads[t].stage.Got? || p.threads[t].stage.Raising?)
    case Remove(t) => t in p.threads && p.threads[t].stage.Unlocked?
    case Loop(b) => b in p.cur && b in p.todo && p.todo[b] == {} &&
                    forall t :: t in p.threads && p.threads[t].bulk == Some(b) ==> Finished(p.threads[t].stage)
  }

  /** The set removal of `_send` raises a KeyError when the connection is not there. */
  predicate RemoveRaises(p: Pool, t: Tid)
    requires t in p.threads
  {
    var th := p.threads[t];
    th.bulk.Some? && (th.bulk.value !in p.cur || th.conn !in p.cur[th.bulk.value])
  }

  function Moved(p: Pool, t: Tid, s: Stage): Pool
    requires t in p.threads
  {
    p.(threads := p.threads[t := p.threads[t].(stage := s)])
  }

  function WithSender(p: Pool, c: Conn, s: Sender): Pool {
    p.(senders := p.senders[c := s])
  }

  function Next(p: Pool, a: Action): Pool
    requires Enabled(p, a)
  {
    match a
    case StartBulk(b, conns) => p.(cur := p.cur[b := {}], todo := p.todo[b := conns])
    case Spawn(b, c, t) =>
      Pool(p.senders[c := SenderOf(p, c)], p.cur[b := p.cur[b] + {c}], p.todo[b := p.todo[b] - {c}],
           p.threads[t := Thread(c, Some(b), Waiting)])
    case StartSingle(c, t) =>
      Pool(p.senders[c := SenderOf(p, c)], p.cur, p.todo, p.threads[t := Thread(c, None, Waiting)])
    case Acquire(t) =>
      var c := p.threads[t].conn;
      Moved(WithSender(p, c, SenderOf(p, c).(lock := Some(t))), t, Locked)
    case SendReturns(t) =>
      var c := p.threads[t].conn;
      Moved(WithSender(p, c, SenderOf(p, c).(socket := Awaiting(t))), t, Sent)
    case SendRaises(t) => Moved(p, t, Raising)
    case RecvReturns(t) =>
      var c := p.threads[t].conn;
      Moved(WithSender(p, c, SenderOf(p, c).(socket := Ready)), t, Got(SenderOf(p, c).socket.sender))
    case RecvRaises(t) => Moved(p, t, Raising)
    case Release(t) =>
      var th := p.threads[t];
      Moved(WithSender(p, th.conn, SenderOf(p, th.conn).(lock := None)), t,
            if th.stage.Got? then Unlocked(th.stage.reply) else Failed)
    case Remove(t) =>
      var th := p.threads[t];
      if RemoveRaises(p, t) then Moved(p, t, Failed)
      else if th.bulk.Some? then
        Moved(p.(cur := p.cur[th.bulk.value := p.cur[th.bulk.value] - {th.conn}]), t, Done(th.stage.reply))
      else Moved(p, t, Done(th.stage.reply))
    case Loop(b) => p.(cur := p.cur - {b}, todo := p.todo - {b})
  }

  // ----- the code of each step

  /** The pool's class-level dictionaries, and the threads that run `_send`. */
  class ZeroMQSenderPool {
    var senders: map<Conn, Sender>
    var cur: map<BulkId, set<Conn>>
    var todo: map<BulkId, set<Conn>>
    var threads: map<Tid, Thread>

    ghost function View(): Pool
      reads this
    {
      Pool(senders, cur, todo, threads)
    }

    constructor ()
      ensures View() == EMPTY_POOL
    {
      senders, cur, todo, threads := map[], map[], map[], map[];
    }

    /** One sender per connection, made on first use and shared from then on. */
    method GetSender(c: Conn)
      modifies this`senders
      ensures senders == old(senders)[c := SenderOf(old(View()), c)]
    {
      if c !in senders {
        senders := senders[c := Sender(None, Ready)];
      }
    }

    method StartBulkSend(b: BulkId, conns: set<Conn>)
      requires Enabled(View(), StartBulk(b, conns))
      modifies this
      ensures View() == Next(old(View()), StartBulk(b, conns))
      ensures b in cur && cur[b] == {} && threads == old(threads)
    {
      cur, todo := cur[b := {}], todo[b := conns];
    }

    /** The bulk branch of `send`: note the connection, spawn the thread, return at once. */
    method SendInBulk(b: BulkId, c: Conn, t: Tid)
      requires Enabled(View(), Spawn(b, c, t))
      modifies this
      ensures View() == Next(old(View()), Spawn(b, c, t))
      ensures b in cur && cur[b] == old(cur)[b] + {c} && c in senders
      ensures threads == old(threads)[t := Thread(c, Some(b), Waiting)]
    {
      GetSender(c);
      cur := cur[b := cur[b] + {c}];
      threads := threads[t := Thread(c, Some(b), Waiting)];
      todo := todo[b := todo[b] - {c}];
    }

    method SendAlone(c: Conn, t: Tid)
      requires Enabled(View(), StartSingle(c, t))
      modifies this
      ensures View() == Next(old(View()), StartSingle(c, t))
      ensures cur == old(cur) && c in senders && threads == old(threads)[t := Thread(c, None, Waiting)]
    {
      GetSender(c);
      threads := threads[t := Thread(c, None, Waiting)];
    }

    method AcquireLock(t: Tid)
      requires Enabled(View(), Acquire(t))
      modifies this
      ensures View() == Next(old(View()), Acquire(t))
    {
      var th := threads[t];
      senders := senders[th.conn := SenderOf(Pool(senders, cur, todo, threads), th.conn).(lock := Some(t))];
      threads := threads[t := th.(stage := Locked)];
    }

    /** A socket that still waits for a reply refuses to send; one that is ready may fail as well. */
    method SocketSend(t: Tid, accepted: bool)
      requires Enabled(View(), SendRaises(t)) && threads[t].conn in senders
      modifies this
      ensures View() == if accepted && old(senders)[old(threads)[t].conn].socket.Ready?
                        then Next(old(View()), SendReturns(t)) else Next(old(View()), SendRaises(t))
    {
      var th := threads[t];
      if accepted && senders[th.conn].socket.Ready? {
        senders := senders[th.conn := senders[th.conn].(socket := Awaiting(t))];
        threads := threads[t := th.(stage := Sent)];
      } else {
        threads := threads[t := th.(stage := Raising)];
      }
    }

    method SocketRecv(t: Tid, arrived: bool)
      requires Enabled(View(), RecvRaises(t)) && threads[t].conn in senders
      modifies this
      ensures View() == if arrived && old(senders)[old(threads)[t].conn].socket.Awaiting?
                        then Next(old(View()), RecvReturns(t)) else Next(old(View()), RecvRaises(t))
    {
      var th := threads[t];
      var socket := senders[th.conn].socket;
      if arrived && socket.Awaiting? {
        senders := senders[th.conn := senders[th.conn].(socket := Ready)];
        threads := threads[t := th.(stage := Got(socket.sender))];
      } else {
        threads := threads[t := th.(stage := Raising)];
      }
    }

    /** The `finally` clause: reached with a reply and with an exception alike. */
    method ReleaseLock(t: Tid)
      requires Enabled(View(), Release(t)) && threads[t].conn in senders
      modifies this
      ensures View() == Next(old(View()), Release(t))
    {
      var th := threads[t];
      senders := senders[th.conn := senders[th.conn].(lock := None)];
      if th.stage.Got? {
        threads := threads[t := th.(stage := Unlocked(th.stage.reply))];
      } else {
        threads := threads[t := th.(stage := Failed)];
      }
    }

    /** `cur[send_id].remove(conn)`; the caller of a single send skips it. */
    method RemoveFromCur(t: Tid) returns (ok: bool)
      requires Enabled(View(), Remove(t))
      modifies this
      ensures View() == Next(old(View()), Remove(t))
      ensures ok == !RemoveRaises(old(View()), t)
    {
      var th := threads[t];
      ok := true;
      if th.bulk.Some? {
        var b := th.bulk.value;
        ok := b in cur && th.conn in cur[b];
        if ok {
          cur := cur[b := cur[b] - {th.conn}];
        }
      }
      threads := threads[t := th.(stage := if ok then Done(th.stage.reply) else Failed)];
    }

    /** `waitall` has returned: drop the pool and the set of the bulk. */
    method LoopBulk(b: BulkId)
      requires Enabled(View(), Loop(b))
      modifies this
      ensures View() == Next(old(View()), Loop(b))
      ensures b !in cur && (forall d :: d != b && d in old(cur) ==> d in cur && cur[d] == old(cur)[d])
      ensures threads == old(threads) && senders == old(senders)
    {
      cur, todo := cur - {b}, todo - {b};
    }
  }

  // ----- the invariant

  /** The lock of a sender is held by exactly the one thread that is inside its `_send`. */
  ghost predicate LocksExact(p: Pool) {
    forall t :: t in p.threads ==>
      (HoldsLock(p.threads[t].stage) <==> SenderOf(p, p.threads[t].conn).lock == Some(t))
  }

  ghost predicate LocksKnown(p: Pool) {
    forall c :: SenderOf(p, c).lock.Some? ==>
      SenderOf(p, c).lock.value in p.threads && p.threads[SenderOf(p, c).lock.value].conn == c
  }

  /** A thread between its send and its receive is the one the socket waits for, and a reply
      in hand answers the thread's own message. */
  ghost predicate RepliesOwn(p: Pool) {
    forall t :: t in p.threads ==> OwnReply(p, t, p.threads[t])
  }

  ghost predicate OwnReply(p: Pool, t: Tid, th: Thread) {
    match th.stage
    case Sent => SenderOf(p, th.conn).socket == Awaiting(t)
    case Got(r) => r == t
    case Unlocked(r) => r == t
    case Done(r) => r == t
    case _ => true
  }

  ghost predicate Pending(p: Pool, b: BulkId, t: Tid) {
    t in p.threads && p.threads[t].bulk == Some(b) && !p.threads[t].stage.Done?
  }

  /** The set of a bulk is the connections of its threads that have not succeeded. */
  ghost predicate CurExact(p: Pool, b: BulkId)
    requires b in p.cur
  {
    && (forall t :: Pending(p, b, t) ==> p.threads[t].conn in p.cur[b])
    && (forall c :: c in p.cur[b] ==> exists t :: Pending(p, b, t) && p.threads[t].conn == c)
  }

  predicate SameBulk(t: Thread, u: Thread) { t.bulk.Some? && t.bulk == u.bulk }

  /** No two threads of a bulk share a connection, nor will a later one. */
  ghost predicate BulkDistinct(p: Pool) {
    && (forall t, u :: t in p.threads && u in p.threads && t != u && SameBulk(p.threads[t], p.threads[u]) ==>
          p.threads[t].conn != p.threads[u].conn)
    && (forall b, t :: b in p.todo && t in p.threads && p.threads[t].bulk == Some(b) ==>
          p.threads[t].conn !in p.todo[b])
  }

  ghost predicate BulksLive(p: Pool) {
    && p.cur.Keys == p.todo.Keys
    && (forall t :: t in p.threads && p.threads[t].bulk.Some? && !Finished(p.threads[t].stage) ==>
          p.threads[t].bulk.value in p.cur)
  }

  ghost predicate Inv(p: Pool) {
    && LocksExact(p)
    && LocksKnown(p)
    && RepliesOwn(p)
    && BulkDistinct(p)
    && BulksLive(p)
    && (forall b :: b in p.cur ==> CurExact(p, b))
  }

  lemma LocksStep(p: Pool, a: Action)
    requires LocksExact(p) && LocksKnown(p) && Enabled(p, a)
    ensures LocksExact(Next(p, a))
  {
    var q := Next(p, a);
    forall t | t in q.threads
      ensures HoldsLock(q.threads[t].stage) <==> SenderOf(q, q.threads[t].conn).lock == Some(t)
    {
      if t in p.threads {
        assert q.threads[t].conn == p.threads[t].conn;
        assert HoldsLock(p.threads[t].stage) <==> SenderOf(p, p.threads[t].conn).lock == Some(t);
      } else {
        assert q.threads[t].stage == Waiting;
        assert SenderOf(q, q.threads[t].conn).lock == SenderOf(p, q.threads[t].conn).lock;
      }
    }
  }

  lemma RepliesStep(p: Pool, a: Action)
    requires LocksExact(p) && RepliesOwn(p) && Enabled(p, a)
    ensures RepliesOwn(Next(p, a))
  {
    var q := Next(p, a);
    forall t | t in q.threads ensures OwnReply(q, t, q.threads[t]) {
      if t in p.threads {
        assert OwnReply(p, t, p.threads[t]);
        assert HoldsLock(p.threads[t].stage) <==> SenderOf(p, p.threads[t].conn).lock == Some(t);
      }
    }
  }

  lemma LocksStayKnown(p: Pool, a: Action)
    requires LocksKnown(p) && Enabled(p, a)
    ensures LocksKnown(Next(p, a))
  {
    var q := Next(p, a);
    assert forall t :: t in p.threads ==> t in q.threads && q.threads[t].conn == p.threads[t].conn;
    forall c | SenderOf(q, c).lock.Some?
      ensures SenderOf(q, c).lock.value in q.threads && q.threads[SenderOf(q, c).lock.value].conn == c
    {
      assert SenderOf(q, c).lock == SenderOf(p, c).lock || (a.Acquire? && SenderOf(q, c).lock == Some(a.t));
    }
  }

  /** Only a bulk send adds a thread to a bulk, and it takes its connection off the bulk's list. */
  lemma SpawnIsDistinct(p: Pool, b: BulkId, c: Conn, t: Tid)
    requires BulkDistinct(p) && Enabled(p, Spawn(b, c, t))
    ensures BulkDistinct(Next(p, Spawn(b, c, t)))
  {
  }

  lemma DistinctStep(p: Pool, a: Action)
    requires BulkDistinct(p) && Enabled(p, a)
    ensures BulkDistinct(Next(p, a))
  {
    var q := Next(p, a);
    if a.Spawn? {
      SpawnIsDistinct(p, a.b, a.c, a.t);
    } else {
      SameThreads(p, a);
      forall t, u | t in q.threads && u in q.threads && t != u && SameBulk(q.threads[t], q.threads[u])
        ensures q.threads[t].conn != q.threads[u].conn
      {
        assert t in p.threads && u in p.threads && SameBulk(p.threads[t], p.threads[u]);
      }
    }
  }

  lemma SameThreads(p: Pool, a: Action)
    requires Enabled(p, a) && !a.Spawn?
    ensures forall t :: t in Next(p, a).threads && Next(p, a).threads[t].bulk.Some? ==>
              && t in p.threads && p.threads[t].bulk == Next(p, a).threads[t].bulk
              && p.threads[t].conn == Next(p, a).threads[t].conn
  {
  }

  lemma LiveStep(p: Pool, a: Action)
    requires BulksLive(p) && Enabled(p, a)
    ensures BulksLive(Next(p, a))
  {
  }

  lemma RemoveNeverRaises(p: Pool, t: Tid)
    requires Inv(p) && Enabled(p, Remove(t))
    ensures !RemoveRaises(p, t)
  {
    if p.threads[t].bulk.Some? {
      assert Pending(p, p.threads[t].bulk.value, t);
    }
  }

  /** Steps that neither add to a bulk nor complete one of its sends leave its set exact. */
  lemma CurUntouched(p: Pool, q: Pool, b: BulkId)
    requires b in p.cur && CurExact(p, b) && b in q.cur && q.cur[b] == p.cur[b]
    requires forall t :: Pending(q, b, t) <==> Pending(p, b, t)
    requires forall t :: Pending(q, b, t) && t in p.threads ==> q.threads[t].conn == p.threads[t].conn
    ensures CurExact(q, b)
  {
    forall c | c in q.cur[b] ensures exists t :: Pending(q, b, t) && q.threads[t].conn == c {
      var t :| Pending(p, b, t) && p.threads[t].conn == c;
      assert Pending(q, b, t);
    }
  }

  lemma CurAfterSpawn(p: Pool, c: Conn, t: Tid, b: BulkId)
    requires b in p.cur && CurExact(p, b) && Enabled(p, Spawn(b, c, t))
    ensures CurExact(Next(p, Spawn(b, c, t)), b)
  {
    var q := Next(p, Spawn(b, c, t));
    assert q.cur[b] == p.cur[b] + {c} && Pending(q, b, t) && q.threads[t].conn == c;
    forall u | Pending(q, b, u) && u != t ensures q.threads[u].conn in q.cur[b] {
      assert Pending(p, b, u);
    }
    forall d | d in q.cur[b] && d != c ensures exists u :: Pending(q, b, u) && q.threads[u].conn == d {
      var u :| Pending(p, b, u) && p.threads[u].conn == d;
      assert Pending(q, b, u) && q.threads[u].conn == d;
    }
  }

  lemma PendingAfterRemove(p: Pool, t: Tid, b: BulkId)
    requires b in p.cur && Enabled(p, Remove(t)) && p.threads[t].bulk == Some(b)
    requires p.threads[t].conn in p.cur[b]
    ensures var q := Next(p, Remove(t));
            && b in q.cur && q.cur[b] == p.cur[b] - {p.threads[t].conn}
            && (forall u :: Pending(q, b, u) <==> Pending(p, b, u) && u != t)
            && forall u :: u in p.threads ==> u in q.threads && q.threads[u].conn == p.threads[u].conn
  {
  }

  lemma CurAfterRemove(p: Pool, t: Tid, b: BulkId)
    requires Inv(p) && Enabled(p, Remove(t)) && p.threads[t].bulk == Some(b)
    ensures b in p.cur && CurExact(Next(p, Remove(t)), b)
  {
    RemoveNeverRaises(p, t);
    PendingAfterRemove(p, t, b);
    var q := Next(p, Remove(t));
    assert CurExact(p, b) && Pending(p, b, t);
    forall u | Pending(q, b, u) ensures q.threads[u].conn in q.cur[b] {
      assert Pending(p, b, u) && u != t && SameBulk(p.threads[t], p.threads[u]);
    }
    forall c | c in q.cur[b] ensures exists u :: Pending(q, b, u) && q.threads[u].conn == c {
      var u :| Pending(p, b, u) && p.threads[u].conn == c;
      assert Pending(q, b, u);
    }
  }

  lemma CurStep(p: Pool, a: Action, b: BulkId)
    requires Inv(p) && Enabled(p, a) && b in Next(p, a).cur
    ensures CurExact(Next(p, a), b)
  {
    var q := Next(p, a);
    if a.StartBulk? && a.b == b {
      assert forall t :: !Pending(q, b, t);
    } else if a.Spawn? && a.b == b {
      CurAfterSpawn(p, a.c, a.t, b);
    } else if a.Remove? && p.threads[a.t].bulk == Some(b) {
      CurAfterRemove(p, a.t, b);
    } else {
      CurKept(p, a, b);
      CurUntouched(p, q, b);
    }
  }

  lemma CurKept(p: Pool, a: Action, b: BulkId)
    requires Enabled(p, a) && b in Next(p, a).cur
    requires !((a.StartBulk? || a.Spawn?) && a.b == b) && !(a.Remove? && p.threads[a.t].bulk == Some(b))
    ensures b in p.cur && Next(p, a).cur[b] == p.cur[b]
    ensures forall t :: Pending(Next(p, a), b, t) <==> Pending(p, b, t)
    ensures forall t :: t in p.threads ==> t in Next(p, a).threads && Next(p, a).threads[t].conn == p.threads[t].conn
  {
  }

  lemma StepKeepsInv(p: Pool, a: Action)
    requires Inv(p) && Enabled(p, a)
    ensures Inv(Next(p, a))
  {
    LocksStep(p, a);
    RepliesStep(p, a);
    LocksStayKnown(p, a);
    DistinctStep(p, a);
    LiveStep(p, a);
    forall b | b in Next(p, a).cur ensures CurExact(Next(p, a), b) {
      CurStep(p, a, b);
    }
  }

  // ----- whole runs

  ghost predicate IsRun(ps: seq<Pool>, acts: seq<Action>) {
    && |ps| == |acts| + 1
    && ps[0] == EMPTY_POOL
    && forall i :: 0 <= i < |acts| ==> Steps(ps[i], acts[i], ps[i + 1])
  }

  ghost predicate Steps(p: Pool, a: Action, q: Pool) {
    Enabled(p, a) && q == Next(p, a)
  }

  lemma StepsKeepInv(p: Pool, a: Action, q: Pool)
    requires Inv(p) && Steps(p, a, q)
    ensures Inv(q)
  {
    StepKeepsInv(p, a);
  }

  lemma {:induction false} RunKeepsInv(ps: seq<Pool>, acts: seq<Action>)
    requires |ps| == |acts| + 1 && ps[0] == EMPTY_POOL
    requires forall i :: 0 <= i < |acts| ==> Steps(ps[i], acts[i], ps[i + 1])
    ensures forall i :: 0 <= i < |ps| ==> Inv(ps[i])
  {
    if acts == [] {
    } else {
      var n := |acts| - 1;
      RunKeepsInv(ps[..|acts|], acts[..n]);
      assert Inv(ps[..|acts|][n]);
      StepsKeepInv(ps[n], acts[n], ps[n + 1]);
    }
  }

  /** In every interleaving, at most one thread is inside the guarded part of a sender's
      `_send`, a thread that succeeds holds the reply to its own message, and the set
      removal finds its connection. */
  lemma SendsAreExclusive(ps: seq<Pool>, acts: seq<Action>, t: Tid, u: Tid)
    requires IsRun(ps, acts)
    requires var p := ps[|acts|]; t in p.threads && u in p.threads && p.threads[t].conn == p.threads[u].conn
    ensures var p := ps[|acts|];
            && (HoldsLock(p.threads[t].stage) && HoldsLock(p.threads[u].stage) ==> t == u)
            && (p.threads[t].stage.Done? ==> p.threads[t].stage.reply == t)
            && (p.threads[t].stage.Unlocked? ==> !RemoveRaises(p, t))
  {
    RunKeepsInv(ps, acts);
    if ps[|acts|].threads[t].stage.Unlocked? {
      RemoveNeverRaises(ps[|acts|], t);
    }
  }

  /** When the last thread of a bulk has finished, the pool's set is exactly the connections
      whose send or receive raised. */
  lemma BulkLeavesFailures(ps: seq<Pool>, acts: seq<Action>, b: BulkId, c: Conn)
    requires IsRun(ps, acts) && Enabled(ps[|acts|], Loop(b))
    ensures var p := ps[|acts|];
            c in p.cur[b] <==>
            exists t :: t in p.threads && p.threads[t].bulk == Some(b) && p.threads[t].stage.Failed?
                        && p.threads[t].conn == c
  {
    RunKeepsInv(ps, acts);
    var p := ps[|acts|];
    assert CurExact(p, b);
    if c in p.cur[b] {
      var t :| Pending(p, b, t) && p.threads[t].conn == c;
      assert Finished(p.threads[t].stage);
    }
    if t :| t in p.threads && p.threads[t].bulk == Some(b) && p.threads[t].stage.Failed? && p.threads[t].conn == c {
      assert Pending(p, b, t);
    }
  }

  // ----- every send is made, and its outcome is earned

  lemma StepKeepsThread(p: Pool, a: Action, q: Pool, t: Tid)
    requires Steps(p, a, q) && t in p.threads
    ensures t in q.threads && q.threads[t].conn == p.threads[t].conn && q.threads[t].bulk == p.threads[t].bulk
  {
  }

  lemma {:induction false} ThreadStays(ps: seq<Pool>, acts: seq<Action>, i: nat, j: nat, t: Tid)
    requires IsRun(ps, acts) && i <= j <= |acts| && t in ps[i].threads
    ensures t in ps[j].threads
    ensures ps[j].threads[t].conn == ps[i].threads[t].conn && ps[j].threads[t].bulk == ps[i].threads[t].bulk
    decreases j
  {
    if i == j {
    } else {
      ThreadStays(ps, acts, i, j - 1, t);
      RunStep(ps, acts, j - 1);
      StepKeepsThread(ps[j - 1], acts[j - 1], ps[j], t);
    }
  }

  /** A single or a bulk send starts a thread for its connection, which is never dropped. */
  lemma SendsStart(ps: seq<Pool>, acts: seq<Action>, i: nat, j: nat)
    requires IsRun(ps, acts) && i < j <= |acts| && (acts[i].StartSingle? || acts[i].Spawn?)
    ensures acts[i].t !in ps[i].threads && acts[i].t in ps[j].threads
    ensures ps[j].threads[acts[i].t].conn == acts[i].c
    ensures ps[j].threads[acts[i].t].bulk == if acts[i].Spawn? then Some(acts[i].b) else None
  {
    RunStep(ps, acts, i);
    ThreadStays(ps, acts, i + 1, j, acts[i].t);
  }

  ghost predicate Did(acts: seq<Action>, k: nat, a: Action)
    requires k <= |acts|
  {
    exists i :: 0 <= i < k && acts[i] == a
  }

  /** The message of the thread reached the wire, and later its reply was taken off it. */
  ghost predicate Exchanged(acts: seq<Action>, k: nat, t: Tid)
    requires k <= |acts|
  {
    exists i, j :: 0 <= i < j < k && acts[i] == SendReturns(t) && acts[j] == RecvReturns(t)
  }

  /** What a thread must have done to be where it is. */
  ghost predicate Earned(acts: seq<Action>, k: nat, t: Tid, s: Stage)
    requires k <= |acts|
  {
    match s
    case Waiting => true
    case Locked => true
    case Sent => Did(acts, k, SendReturns(t))
    case Got(_) => Exchanged(acts, k, t)
    case Unlocked(_) => Exchanged(acts, k, t)
    case Done(_) => Exchanged(acts, k, t)
    case Raising => Did(acts, k, SendRaises(t)) || Did(acts, k, RecvRaises(t))
    case Failed => Did(acts, k, SendRaises(t)) || Did(acts, k, RecvRaises(t))
  }

  lemma EarnedLater(acts: seq<Action>, k: nat, t: Tid, s: Stage)
    requires k < |acts| && Earned(acts, k, t, s)
    ensures Earned(acts, k + 1, t, s)
  {
  }

  /** The stage a step of a thread leads to, from the one it was in. */
  lemma OwnStep(p: Pool, a: Action, q: Pool, t: Tid)
    requires Inv(p) && Steps(p, a, q) && t in p.threads && q.threads[t].stage != p.threads[t].stage
    ensures match q.threads[t].stage
            case Waiting => false
            case Locked => true
            case Sent => a == SendReturns(t)
            case Got(_) => a == RecvReturns(t) && p.threads[t].stage.Sent?
            case Unlocked(_) => p.threads[t].stage.Got?
            case Done(_) => p.threads[t].stage.Unlocked?
            case Raising => a == SendRaises(t) || a == RecvRaises(t)
            case Failed => p.threads[t].stage.Raising?
  {
    if a.Remove? && a.t == t {
      RemoveNeverRaises(p, t);
    }
  }

  lemma {:induction false} OutcomesAreEarned(ps: seq<Pool>, acts: seq<Action>, k: nat, t: Tid)
    requires IsRun(ps, acts) && k <= |acts| && t in ps[k].threads
    ensures Earned(acts, k, t, ps[k].threads[t].stage)
    decreases k
  {
    if k == 0 {
    } else {
      if t in ps[k - 1].threads {
        OutcomesAreEarned(ps, acts, k - 1, t);
      }
      RunStep(ps, acts, k - 1);
      RunKeepsInv(ps, acts);
      EarnedStep(ps[k - 1], ps[k], acts, k, t);
    }
  }

  lemma EarnedStep(p: Pool, q: Pool, acts: seq<Action>, k: nat, t: Tid)
    requires 1 <= k <= |acts| && Inv(p) && Steps(p, acts[k - 1], q) && t in q.threads
    requires t in p.threads ==> Earned(acts, k - 1, t, p.threads[t].stage)
    ensures Earned(acts, k, t, q.threads[t].stage)
  {
    if t !in p.threads {
      StartsWaiting(p, acts[k - 1], q, t);
    } else {
      EarnedLater(acts, k - 1, t, p.threads[t].stage);
      if q.threads[t].stage != p.threads[t].stage {
        OwnStep(p, acts[k - 1], q, t);
        EarnedNow(acts, k, t, p.threads[t].stage, q.threads[t].stage);
      }
    }
  }

  lemma StartsWaiting(p: Pool, a: Action, q: Pool, t: Tid)
    requires Steps(p, a, q) && t !in p.threads && t in q.threads
    ensures q.threads[t].stage == Waiting
  {
  }

  lemma EarnedNow(acts: seq<Action>, k: nat, t: Tid, before: Stage, after: Stage)
    requires 1 <= k <= |acts| && Earned(acts, k - 1, t, before)
    requires match after
             case Waiting => false
             case Locked => true
             case Sent => acts[k - 1] == SendReturns(t)
             case Got(_) => acts[k - 1] == RecvReturns(t) && before.Sent?
             case Unlocked(_) => before.Got?
             case Done(_) => before.Unlocked?
             case Raising => acts[k - 1] == SendRaises(t) || acts[k - 1] == RecvRaises(t)
             case Failed => before.Raising?
    ensures Earned(acts, k, t, after)
  {
    EarnedLater(acts, k - 1, t, before);
  }

  ghost predicate Serves(p: Pool, b: BulkId, t: Tid, c: Conn) {
    t in p.threads && p.threads[t].bulk == Some(b) && p.threads[t].conn == c
  }

  /** Every connection of the bulk is still to be sent to, or has a thread. */
  ghost predicate Covered(p: Pool, b: BulkId, conns: set<Conn>) {
    && b in p.cur && b in p.todo
    && (forall c :: c in conns ==> c in p.todo[b] || exists t :: Serves(p, b, t, c))
    && (forall t, c :: Serves(p, b, t, c) ==> c in conns)
    && p.todo[b] <= conns
  }

  lemma CoveredStep(p: Pool, a: Action, q: Pool, b: BulkId, conns: set<Conn>)
    requires Covered(p, b, conns) && Steps(p, a, q) && a != Loop(b)
    ensures Covered(q, b, conns)
  {
    forall c | c in conns && c !in q.todo[b] ensures exists t :: Serves(q, b, t, c) {
      if a.Spawn? && a.b == b && a.c == c {
        assert Serves(q, b, a.t, c);
      } else {
        var t :| Serves(p, b, t, c);
        assert Serves(q, b, t, c);
      }
    }
    forall t, c | Serves(q, b, t, c) ensures c in conns {
      assert Serves(p, b, t, c) || (a.Spawn? && a.b == b && a.c == c);
    }
  }

  lemma {:induction false} StaysCovered(ps: seq<Pool>, acts: seq<Action>, i: nat, j: nat, b: BulkId, conns: set<Conn>)
    requires IsRun(ps, acts) && i < j <= |acts| && acts[i] == StartBulk(b, conns)
    requires forall k :: i < k < j ==> acts[k] != Loop(b)
    ensures Covered(ps[j], b, conns)
    decreases j
  {
    RunStep(ps, acts, j - 1);
    if j == i + 1 {
      assert forall t, c :: !Serves(ps[j], b, t, c);
    } else {
      StaysCovered(ps, acts, i, j - 1, b, conns);
      CoveredStep(ps[j - 1], acts[j - 1], ps[j], b, conns);
    }
  }

  /** When a bulk can be waited for, each of its connections has had exactly one thread. The
      connection has left the set exactly if that thread got the reply to its message, and it
      is still there exactly if its send or its receive raised. */
  lemma BulkReachesAll(ps: seq<Pool>, acts: seq<Action>, i: nat, j: nat, b: BulkId, conns: set<Conn>, c: Conn)
    returns (t: Tid)
    requires IsRun(ps, acts) && i < j <= |acts| && acts[i] == StartBulk(b, conns)
    requires forall k :: i < k < j ==> acts[k] != Loop(b)
    requires Enabled(ps[j], Loop(b)) && c in conns
    ensures Serves(ps[j], b, t, c) && forall u :: Serves(ps[j], b, u, c) ==> u == t
    ensures c !in ps[j].cur[b] <==> ps[j].threads[t].stage == Done(t)
    ensures c !in ps[j].cur[b] ==> Exchanged(acts, j, t)
    ensures c in ps[j].cur[b] ==> Did(acts, j, SendRaises(t)) || Did(acts, j, RecvRaises(t))
    ensures ps[j].cur[b] <= conns
  {
    var p := ps[j];
    RunKeepsInv(ps, acts);
    StaysCovered(ps, acts, i, j, b, conns);
    t :| Serves(p, b, t, c);
    assert BulkDistinct(p);
    OutcomesAreEarned(ps, acts, j, t);
    assert CurExact(p, b) && OwnReply(p, t, p.threads[t]) && Finished(p.threads[t].stage);
    if c in p.cur[b] {
      var u :| Pending(p, b, u) && p.threads[u].conn == c;
      assert Serves(p, b, u, c);
    } else {
      assert !Pending(p, b, t);
    }
    forall d | d in p.cur[b] ensures d in conns {
      var u :| Pending(p, b, u) && p.threads[u].conn == d;
      assert Serves(p, b, u, d);
    }
  }

  /** The sends never block each other for good: while one is unfinished, one can move. */
  lemma SomeThreadMoves(p: Pool, t: Tid) returns (a: Action)
    requires Inv(p) && t in p.threads && !Finished(p.threads[t].stage)
    ensures Enabled(p, a) && !a.StartBulk? && !a.Spawn? && !a.StartSingle? && !a.Loop?
    ensures a.t in p.threads && Next(p, a).threads[a.t].stage != p.threads[a.t].stage
  {
    var lock := SenderOf(p, p.threads[t].conn).lock;
    var u := if p.threads[t].stage.Waiting? && lock.Some? then lock.value else t;
    match p.threads[u].stage
    case Waiting => a := Acquire(u);
    case Locked => a := SendRaises(u);
    case Sent => a := RecvRaises(u);
    case Got(_) => a := Release(u);
    case Raising => a := Release(u);
    case Unlocked(_) => a := Remove(u);
    case _ => assert false;
  }

  // ----- a reply that never arrives

  /** The socket still waits for a thread that has given up. */
  ghost predicate Wedged(p: Pool, c: Conn) {
    && SenderOf(p, c).socket.Awaiting?
    && forall t :: At(p, t, Sent) ==> p.threads[t].conn != c
  }

  lemma WedgedStep(p: Pool, a: Action, c: Conn)
    requires Wedged(p, c) && Enabled(p, a)
    ensures Wedged(Next(p, a), c)
    ensures a.SendReturns? || a.RecvReturns? ==> p.threads[a.t].conn != c
  {
    var q := Next(p, a);
    assert SenderOf(q, c).socket.Awaiting?;
    forall t | At(q, t, Sent) ensures q.threads[t].conn != c {
      if !(a.SendReturns? && a.t == t) {
        assert At(p, t, Sent);
      }
    }
  }

  lemma LostReplyWedges(p: Pool, t: Tid)
    requires Inv(p) && Enabled(p, RecvRaises(t))
    ensures Wedged(Next(p, RecvRaises(t)), p.threads[t].conn)
  {
    var q := Next(p, RecvRaises(t));
    assert HoldsLock(p.threads[t].stage) && OwnReply(p, t, p.threads[t]);
    forall u | At(q, u, Sent) ensures q.threads[u].conn != p.threads[t].conn {
      assert u != t && u in p.threads && HoldsLock(p.threads[u].stage);
    }
  }

  /** Whether an action puts a message of connection `c` on the wire or takes a reply off it. */
  ghost predicate Reaches(p: Pool, a: Action, c: Conn) {
    (a.SendReturns? || a.RecvReturns?) && a.t in p.threads && p.threads[a.t].conn == c
  }

  /** A receive that raises disables its sender for good: from then on, in every
      continuation, no send on that connection reaches the wire and no reply comes back. */
  lemma {:induction false} LostReplyDisablesSender(ps: seq<Pool>, acts: seq<Action>, i: nat, j: nat)
    requires IsRun(ps, acts) && i < j < |acts|
    requires acts[i].RecvRaises?
    ensures acts[i].t in ps[i].threads
    ensures !Reaches(ps[j], acts[j], ps[i].threads[acts[i].t].conn)
  {
    RunStep(ps, acts, i);
    RunKeepsInv(ps, acts);
    LostReplyWedges(ps[i], acts[i].t);
    var c := ps[i].threads[acts[i].t].conn;
    StaysWedged(ps, acts, i + 1, j, c);
    RunStep(ps, acts, j);
    WedgedStep(ps[j], acts[j], c);
  }

  lemma RunStep(ps: seq<Pool>, acts: seq<Action>, k: nat)
    requires IsRun(ps, acts) && k < |acts|
    ensures Steps(ps[k], acts[k], ps[k + 1])
  {
  }

  lemma WedgedSteps(p: Pool, a: Action, q: Pool, c: Conn)
    requires Wedged(p, c) && Steps(p, a, q)
    ensures Wedged(q, c)
  {
    WedgedStep(p, a, c);
  }

  lemma {:induction false} StaysWedged(ps: seq<Pool>, acts: seq<Action>, i: nat, j: nat, c: Conn)
    requires |ps| == |acts| + 1 && forall k :: i <= k < |acts| ==> Steps(ps[k], acts[k], ps[k + 1])
    requires i <= j <= |acts| && Wedged(ps[i], c)
    ensures Wedged(ps[j], c)
    decreases j
  {
    if i < j {
      StaysWedged(ps, acts, i, j - 1, c);
      WedgedSteps(ps[j - 1], acts[j - 1], ps[j], c);
    }
  }
}
