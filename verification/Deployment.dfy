/** The server's commands on the agents' real drivers, with retries: what a VM answers is
    what the cluster model says it holds. */
module Deployment {
  import opened Records
  import opened Batches
  import opened Drivers
  import opened Neutron
  import opened PortInfo
  import opened Actions
  import opened ServerBatches
  import opened Cluster
  import opened Completeness
  import opened Soundness
  import opened Agreement
  import T = TinyDb
  import B = BsdDb

  /** The commands one VM executes in a step. */
  function Received(c: Cluster, e: Event, m: Vm): seq<Command>
    requires WellFormed(c.n)
  {
    match e
    case ProcessPort(id, nets, answers) =>
      (PortByIdFinds(c.n.ports, id);
       match PortById(c.n.ports, id)
       case None => []
       case Some(p) => if IsProvider(p) then PortCommands(c.n, p, nets, answers, m) else [])
    case ProcessGroup(id) =>
      (match GroupById(c.n.sgs, id)
       case None => []
       case Some(g) => If(m in VmsOf(GroupPorts(c.n, g.id), []), Update([SecgroupEntry(g)])))
    case ProcessAttach(r) =>
      if r in c.n.routers && Serves(c.n.routers[r])
      then If(m in VmsOf(AttachedPorts(c.n, c.n.routers[r]), []), Update(ToDb(AttachInfo(c.n, c.n.routers[r]))))
      else []
    case ProcessDetach(r, net) =>
      if r in c.n.routers && Serves(c.n.routers[r])
      then DetachCommands(c.n, c.n.routers[r], net, m) else []
    case _ => []
  }

  function If(sent: bool, c: Command): seq<Command> { if sent then [c] else [] }

  function PortCommands(n: Neutron, p: Port, nets: seq<Id>, answers: bool, m: Vm): seq<Command>
    requires WellFormed(n) && p in n.ports && IsProvider(p)
  {
    If(m in PortNeighbours(n, p, nets), Update(Announcement(PortUpdateInfo(n, p, nets))))
    + If(answers && m == p.mgntIp.value, Apply(ToDb(PortUpdateInfo(n, p, nets))))
  }

  function DetachCommands(n: Neutron, r: Router, net: Id, m: Vm): seq<Command>
    requires WellFormed(n)
  {
    var connected := ConnectedPorts(n, r, net);
    If(connected != [] && m in VmsOf(connected, []), Delete(Locs(ToDb(DetachedInfo(n, net)))))
    + If(m in VmsOf(NetworkPorts(n, net), []), Delete(Locs(ToDb(ConnectedInfo(n, r, net)))))
  }

  lemma StoreRunOne(s: Store, sent: bool, c: Command)
    ensures StoreRun(s, If(sent, c)) == if sent then StoreStep(s, c) else s
  {
    if sent {
      assert [c][..0] == [];
      assert StoreRun(s, []) == s;
    }
  }

  lemma StoreRunTwo(s: Store, a: bool, c: Command, b: bool, d: Command)
    ensures StoreRun(s, If(a, c) + If(b, d)) == StoreRun(StoreRun(s, If(a, c)), If(b, d))
  {
    StoreRunAppend(s, If(a, c), If(b, d));
  }

  /** A step changes a VM's store by exactly the commands the VM receives. */
  lemma ReceivedIsTheStep(c: Cluster, e: Event, d: Cluster, m: Vm)
    requires Sane(c.n) && Step(c, e, d)
    ensures StoreOf(d.stores, m) == StoreRun(StoreOf(c.stores, m), Received(c, e, m))
  {
    var s := StoreOf(c.stores, m);
    match e
    case ProcessPort(id, nets, answers) =>
      PortByIdFinds(c.n.ports, id);
      if PortById(c.n.ports, id).Some? && IsProvider(PortById(c.n.ports, id).value) {
        PortCommandsStep(c.n, PortById(c.n.ports, id).value, nets, answers, c.stores, m);
      }
    case ProcessGroup(id) =>
      if GroupById(c.n.sgs, id).Some? {
        var g := GroupById(c.n.sgs, id).value;
        BroadcastAt(c.stores, Update([SecgroupEntry(g)]), VmsOf(GroupPorts(c.n, g.id), []), m);
        StoreRunOne(s, m in VmsOf(GroupPorts(c.n, g.id), []), Update([SecgroupEntry(g)]));
      }
    case ProcessAttach(r) =>
      var router := c.n.routers[r];
      if Serves(router) {
        var b, vms := ToDb(AttachInfo(c.n, router)), VmsOf(AttachedPorts(c.n, router), []);
        BroadcastAt(c.stores, Update(b), vms, m);
        StoreRunOne(s, m in vms, Update(b));
      }
    case ProcessDetach(r, net) =>
      if Serves(c.n.routers[r]) {
        DetachCommandsStep(c.n, c.n.routers[r], net, c.stores, m);
      }
    case _ =>
  }

  lemma PortCommandsStep(n: Neutron, p: Port, nets: seq<Id>, answers: bool, stores: Stores, m: Vm)
    requires WellFormed(n) && p in n.ports && IsProvider(p)
    ensures StoreOf(PortUpdated(n, p, nets, answers, stores), m) ==
            StoreRun(StoreOf(stores, m), PortCommands(n, p, nets, answers, m))
  {
    var info := PortUpdateInfo(n, p, nets);
    var tell, give := Update(Announcement(info)), Apply(ToDb(info));
    var told := Broadcast(stores, tell, PortNeighbours(n, p, nets));
    BroadcastAt(stores, tell, PortNeighbours(n, p, nets), m);
    BroadcastAt(told, give, {p.mgntIp.value}, m);
    StoreRunTwo(StoreOf(stores, m), m in PortNeighbours(n, p, nets), tell, answers && m == p.mgntIp.value, give);
    StoreRunOne(StoreOf(stores, m), m in PortNeighbours(n, p, nets), tell);
    StoreRunOne(StoreOf(told, m), answers && m == p.mgntIp.value, give);
  }

  lemma DetachCommandsStep(n: Neutron, r: Router, net: Id, stores: Stores, m: Vm)
    requires WellFormed(n) && Serves(r)
    ensures StoreOf(Detached(n, r, net, stores), m) == StoreRun(StoreOf(stores, m), DetachCommands(n, r, net, m))
  {
    var connected := ConnectedPorts(n, r, net);
    var del1, del2 := Delete(Locs(ToDb(DetachedInfo(n, net)))), Delete(Locs(ToDb(ConnectedInfo(n, r, net))));
    var first := if connected == [] then stores else Broadcast(stores, del1, VmsOf(connected, []));
    BroadcastAt(stores, del1, VmsOf(connected, []), m);
    BroadcastAt(first, del2, VmsOf(NetworkPorts(n, net), []), m);
    StoreRunTwo(StoreOf(stores, m), connected != [] && m in VmsOf(connected, []), del1,
                m in VmsOf(NetworkPorts(n, net), []), del2);
    StoreRunOne(StoreOf(stores, m), connected != [] && m in VmsOf(connected, []), del1);
    StoreRunOne(StoreOf(first, m), m in VmsOf(NetworkPorts(n, net), []), del2);
  }

  ghost predicate AllFit(cs: seq<Command>) {
    forall x :: x in cs ==> TinyFits(x)
  }

  lemma ConsistentFits(b: Batch)
    requires Consistent(b)
    ensures TinyFits(Apply(b))
  {
    forall l ensures FirstValue(b, l) == LastValue(b, l) {
      ConsistentFirstIsLast(b, l);
    }
  }

  lemma IfFits(sent: bool, c: Command)
    requires TinyFits(c)
    ensures AllFit(If(sent, c))
  {
  }

  lemma TwoFit(cs: seq<Command>, ds: seq<Command>)
    requires AllFit(cs) && AllFit(ds)
    ensures AllFit(cs + ds)
  {
  }

  lemma PortCommandsFit(n: Neutron, p: Port, nets: seq<Id>, answers: bool, m: Vm)
    requires Sane(n) && p in n.ports && IsProvider(p)
    ensures AllFit(PortCommands(n, p, nets, answers, m))
  {
    var info := PortUpdateInfo(n, p, nets);
    PortViewIsCurrent(n, p, nets);
    CurrentIsConsistent(n, ToDb(info));
    ConsistentFits(ToDb(info));
    IfFits(m in PortNeighbours(n, p, nets), Update(Announcement(info)));
    IfFits(answers && m == p.mgntIp.value, Apply(ToDb(info)));
    TwoFit(If(m in PortNeighbours(n, p, nets), Update(Announcement(info))),
           If(answers && m == p.mgntIp.value, Apply(ToDb(info))));
  }

  lemma DetachCommandsFit(n: Neutron, r: Router, net: Id, m: Vm)
    requires WellFormed(n)
    ensures AllFit(DetachCommands(n, r, net, m))
  {
    var connected := ConnectedPorts(n, r, net);
    var del1, del2 := Delete(Locs(ToDb(DetachedInfo(n, net)))), Delete(Locs(ToDb(ConnectedInfo(n, r, net))));
    var a, b := If(connected != [] && m in VmsOf(connected, []), del1), If(m in VmsOf(NetworkPorts(n, net), []), del2);
    IfFits(connected != [] && m in VmsOf(connected, []), del1);
    IfFits(m in VmsOf(NetworkPorts(n, net), []), del2);
    TwoFit(a, b);
  }

  /** Every apply the server sends reads the same from both ends. */
  lemma ReceivedFits(c: Cluster, e: Event, m: Vm)
    requires Sane(c.n)
    ensures AllFit(Received(c, e, m))
  {
    match e
    case ProcessPort(id, nets, answers) =>
      PortByIdFinds(c.n.ports, id);
      if PortById(c.n.ports, id).Some? && IsProvider(PortById(c.n.ports, id).value) {
        PortCommandsFit(c.n, PortById(c.n.ports, id).value, nets, answers, m);
      }
    case ProcessDetach(r, net) =>
      if r in c.n.routers {
        DetachCommandsFit(c.n, c.n.routers[r], net, m);
      }
    case _ =>
  }

  // ----- runs

  /** Everything a VM has received so far. */
  function Log(cs: seq<Cluster>, es: seq<Event>, m: Vm): seq<Command>
    requires |cs| >= |es| && forall i :: 0 <= i < |es| ==> WellFormed(cs[i].n)
  {
    if es == [] then []
    else Log(cs, es[..|es| - 1], m) + Received(cs[|es| - 1], es[|es| - 1], m)
  }

  lemma {:induction false} StoreRunAppend(s: Store, xs: seq<Command>, ys: seq<Command>)
    ensures StoreRun(s, xs + ys) == StoreRun(StoreRun(s, xs), ys)
  {
    if ys == [] {
      assert xs + ys == xs;
    } else {
      assert (xs + ys)[..|xs + ys| - 1] == xs + ys[..|ys| - 1];
      StoreRunAppend(s, xs, ys[..|ys| - 1]);
    }
  }

  lemma {:induction false} LogPrefix(cs: seq<Cluster>, ds: seq<Cluster>, es: seq<Event>, m: Vm)
    requires |cs| >= |es| && |ds| >= |es| && forall i :: 0 <= i < |es| ==> cs[i] == ds[i] && WellFormed(cs[i].n)
    ensures Log(cs, es, m) == Log(ds, es, m)
  {
    if es == [] {
    } else {
      LogPrefix(cs, ds, es[..|es| - 1], m);
    }
  }

  lemma {:induction false} LogIsTheStore(cs: seq<Cluster>, es: seq<Event>, m: Vm)
    requires IsRun(cs, es)
    ensures StoreOf(cs[|es|].stores, m) == StoreRun(map[], Log(cs, es, m))
    ensures forall x :: x in Log(cs, es, m) ==> TinyFits(x)
  {
    if es == [] {
    } else {
      var k := |es| - 1;
      assert IsRun(cs[..|es|], es[..k]);
      LogIsTheStore(cs[..|es|], es[..k], m);
      LogPrefix(cs[..|es|], cs, es[..k], m);
      assert Step(cs[k], es[k], cs[k + 1]) && Sane(cs[k].n);
      ReceivedIsTheStep(cs[k], es[k], cs[k + 1], m);
      ReceivedFits(cs[k], es[k], m);
      StoreRunAppend(map[], Log(cs, es[..k], m), Received(cs[k], es[k], m));
    }
  }

  // ----- every processed port's VM has been given a whole view

  ghost predicate HasApply(cs: seq<Command>) {
    exists x :: x in cs && x.Apply?
  }

  lemma ChangeCleansNothing(c: Cluster, e: Event, d: Cluster, p: Port)
    requires PortsTyped(d.n) && UniqueIds(d.n.ports) && Step(c, e, d) && !IsProcess(e) && Clean(d, p)
    ensures Clean(c, p)
  {
    assert IsCompute(p) && !IsIface(p);
  }

  lemma ProcessingCleans(c: Cluster, e: Event, d: Cluster)
    requires Step(c, e, d) && IsProcess(e)
    ensures if e.ProcessPort? then c.dirty - {e.id} <= d.dirty else d.dirty == c.dirty
  {
    if e.ProcessPort? {
      PortByIdFinds(c.n.ports, e.id);
    }
  }

  lemma CleanBefore(c: Cluster, e: Event, d: Cluster, p: Port)
    requires Sane(d.n) && Step(c, e, d) && Clean(d, p) && !Clean(c, p)
    ensures p in c.n.ports && p.id in c.dirty && e.ProcessPort? && e.id == p.id
  {
    if IsProcess(e) {
      ProcessFrame(c, e, d);
      ProcessingCleans(c, e, d);
    } else {
      ChangeCleansNothing(c, e, d, p);
    }
  }

  lemma OnlyAnsweredIsClean(c: Cluster, id: Id, nets: seq<Id>, answers: bool, d: Cluster, p: Port)
    requires WellFormed(c.n) && Step(c, ProcessPort(id, nets, answers), d) && p in c.n.ports && IsProvider(p)
    requires p.id == id && p.id in c.dirty && p.id !in d.dirty
    ensures answers && PortById(c.n.ports, id) == Some(p)
  {
    PortByIdFinds(c.n.ports, id);
  }

  lemma FirstCleanStep(c: Cluster, e: Event, d: Cluster, p: Port)
    requires Sane(c.n) && Sane(d.n) && Step(c, e, d) && Clean(d, p) && !Clean(c, p)
    ensures HasApply(Received(c, e, p.mgntIp.value))
  {
    CleanBefore(c, e, d, p);
    OnlyAnsweredIsClean(c, e.id, e.nets, e.answers, d, p);
    PortCommandsApply(c.n, p, e.nets);
  }

  lemma PortCommandsApply(n: Neutron, p: Port, nets: seq<Id>)
    requires WellFormed(n) && p in n.ports && IsProvider(p)
    ensures HasApply(PortCommands(n, p, nets, true, p.mgntIp.value))
  {
    assert Apply(ToDb(PortUpdateInfo(n, p, nets))) in PortCommands(n, p, nets, true, p.mgntIp.value);
  }

  lemma {:induction false} CleanHasApply(cs: seq<Cluster>, es: seq<Event>, p: Port)
    requires IsRun(cs, es) && Clean(cs[|es|], p)
    ensures HasApply(Log(cs, es, p.mgntIp.value))
  {
    if es == [] {
    } else {
      var k := |es| - 1;
      assert IsRun(cs[..|es|], es[..k]);
      LogPrefix(cs[..|es|], cs, es[..k], p.mgntIp.value);
      assert Step(cs[k], es[k], cs[k + 1]) && Sane(cs[k].n) && Sane(cs[k + 1].n);
      if Clean(cs[k], p) {
        CleanHasApply(cs[..|es|], es[..k], p);
      } else {
        FirstCleanStep(cs[k], es[k], cs[k + 1], p);
      }
    }
  }

  // ----- the drivers on whole runs

  lemma ApplyForgets(db: T.Tables, s: B.Bsd, m: Store, b: Batch)
    requires s.Valid()
    ensures TinyFits(Apply(b)) ==> TinyShows(TinyStep(db, Apply(b)), StoreStep(m, Apply(b)))
    ensures BsdShows(BsdStep(s, Apply(b)), StoreStep(m, Apply(b)))
  {
    TinyRefines(map[], map[], Apply(b));
    forall l ensures B.Get(BsdStep(s, Apply(b)), l) == Lookup(StoreStep(m, Apply(b)), l) {
      B.GetAfterApply(s, b, l);
      MapOfIsLast(b, l);
    }
  }

  /** An apply makes what TinyDB held before irrelevant. */
  lemma {:induction false} TinyRunShows(db: T.Tables, m: Store, cs: seq<Command>)
    requires AllFit(cs) && HasApply(cs)
    ensures TinyShows(TinyRun(db, cs), StoreRun(m, cs))
  {
    var init, last := cs[..|cs| - 1], cs[|cs| - 1];
    assert cs == init + [last];
    if last.Apply? {
      ApplyForgets(TinyRun(db, init), B.Bsd(map[], map[]), StoreRun(m, init), last.batch);
    } else {
      TinyRunShows(db, m, init);
      TinyRefines(TinyRun(db, init), StoreRun(m, init), last);
    }
  }

  /** No delete after the last apply stops early on a key that was still there. */
  ghost predicate DeletesRunThrough(s: B.Bsd, cs: seq<Command>) {
    forall i :: 0 <= i < |cs| && !HasApply(cs[i..]) ==> BsdFits(BsdRun(s, cs[..i]), cs[i])
  }

  lemma DeletesBeforeRunThrough(s: B.Bsd, cs: seq<Command>)
    requires cs != [] && DeletesRunThrough(s, cs) && !cs[|cs| - 1].Apply?
    ensures DeletesRunThrough(s, cs[..|cs| - 1]) && BsdFits(BsdRun(s, cs[..|cs| - 1]), cs[|cs| - 1])
  {
    var init, last := cs[..|cs| - 1], cs[|cs| - 1];
    forall i | 0 <= i < |init| && !HasApply(init[i..]) ensures BsdFits(BsdRun(s, init[..i]), init[i]) {
      assert cs[i..] == init[i..] + [last];
      assert init[..i] == cs[..i] && init[i] == cs[i];
    }
    assert cs[|cs| - 1..] == [last];
  }

  lemma {:induction false} BsdRunShows(s: B.Bsd, m: Store, cs: seq<Command>)
    requires s.Valid() && HasApply(cs) && DeletesRunThrough(s, cs)
    ensures BsdShows(BsdRun(s, cs), StoreRun(m, cs))
  {
    var init, last := cs[..|cs| - 1], cs[|cs| - 1];
    assert cs == init + [last];
    BsdRunKeepsValid(s, init);
    if last.Apply? {
      ApplyForgets(map[], BsdRun(s, init), StoreRun(m, init), last.batch);
    } else {
      DeletesBeforeRunThrough(s, cs);
      BsdRunShows(s, m, init);
      BsdRefines(BsdRun(s, init), StoreRun(m, init), last);
    }
  }

  /** The driver answers for whatever the map holds; it may hold more. */
  ghost predicate BsdHolds(s: B.Bsd, m: Store) {
    forall l :: l in m ==> B.Get(s, l) == Some(m[l])
  }

  /** A delete that is cut short removes less than it should, never more. */
  lemma BsdKeepsHolding(s: B.Bsd, m: Store, c: Command)
    requires s.Valid() && BsdHolds(s, m)
    ensures BsdHolds(BsdStep(s, c), StoreStep(m, c))
  {
    forall l | l in StoreStep(m, c) ensures B.Get(BsdStep(s, c), l) == Some(StoreStep(m, c)[l]) {
      match c
      case Apply(b) => ApplyForgets(map[], s, m, b);
      case Update(b) =>
        B.GetAfterUpdate(s, b, l);
        LookupOfUpdate(m, b, l);
      case Delete(ls) => B.GetAfterDelete(s, ls, l);
    }
  }

  lemma {:induction false} BsdRunHolds(s: B.Bsd, cs: seq<Command>)
    requires s.Valid()
    ensures BsdHolds(BsdRun(s, cs), StoreRun(map[], cs))
  {
    if cs == [] {
    } else {
      var init := cs[..|cs| - 1];
      BsdRunHolds(s, init);
      BsdRunKeepsValid(s, init);
      BsdKeepsHolding(BsdRun(s, init), StoreRun(map[], init), cs[|cs| - 1]);
    }
  }

  // ----- end to end

  /** How often each command that a VM has received was executed in a row. */
  ghost predicate AtLeastOnce(times: seq<nat>, log: seq<Command>) {
    |times| == |log| && forall i :: 0 <= i < |times| ==> times[i] >= 1
  }

  /** On TinyDB: after any run, with every command executed once or more in a row and whatever
      the tables held before, the VM of a processed port answers every `get_key` as its store
      in the cluster does. */
  lemma TinyAgentIsTheStore(cs: seq<Cluster>, es: seq<Event>, p: Port, db: T.Tables, times: seq<nat>)
    requires IsRun(cs, es) && Clean(cs[|es|], p) && AtLeastOnce(times, Log(cs, es, p.mgntIp.value))
    ensures TinyShows(TinyRun(db, Repeated(Log(cs, es, p.mgntIp.value), times)), VmStore(cs[|es|], p))
  {
    var log := Log(cs, es, p.mgntIp.value);
    LogIsTheStore(cs, es, p.mgntIp.value);
    CleanHasApply(cs, es, p);
    TinyRunShows(db, map[], log);
    TinyRetry(db, log, times);
  }

  /** So does a BSD agent, if no delete after the last apply was cut short. */
  lemma BsdAgentIsTheStore(cs: seq<Cluster>, es: seq<Event>, p: Port, s: B.Bsd, times: seq<nat>)
    requires IsRun(cs, es) && Clean(cs[|es|], p) && AtLeastOnce(times, Log(cs, es, p.mgntIp.value))
    requires s.Valid() && DeletesRunThrough(s, Log(cs, es, p.mgntIp.value))
    ensures BsdShows(BsdRun(s, Repeated(Log(cs, es, p.mgntIp.value), times)), VmStore(cs[|es|], p))
  {
    var log := Log(cs, es, p.mgntIp.value);
    LogIsTheStore(cs, es, p.mgntIp.value);
    CleanHasApply(cs, es, p);
    BsdRunShows(s, map[], log);
    BsdRetry(s, log, times);
  }

  /** `get_key` on a TinyDB agent returns the current record of every port that is due to its
      VM, and the current chassis of that port's host. */
  lemma TinyAgentConverges(cs: seq<Cluster>, es: seq<Event>, p: Port, q: Port, db: T.Tables, times: seq<nat>)
    requires IsRun(cs, es) && Due(cs[|es|], p, q) && AtLeastOnce(times, Log(cs, es, p.mgntIp.value))
    ensures var db' := TinyRun(db, Repeated(Log(cs, es, p.mgntIp.value), times));
            && T.Get(db', Loc(LportTable, q.id)) == Some(LportValue(LportOf(q)))
            && T.Get(db', Loc(ChassisTable, q.host)) == Some(ChassisValue(ChassisOfPort(q)))
  {
    Convergence(cs, es);
    TinyAgentIsTheStore(cs, es, p, db, times);
    assert Knows(VmStore(cs[|es|], p), q);
  }

  /** The same on BSD, whatever its directory held, deletes that are cut short included. */
  lemma BsdAgentConverges(cs: seq<Cluster>, es: seq<Event>, p: Port, q: Port, s: B.Bsd, times: seq<nat>)
    requires IsRun(cs, es) && Due(cs[|es|], p, q) && AtLeastOnce(times, Log(cs, es, p.mgntIp.value)) && s.Valid()
    ensures var s' := BsdRun(s, Repeated(Log(cs, es, p.mgntIp.value), times));
            && B.Get(s', Loc(LportTable, q.id)) == Some(LportValue(LportOf(q)))
            && B.Get(s', Loc(ChassisTable, q.host)) == Some(ChassisValue(ChassisOfPort(q)))
  {
    var log := Log(cs, es, p.mgntIp.value);
    Convergence(cs, es);
    LogIsTheStore(cs, es, p.mgntIp.value);
    BsdRunHolds(s, log);
    BsdRetry(s, log, times);
    assert Knows(VmStore(cs[|es|], p), q);
  }

  /** What a driver's answers say about ports, when no log is pending after an orderly run:
      nothing but ports that are reached, deleted ones aside, and all of those in service. */
  ghost predicate PortsAgree(c: Cluster, p: Port, holds: Id -> bool) {
    && (forall k :: holds(k) && k !in c.gone ==> ShouldHold(c.n, p, k))
    && (InService(c.n, p.network) ==>
          forall q :: q in c.n.ports && IsProvider(q) ==> (holds(q.id) <==> Linked(c.n, p.network, q.network)))
  }

  lemma QuietAnswers(cs: seq<Cluster>, es: seq<Event>, p: Port, holds: Id -> bool)
    requires IsRun(cs, es) && OrderlyRun(cs, es) && NoLogPending(cs[|es|])
    requires p in cs[|es|].n.ports && IsProvider(p) && forall k :: holds(k) <==> Holds(VmStore(cs[|es|], p), k)
    ensures PortsAgree(cs[|es|], p, holds)
  {
    QuietAgreement(cs, es, p);
  }

  lemma TinyAgentAgrees(cs: seq<Cluster>, es: seq<Event>, p: Port, db: T.Tables, times: seq<nat>)
    requires IsRun(cs, es) && OrderlyRun(cs, es) && NoLogPending(cs[|es|])
    requires p in cs[|es|].n.ports && IsProvider(p) && AtLeastOnce(times, Log(cs, es, p.mgntIp.value))
    ensures var db' := TinyRun(db, Repeated(Log(cs, es, p.mgntIp.value), times));
            PortsAgree(cs[|es|], p, (k: Id) => T.Get(db', Loc(LportTable, k)).Some?)
  {
    TinyAgentIsTheStore(cs, es, p, db, times);
    var db' := TinyRun(db, Repeated(Log(cs, es, p.mgntIp.value), times));
    QuietAnswers(cs, es, p, (k: Id) => T.Get(db', Loc(LportTable, k)).Some?);
  }

  lemma BsdAgentAgrees(cs: seq<Cluster>, es: seq<Event>, p: Port, s: B.Bsd, times: seq<nat>)
    requires IsRun(cs, es) && OrderlyRun(cs, es) && NoLogPending(cs[|es|])
    requires p in cs[|es|].n.ports && IsProvider(p) && AtLeastOnce(times, Log(cs, es, p.mgntIp.value))
    requires s.Valid() && DeletesRunThrough(s, Log(cs, es, p.mgntIp.value))
    ensures var s' := BsdRun(s, Repeated(Log(cs, es, p.mgntIp.value), times));
            PortsAgree(cs[|es|], p, (k: Id) => B.Get(s', Loc(LportTable, k)).Some?)
  {
    BsdAgentIsTheStore(cs, es, p, s, times);
    var s' := BsdRun(s, Repeated(Log(cs, es, p.mgntIp.value), times));
    QuietAnswers(cs, es, p, (k: Id) => B.Get(s', Loc(LportTable, k)).Some?);
  }
}
