/** Why an interface must not be removed while its network is damaged: a run that is orderly but
    for one removal, with every log processed, in which a VM does not hold a port of its own
    network. Two VM ports share a network; while a removal of the network's interface is
    pending the interface comes back, and one of the VMs gets a second port behind the router.
    The late delete therefore reaches that VM. Its second port goes, the interface is removed
    again, and the push that would repair the damage does not reach the network any more. */
module Stranded {
  import opened Records
  import D = Drivers
  import opened Neutron
  import opened PortInfo
  import opened Actions
  import opened Cluster
  import opened Completeness
  import opened Soundness
  import opened Agreement
  import opened Limits
  import opened Example

  /** `p`, `q` and the interface `y` are on one network, `z` and the interface `x` on another;
      `p` and `z` belong to one VM. */
  datatype Scene = Scene(p: Port, q: Port, x: Port, y: Port, z: Port)

  ghost predicate IsVmPort(p: Port) { IsProvider(p) && IsCompute(p) && !IsIface(p) }

  ghost predicate IsRouterPort(p: Port) { IsIface(p) && !IsCompute(p) && p.mgntIp.None? }

  ghost predicate Staged(k: Scene) {
    && IsVmPort(k.p) && IsVmPort(k.q) && IsVmPort(k.z) && IsRouterPort(k.x) && IsRouterPort(k.y)
    && k.p.id != k.q.id && k.p.id != k.x.id && k.p.id != k.y.id && k.p.id != k.z.id && k.q.id != k.x.id
    && k.q.id != k.y.id && k.q.id != k.z.id && k.x.id != k.y.id && k.x.id != k.z.id && k.y.id != k.z.id
    && k.p.network == k.q.network == k.y.network && k.x.network == k.z.network && k.p.network != k.x.network
    && k.x.deviceId == k.y.deviceId
    && k.p.deviceId != k.x.deviceId && k.q.deviceId != k.x.deviceId && k.z.deviceId != k.x.deviceId
    && k.p.mgntIp == k.z.mgntIp && k.p.host == k.z.host && k.p.providerIp == k.z.providerIp
    && k.p.mgntIp != k.q.mgntIp && k.p.host != k.q.host
  }

  function TheRouter(k: Scene): Router { Router(k.x.deviceId, true, true, "") }

  /** The first `count` of the ports `p`, `q`, `x`, `y`, `z`. */
  function With(k: Scene, count: nat): Neutron
    requires 3 <= count <= 5
  {
    Neutron([k.p, k.q, k.x, k.y, k.z][..count], map[k.p.network := "", k.x.network := ""],
            map[k.x.deviceId := TheRouter(k)], [])
  }

  lemma Ports(k: Scene, count: nat)
    requires 3 <= count <= 5
    ensures forall p :: p in With(k, count).ports <==>
              p == k.p || p == k.q || p == k.x || (count >= 4 && p == k.y) || (count >= 5 && p == k.z)
  {
    var all := [k.p, k.q, k.x, k.y, k.z];
    var ports := With(k, count).ports;
    assert ports[0] == k.p && ports[1] == k.q && ports[2] == k.x;
    assert count >= 4 ==> ports[3] == k.y;
    assert count >= 5 ==> ports[4] == k.z;
  }

  lemma WithIsWellFormed(k: Scene, count: nat)
    requires Staged(k) && 3 <= count <= 5
    ensures WellFormed(With(k, count)) && OneRouterPerNetwork(With(k, count))
  {
    Ports(k, count);
    var n := With(k, count);
    var all := [k.p, k.q, k.x, k.y, k.z];
    assert NoDup(all);
    assert forall i :: 0 <= i < count ==> n.ports[i] == all[i];
    assert n.networks.Keys == {k.p.network, k.x.network} && n.routers.Keys == {k.x.deviceId};
  }

  lemma Joint(k: Scene, count: nat)
    requires Staged(k) && 4 <= count <= 5
    ensures Linked(With(k, count), k.p.network, k.x.network) && Linked(With(k, count), k.x.network, k.p.network)
  {
    Ports(k, count);
    assert Joins(With(k, count), k.y, k.x, k.p.network, k.x.network);
    assert Joins(With(k, count), k.x, k.y, k.x.network, k.p.network);
  }

  lemma SameVmOrHost(k: Scene, count: nat, p: Port, q: Port)
    requires Staged(k) && 3 <= count <= 5 && p in With(k, count).ports && q in With(k, count).ports
    ensures IsProvider(p) ==> IsCompute(p)
    ensures !(IsIface(p) && IsCompute(p))
    ensures IsProvider(p) && IsProvider(q) && p.host == q.host ==> p.providerIp == q.providerIp
    ensures (p.mgntIp.Some? && p.mgntIp == q.mgntIp) || (IsProvider(p) && IsProvider(q) && p.host == q.host) ==>
              p == q || (count >= 5 && p == k.p && q == k.z) || (count >= 5 && p == k.z && q == k.p)
  {
    Ports(k, count);
  }

  lemma WithIsSane(k: Scene, count: nat)
    requires Staged(k) && 3 <= count <= 5
    ensures Sane(With(k, count)) && HostsTogether(With(k, count))
  {
    WithIsWellFormed(k, count);
    var n := With(k, count);
    if count >= 5 {
      Joint(k, count);
    }
    forall p, q | p in n.ports && q in n.ports
      ensures IsProvider(p) ==> IsCompute(p)
      ensures !(IsIface(p) && IsCompute(p))
      ensures IsProvider(p) && IsProvider(q) && p.host == q.host ==> p.providerIp == q.providerIp
      ensures (p.mgntIp.Some? && p.mgntIp == q.mgntIp) || (IsProvider(p) && IsProvider(q) && p.host == q.host) ==>
                Linked(n, p.network, q.network)
    {
      SameVmOrHost(k, count, p, q);
    }
  }

  lemma DomainJoint(k: Scene, count: nat, p: Port)
    requires Staged(k) && 4 <= count <= 5 && (p == k.p || p == k.q || p == k.z)
    ensures Interfaces(With(k, count))
    ensures Enumerates([k.p.network, k.x.network], Domain(With(k, count), p.network))
  {
    var n, nets := With(k, count), [k.p.network, k.x.network];
    WithIsWellFormed(k, count);
    Joint(k, count);
    forall a ensures a in Domain(n, p.network) <==> a == k.p.network || a == k.x.network {
      DomainIsLinked(n, p.network, a);
      OnlyTwoNetworks(k, count, p.network, a);
    }
    assert nets[0] == k.p.network && nets[1] == k.x.network;
  }

  lemma OnlyTwoNetworks(k: Scene, count: nat, a: Id, b: Id)
    requires 3 <= count <= 5 && Staged(k)
    ensures Linked(With(k, count), a, b) ==> b == a || b == k.p.network || b == k.x.network
  {
    Ports(k, count);
  }

  // ----- the run, piece by piece

  /** A run that has reached a state with these ports and these pending logs. */
  ghost predicate At(k: Scene, cs: seq<Cluster>, es: seq<Event>, count: nat, dirty: set<Id>, attaching: set<Id>,
                     detaching: set<Pair>)
    requires 3 <= count <= 5
  {
    && IsRun(cs, es)
    && cs[|es|].n == With(k, count) && cs[|es|].dirty == dirty && cs[|es|].gone == {}
    && cs[|es|].attaching == attaching && cs[|es|].detaching == detaching
  }

  function Removal(k: Scene): Pair { Pair(k.x.deviceId, k.p.network) }

  lemma Processed(k: Scene, cs: seq<Cluster>, es: seq<Event>, count: nat, p: Port, dirty: set<Id>,
                  attaching: set<Id>, detaching: set<Pair>) returns (cs': seq<Cluster>, es': seq<Event>)
    requires Staged(k) && 4 <= count <= 5 && (p == k.p || p == k.q || (count == 5 && p == k.z))
    requires At(k, cs, es, count, dirty, attaching, detaching) && OrderlyRun(cs, es)
    ensures At(k, cs', es', count, dirty - {p.id}, attaching, detaching) && OrderlyRun(cs', es')
    ensures cs[|es|].struck == {} ==> cs'[|es'|].struck == {}
  {
    var c, nets := cs[|es|], [k.p.network, k.x.network];
    WithIsSane(k, count);
    Ports(k, count);
    DomainJoint(k, count, p);
    PortStep(c, p, nets);
    cs', es' := Then(cs, es, ProcessPort(p.id, nets, true), AfterPort(c, p, nets));
  }

  lemma Ignored(k: Scene, cs: seq<Cluster>, es: seq<Event>, p: Port, dirty: set<Id>)
    returns (cs': seq<Cluster>, es': seq<Event>)
    requires Staged(k) && (p == k.x || p == k.y) && At(k, cs, es, 4, dirty, {}, {}) && OrderlyRun(cs, es)
    ensures At(k, cs', es', 4, dirty - {p.id}, {}, {}) && OrderlyRun(cs', es')
    ensures cs'[|es'|].struck == cs[|es|].struck
  {
    WithIsSane(k, 4);
    Ports(k, 4);
    IgnoredStep(cs[|es|], p);
    cs', es' := Then(cs, es, ProcessPort(p.id, [], true), cs[|es|].(dirty := cs[|es|].dirty - {p.id}));
  }

  lemma Began(k: Scene) returns (cs: seq<Cluster>, es: seq<Event>)
    requires Staged(k)
    ensures At(k, cs, es, 4, {k.p.id, k.q.id, k.x.id, k.y.id}, {}, {}) && OrderlyRun(cs, es) && cs[|es|].struck == {}
  {
    WithIsSane(k, 4);
    Ports(k, 4);
    cs, es := [Initial(With(k, 4))], [];
    forall id ensures id in cs[0].dirty <==> id in {k.p.id, k.q.id, k.x.id, k.y.id} {
    }
  }

  lemma AllProcessed(k: Scene) returns (cs: seq<Cluster>, es: seq<Event>)
    requires Staged(k)
    ensures At(k, cs, es, 4, {}, {}, {}) && OrderlyRun(cs, es) && cs[|es|].struck == {}
  {
    cs, es := Began(k);
    var ids := {k.p.id, k.q.id, k.x.id, k.y.id};
    cs, es := Processed(k, cs, es, 4, k.p, ids, {}, {});
    cs, es := Processed(k, cs, es, 4, k.q, ids - {k.p.id}, {}, {});
    cs, es := Ignored(k, cs, es, k.x, ids - {k.p.id} - {k.q.id});
    cs, es := Ignored(k, cs, es, k.y, ids - {k.p.id} - {k.q.id} - {k.x.id});
    assert ids - {k.p.id} - {k.q.id} - {k.x.id} - {k.y.id} == {};
  }

  ghost function AfterRemoval(k: Scene, c: Cluster): Cluster {
    c.(n := With(k, 3), detaching := c.detaching + {Removal(k)}, lost := c.lost + NewlyApart(c.n, With(k, 3)))
  }

  lemma RemovalStep(k: Scene, c: Cluster)
    requires Staged(k) && c.n == With(k, 4)
    ensures Step(c, DetachIface(k.x.deviceId, k.p.network), AfterRemoval(k, c))
  {
    Ports(k, 3);
    Ports(k, 4);
    assert IfaceRemoved(c.n, With(k, 3), k.x.deviceId, k.p.network);
  }

  ghost function AfterReturn(k: Scene, c: Cluster): Cluster {
    c.(n := With(k, 4), attaching := c.attaching + {k.x.deviceId},
       untold := c.untold + NewlyLinked(c.n, With(k, 4)))
  }

  lemma ReturnStep(k: Scene, c: Cluster)
    requires Staged(k) && c.n == With(k, 3)
    ensures Step(c, AttachIface(k.y), AfterReturn(k, c))
  {
    Ports(k, 3);
    Ports(k, 4);
    assert IfaceAdded(c.n, With(k, 4), k.y);
  }

  lemma Removed(k: Scene, cs: seq<Cluster>, es: seq<Event>) returns (cs': seq<Cluster>, es': seq<Event>)
    requires Staged(k) && At(k, cs, es, 4, {}, {}, {}) && OrderlyRun(cs, es) && cs[|es|].struck == {}
    ensures At(k, cs', es', 3, {}, {}, {Removal(k)}) && OrderlyRun(cs', es')
  {
    var c := cs[|es|];
    WithIsSane(k, 3);
    RemovalStep(k, c);
    assert Orderly(c, DetachIface(k.x.deviceId, k.p.network));
    cs', es' := Then(cs, es, DetachIface(k.x.deviceId, k.p.network), AfterRemoval(k, c));
    assert AfterRemoval(k, c).detaching == {Removal(k)};
  }

  lemma AfterReturnIs(k: Scene, c: Cluster)
    requires c.attaching == {}
    ensures var d := AfterReturn(k, c);
            && d.n == With(k, 4) && d.dirty == c.dirty && d.gone == c.gone && d.detaching == c.detaching
            && d.attaching == {k.x.deviceId}
  {
  }

  lemma Back(k: Scene, cs: seq<Cluster>, es: seq<Event>) returns (cs': seq<Cluster>, es': seq<Event>)
    requires Staged(k) && At(k, cs, es, 3, {}, {}, {Removal(k)}) && OrderlyRun(cs, es)
    ensures At(k, cs', es', 4, {}, {k.x.deviceId}, {Removal(k)}) && OrderlyRun(cs', es')
  {
    var c := cs[|es|];
    WithIsSane(k, 4);
    ReturnStep(k, c);
    cs', es' := Then(cs, es, AttachIface(k.y), AfterReturn(k, c));
    AfterReturnIs(k, c);
  }

  lemma GuestStep(k: Scene, c: Cluster)
    requires Staged(k) && c.n == With(k, 4) && c.gone == {}
    ensures Step(c, ChangePort(k.z), c.(n := With(k, 5), dirty := c.dirty + {k.z.id}))
  {
    Ports(k, 4);
    Ports(k, 5);
    assert PortChanged(c.n, With(k, 5), k.z);
  }

  /** The VM gets its second port. */
  lemma Joined(k: Scene, cs: seq<Cluster>, es: seq<Event>) returns (cs': seq<Cluster>, es': seq<Event>)
    requires Staged(k) && At(k, cs, es, 4, {}, {k.x.deviceId}, {Removal(k)}) && OrderlyRun(cs, es)
    ensures At(k, cs', es', 5, {}, {k.x.deviceId}, {Removal(k)}) && OrderlyRun(cs', es')
  {
    var c := cs[|es|];
    WithIsSane(k, 5);
    GuestStep(k, c);
    cs', es' := Then(cs, es, ChangePort(k.z), c.(n := With(k, 5), dirty := c.dirty + {k.z.id}));
    cs', es' := Processed(k, cs', es', 5, k.z, {k.z.id}, {k.x.deviceId}, {Removal(k)});
  }

  ghost function AfterDelete(k: Scene, c: Cluster): Cluster
    requires WellFormed(c.n)
  {
    c.(detaching := c.detaching - {Removal(k)}, stores := Detached(c.n, TheRouter(k), k.p.network, c.stores),
       struck := c.struck + Struck(c.n, TheRouter(k), k.p.network), lost := c.lost - SidePairs(c.n, Removal(k)))
  }

  lemma DeleteStep(k: Scene, c: Cluster, count: nat)
    requires Staged(k) && 3 <= count <= 5 && c.n == With(k, count) && WellFormed(c.n)
    ensures Step(c, ProcessDetach(k.x.deviceId, k.p.network), AfterDelete(k, c))
  {
    assert Serves(TheRouter(k)) && c.n.routers[k.x.deviceId] == TheRouter(k);
    assert DetachProcessed(c, TheRouter(k), k.p.network, AfterDelete(k, c));
  }

  ghost function WithoutGuest(k: Scene, c: Cluster): Cluster {
    c.(n := With(k, 4), gone := c.gone + {k.z.id}, untold := Without(c.untold, k.z.id),
       struck := Without(c.struck, k.z.id), lost := Without(c.lost, k.z.id))
  }

  lemma GuestLeaves(k: Scene, c: Cluster)
    requires Staged(k) && c.n == With(k, 5)
    ensures Step(c, DeletePort(k.z.id), WithoutGuest(k, c))
  {
    Ports(k, 4);
    Ports(k, 5);
    assert PortDeleted(c.n, With(k, 4), k.z.id);
  }

  /** The late delete takes the one port from the VM of the other. */
  lemma DeleteStrikes(k: Scene, stores: Stores)
    requires Staged(k) && WellFormed(With(k, 5))
    ensures !Holds(StoreOf(Detached(With(k, 5), TheRouter(k), k.p.network, stores), k.p.mgntIp.value), k.q.id)
  {
    var n, r := With(k, 5), TheRouter(k);
    Ports(k, 5);
    ConnectedIff(n, r, k.p.network, k.z);
    VmsOfMembers(ConnectedPorts(n, r, k.p.network), [], k.p.mgntIp.value);
    NetworkPortsMembers(n, k.p.network);
    ForgetsIff(n, r, k.p.network, k.p, k.q);
  }

  ghost predicate Lacks(k: Scene, c: Cluster) {
    !Holds(VmStore(c, k.p), k.q.id)
  }

  lemma StruckRun(k: Scene) returns (cs: seq<Cluster>, es: seq<Event>)
    requires Staged(k)
    ensures IsRun(cs, es) && OrderlyRun(cs, es) && Lacks(k, cs[|es|]) && cs[|es|].n == With(k, 4)
    ensures cs[|es|].dirty == {} && cs[|es|].attaching == {k.x.deviceId} && cs[|es|].detaching == {}
  {
    cs, es := AllProcessed(k);
    cs, es := Removed(k, cs, es);
    cs, es := Back(k, cs, es);
    cs, es := Joined(k, cs, es);
    WithIsSane(k, 4);
    WithIsSane(k, 5);
    DeleteStep(k, cs[|es|], 5);
    DeleteStrikes(k, cs[|es|].stores);
    cs, es := Then(cs, es, ProcessDetach(k.x.deviceId, k.p.network), AfterDelete(k, cs[|es|]));
    GuestLeaves(k, cs[|es|]);
    cs, es := Then(cs, es, DeletePort(k.z.id), WithoutGuest(k, cs[|es|]));
  }

  ghost function AfterLatePush(k: Scene, c: Cluster): Cluster
    requires WellFormed(c.n)
  {
    var r := TheRouter(k);
    c.(attaching := c.attaching - {r.id}, stores := Attached(c.n, r, c.stores),
       untold := c.untold - RouterPairs(c.n, r.id), struck := c.struck - RouterPairs(c.n, r.id))
  }

  lemma LatePushStep(k: Scene, c: Cluster)
    requires Staged(k) && c.n == With(k, 3) && WellFormed(c.n)
    ensures Step(c, ProcessAttach(k.x.deviceId), AfterLatePush(k, c))
  {
    assert Serves(TheRouter(k)) && c.n.routers[k.x.deviceId] == TheRouter(k);
    assert AttachProcessed(c, TheRouter(k), AfterLatePush(k, c));
  }

  lemma LatePushMisses(k: Scene, stores: Stores)
    requires Staged(k) && WellFormed(With(k, 3))
    ensures StoreOf(Attached(With(k, 3), TheRouter(k), stores), k.p.mgntIp.value) == StoreOf(stores, k.p.mgntIp.value)
  {
    var n, r, m := With(k, 3), TheRouter(k), k.p.mgntIp.value;
    Ports(k, 3);
    PortsOnMembers(n, NetsOf(DevicePorts(n, r.id)));
    DevicePortsMembers(n, r.id);
    forall p | p in AttachedPorts(n, r) ensures p == k.x {
      NetsOfMembers(DevicePorts(n, r.id), p.network);
    }
    VmsOfMembers(AttachedPorts(n, r), [], m);
    BroadcastAt(stores, D.Update(ToDb(AttachInfo(n, r))), VmsOf(AttachedPorts(n, r), []), m);
  }

  lemma DeleteAddsNothing(k: Scene, stores: Stores)
    requires Staged(k) && WellFormed(With(k, 3)) && !Holds(StoreOf(stores, k.p.mgntIp.value), k.q.id)
    ensures !Holds(StoreOf(Detached(With(k, 3), TheRouter(k), k.p.network, stores), k.p.mgntIp.value), k.q.id)
  {
    DetachLookup(With(k, 3), TheRouter(k), k.p.network, stores, k.p.mgntIp.value, Loc(LportTable, k.q.id));
  }

  // ----- the end of the run

  /** Every event but one is orderly, and of that one only the network is not intact. */
  ghost predicate OrderlyBut(cs: seq<Cluster>, es: seq<Event>, j: nat)
    requires |cs| == |es| + 1 && j < |es|
  {
    && (forall i :: 0 <= i < |es| && i != j ==> Orderly(cs[i], es[i]))
    && es[j].DetachIface? && forall u :: u in cs[j].detaching ==> u.router != es[j].router
  }

  lemma LongerRunBut(cs: seq<Cluster>, es: seq<Event>, j: nat, e: Event, d: Cluster)
    requires |cs| == |es| + 1 && j < |es| && OrderlyBut(cs, es, j) && Orderly(cs[|es|], e)
    ensures OrderlyBut(cs + [d], es + [e], j)
  {
    var cs', es' := cs + [d], es + [e];
    forall i | 0 <= i < |es'| && i != j ensures Orderly(cs'[i], es'[i]) {
      if i < |es| {
        assert Orderly(cs[i], es[i]);
      }
    }
  }

  lemma Next(cs: seq<Cluster>, es: seq<Event>, j: nat, e: Event, d: Cluster)
    returns (cs': seq<Cluster>, es': seq<Event>)
    requires IsRun(cs, es) && j < |es| && OrderlyBut(cs, es, j)
    requires Orderly(cs[|es|], e) && Step(cs[|es|], e, d) && Sane(d.n)
    ensures IsRun(cs', es') && j < |es'| && OrderlyBut(cs', es', j) && cs'[|es'|] == d
  {
    LongerRun(cs, es, e, d);
    LongerRunBut(cs, es, j, e, d);
    cs', es' := cs + [d], es + [e];
  }

  lemma FirstExcept(cs: seq<Cluster>, es: seq<Event>, e: Event, d: Cluster)
    requires |cs| == |es| + 1 && OrderlyRun(cs, es)
    requires e.DetachIface? && forall u :: u in cs[|es|].detaching ==> u.router != e.router
    ensures OrderlyBut(cs + [d], es + [e], |es|)
  {
    forall i | 0 <= i < |es| ensures Orderly((cs + [d])[i], (es + [e])[i]) {
      assert Orderly(cs[i], es[i]);
    }
  }

  lemma RemovedAgain(k: Scene) returns (cs: seq<Cluster>, es: seq<Event>, j: nat)
    requires Staged(k)
    ensures IsRun(cs, es) && j < |es| && OrderlyBut(cs, es, j) && Lacks(k, cs[|es|])
    ensures cs[|es|].n == With(k, 3) && cs[|es|].dirty == {}
    ensures cs[|es|].attaching == {k.x.deviceId} && cs[|es|].detaching == {Removal(k)}
  {
    cs, es := StruckRun(k);
    WithIsSane(k, 3);
    RemovalStep(k, cs[|es|]);
    var e, d := DetachIface(k.x.deviceId, k.p.network), AfterRemoval(k, cs[|es|]);
    LongerRun(cs, es, e, d);
    FirstExcept(cs, es, e, d);
    cs, es, j := cs + [d], es + [e], |es|;
  }

  lemma LastSteps(k: Scene, c: Cluster)
    requires Staged(k) && c.n == With(k, 3) && Lacks(k, c) && WellFormed(c.n)
    ensures Lacks(k, AfterLatePush(k, c)) && Lacks(k, AfterDelete(k, AfterLatePush(k, c)))
  {
    LatePushMisses(k, c.stores);
    DeleteAddsNothing(k, AfterLatePush(k, c).stores);
  }

  /** Every log is processed, and the VM of `p` lacks `q`, which is on its own network. */
  lemma StrandedRun(k: Scene) returns (cs: seq<Cluster>, es: seq<Event>, j: nat)
    requires Staged(k)
    ensures IsRun(cs, es) && j < |es| && OrderlyBut(cs, es, j) && NoLogPending(cs[|es|])
    ensures cs[|es|].n == With(k, 3) && Lacks(k, cs[|es|])
  {
    cs, es, j := RemovedAgain(k);
    var c := cs[|es|];
    WithIsSane(k, 3);
    LatePushStep(k, c);
    LastSteps(k, c);
    cs, es := Next(cs, es, j, ProcessAttach(k.x.deviceId), AfterLatePush(k, c));
    DeleteStep(k, AfterLatePush(k, c), 3);
    LateDeleteIsOrderly(k, AfterLatePush(k, c));
    cs, es := Next(cs, es, j, ProcessDetach(k.x.deviceId, k.p.network), AfterDelete(k, AfterLatePush(k, c)));
    LogsDone(k, c);
  }

  lemma LateDeleteIsOrderly(k: Scene, c: Cluster)
    requires Staged(k) && c.n == With(k, 3)
    ensures Orderly(c, ProcessDetach(k.x.deviceId, k.p.network))
  {
    WithIsSane(k, 3);
    Ports(k, 3);
  }

  lemma LogsDone(k: Scene, c: Cluster)
    requires WellFormed(c.n) && c.dirty == {} && c.attaching == {k.x.deviceId} && c.detaching == {Removal(k)}
    ensures NoLogPending(AfterDelete(k, AfterLatePush(k, c)))
  {
  }

  const SCENE := Scene(VmPort("p", "bb", "10.0.0.1"), VmPort("qq", "bb", "10.0.0.22"),
                       IfacePort("xxx", "a"), IfacePort("yyyy", "bb"), VmPort("zzzzz", "a", "10.0.0.1"))

  lemma SceneIsStaged()
    ensures Staged(SCENE)
  {
    var k := SCENE;
    assert |"compute:nova"| == 12 && |"network:router_gateway"| == 22 && |"network:router_interface_distributed"| == 36;
    assert "compute:" == "compute:nova"[..8];
    assert "compute:"[0] != "network:router_interface_distributed"[0];
    assert |k.p.id| == 1 && |k.q.id| == 2 && |k.x.id| == 3 && |k.y.id| == 4 && |k.z.id| == 5;
    assert |k.p.host| == 8 && |k.q.host| == 9 && |k.x.network| == 1 && |k.p.network| == 2;
    assert |k.p.deviceId| == 0 && |k.x.deviceId| == 1;
  }

  /** So a removal from a damaged network can leave a VM without a port of its own network. */
  lemma RemovalStrandsPort() returns (cs: seq<Cluster>, es: seq<Event>, j: nat)
    ensures IsRun(cs, es) && j < |es| && OrderlyBut(cs, es, j) && NoLogPending(cs[|es|])
    ensures exists p, q :: p in cs[|es|].n.ports && q in cs[|es|].n.ports && IsProvider(p) && IsProvider(q)
              && p.network == q.network && InService(cs[|es|].n, p.network) && !Holds(VmStore(cs[|es|], p), q.id)
  {
    SceneIsStaged();
    cs, es, j := StrandedRun(SCENE);
    NetworkInService(SCENE);
  }

  lemma NetworkInService(k: Scene)
    requires Staged(k)
    ensures k.p in With(k, 3).ports && k.q in With(k, 3).ports && IsProvider(k.p) && IsProvider(k.q)
    ensures InService(With(k, 3), k.p.network) && k.p.network == k.q.network
  {
    Ports(k, 3);
  }
}
