/** Nothing is missing: a VM holds the current port and chassis of every processed provider
    port that its own processed port reaches, unless a message about the two is still owed. */
module Completeness {
  import opened Records
  import opened Batches
  import opened Drivers
  import opened Neutron
  import opened PortInfo
  import opened Actions
  import opened ServerBatches
  import opened Cluster

  ghost predicate Knows(s: Store, q: Port)
    requires IsProvider(q)
  {
    && Lookup(s, Loc(LportTable, q.id)) == Some(LportValue(LportOf(q)))
    && Lookup(s, Loc(ChassisTable, q.host)) == Some(ChassisValue(ChassisOfPort(q)))
  }

  /** `p` and `q` are processed, `p` reaches `q`, and no message about the two is still owed. */
  ghost predicate Due(c: Cluster, p: Port, q: Port) {
    && p in c.n.ports && q in c.n.ports && IsProvider(p) && IsProvider(q)
    && p.id !in c.dirty && q.id !in c.dirty
    && Linked(c.n, p.network, q.network)
    && Sight(p.id, q.id) !in c.untold && Sight(p.id, q.id) !in c.struck
  }

  ghost predicate Complete(c: Cluster) {
    forall p, q :: Due(c, p, q) ==> Knows(VmStore(c, p), q)
  }

  // ----- one store

  lemma CurrentValue(n: Neutron, b: Batch, f: Entry)
    requires Sane(n) && CurrentBatch(n, b) && IsCurrent(n, f)
    ensures Consistent(b)
    ensures Mentions(b, f.At()) ==> f.At() in MapOf(b) && MapOf(b)[f.At()] == f.value
  {
    CurrentIsConsistent(n, b);
    MapOfConsistent(b);
    if Mentions(b, f.At()) {
      var e := Entry(f.table, f.key, MapOf(b)[f.At()]);
      assert e in b && e.At() == f.At();
      CurrentAgree(n, e, f);
    }
  }

  lemma PortEntriesCurrent(n: Neutron, q: Port)
    requires q in n.ports && IsProvider(q)
    ensures IsCurrent(n, LportEntry(LportOf(q))) && IsCurrent(n, ChassisEntry(ChassisOfPort(q)))
  {
  }

  /** A current update never takes away what a store knows of a current port. */
  lemma UpdateKeepsKnows(n: Neutron, s: Store, b: Batch, q: Port)
    requires Sane(n) && CurrentBatch(n, b) && q in n.ports && IsProvider(q)
    requires Knows(s, q)
    ensures Knows(StoreStep(s, Update(b)), q)
  {
    PortEntriesCurrent(n, q);
    CurrentValue(n, b, LportEntry(LportOf(q)));
    CurrentValue(n, b, ChassisEntry(ChassisOfPort(q)));
    UpdateLookup(s, b, Loc(LportTable, q.id));
    UpdateLookup(s, b, Loc(ChassisTable, q.host));
  }

  lemma BatchTeaches(n: Neutron, s: Store, b: Batch, q: Port)
    requires Sane(n) && CurrentBatch(n, b) && q in n.ports && IsProvider(q)
    requires LportEntry(LportOf(q)) in b && ChassisEntry(ChassisOfPort(q)) in b
    ensures Knows(StoreStep(s, Update(b)), q) && Knows(StoreStep(s, Apply(b)), q)
  {
    CurrentIsConsistent(n, b);
    UpdateLookup(s, b, Loc(LportTable, q.id));
    UpdateLookup(s, b, Loc(ChassisTable, q.host));
    ApplyLookup(s, b, Loc(LportTable, q.id));
    ApplyLookup(s, b, Loc(ChassisTable, q.host));
  }

  // ----- Neutron changes

  /** A change of Neutron makes no pair due that was not due before. */
  lemma ChangeKeepsComplete(c: Cluster, e: Event, d: Cluster)
    requires Sane(c.n) && Sane(d.n) && Complete(c) && Step(c, e, d) && !IsProcess(e)
    ensures Complete(d)
  {
    forall p, q | Due(d, p, q) ensures Knows(VmStore(d, p), q) {
      LinkedBefore(c, e, d, p, q);
      assert Due(c, p, q);
    }
  }

  lemma LinkedBefore(c: Cluster, e: Event, d: Cluster, p: Port, q: Port)
    requires Sane(d.n) && Step(c, e, d) && !IsProcess(e)
    requires p in d.n.ports && q in d.n.ports && IsProvider(p) && IsProvider(q)
    requires Linked(d.n, p.network, q.network) && Sight(p.id, q.id) !in d.untold
    ensures Linked(c.n, p.network, q.network)
  {
    if !e.AttachIface? && p.network != q.network {
      var x, y :| Joins(d.n, x, y, p.network, q.network);
      assert Joins(c.n, x, y, p.network, q.network);
    }
  }

  // ----- processing a port

  lemma InDomain(n: Neutron, r: Port, nets: seq<Id>, q: Port)
    requires Sane(n) && r in n.ports && q in n.ports && Enumerates(nets, Domain(n, r.network))
    requires Linked(n, r.network, q.network)
    ensures q in PortsOn(n, nets) && q.network in Domain(n, r.network)
  {
    DomainIsLinked(n, r.network, q.network);
    PortsOnMembers(n, nets);
  }

  /** Every VM that reaches the port is among its neighbours, or is its own. */
  lemma NeighbourIsTold(n: Neutron, r: Port, nets: seq<Id>, p: Port)
    requires Sane(n) && r in n.ports && p in n.ports && Enumerates(nets, Domain(n, r.network))
    requires p != r && Linked(n, p.network, r.network) && p.mgntIp.Some?
    ensures p.mgntIp.value in PortNeighbours(n, r, nets)
  {
    LinkedSymmetric(n, p.network, r.network);
    InDomain(n, r, nets, p);
    PortsOnNoDup(n, nets);
    RemoveFirstMembers(PortsOn(n, nets), r);
    VmsOfMembers(RemoveFirst(PortsOn(n, nets), r), [r.id], p.mgntIp.value);
    assert p.id != r.id;
  }

  /** What a VM that is not the port's own holds afterwards. */
  lemma OtherVmAfterPort(n: Neutron, r: Port, nets: seq<Id>, answers: bool, stores: Stores, p: Port, q: Port)
    requires Sane(n) && r in n.ports && IsProvider(r) && Enumerates(nets, Domain(n, r.network))
    requires p in n.ports && q in n.ports && IsProvider(p) && IsProvider(q) && p.mgntIp != r.mgntIp
    requires Linked(n, p.network, q.network)
    requires q == r || Knows(StoreOf(stores, p.mgntIp.value), q)
    ensures Knows(StoreOf(PortUpdated(n, r, nets, answers, stores), p.mgntIp.value), q)
  {
    var info, m := PortUpdateInfo(n, r, nets), p.mgntIp.value;
    var b := Announcement(info);
    AnnouncementIsCurrent(n, r, nets);
    BroadcastAt(stores, Update(b), PortNeighbours(n, r, nets), m);
    BroadcastAt(Broadcast(stores, Update(b), PortNeighbours(n, r, nets)), Apply(ToDb(info)), {r.mgntIp.value}, m);
    if q == r {
      NeighbourIsTold(n, r, nets, p);
      InDomain(n, r, nets, r);
      AnnouncementContains(n, r, nets);
      BatchTeaches(n, StoreOf(stores, m), b, r);
    } else if m in PortNeighbours(n, r, nets) {
      UpdateKeepsKnows(n, StoreOf(stores, m), b, q);
    }
  }

  /** The port's own VM, once it has answered, knows everything the port reaches. */
  lemma OwnVmAfterPort(n: Neutron, r: Port, nets: seq<Id>, stores: Stores, q: Port)
    requires Sane(n) && r in n.ports && IsProvider(r) && Enumerates(nets, Domain(n, r.network))
    requires q in n.ports && IsProvider(q) && Linked(n, r.network, q.network)
    ensures Knows(StoreOf(PortUpdated(n, r, nets, true, stores), r.mgntIp.value), q)
  {
    var info, m := PortUpdateInfo(n, r, nets), r.mgntIp.value;
    var told := Broadcast(stores, Update(Announcement(info)), PortNeighbours(n, r, nets));
    BroadcastAt(told, Apply(ToDb(info)), {m}, m);
    InDomain(n, r, nets, q);
    PortViewContains(n, r, nets, q);
    PortViewIsCurrent(n, r, nets);
    BatchTeaches(n, StoreOf(told, m), ToDb(info), q);
  }

  /** When the VM does not answer, its own store only gains the announcement of others' sharing it. */
  lemma SilentVmAfterPort(n: Neutron, r: Port, nets: seq<Id>, stores: Stores, m: Vm, q: Port)
    requires Sane(n) && r in n.ports && IsProvider(r) && Enumerates(nets, Domain(n, r.network))
    requires q in n.ports && IsProvider(q) && Knows(StoreOf(stores, m), q)
    ensures Knows(StoreOf(PortUpdated(n, r, nets, false, stores), m), q)
  {
    var b := Announcement(PortUpdateInfo(n, r, nets));
    AnnouncementIsCurrent(n, r, nets);
    BroadcastAt(stores, Update(b), PortNeighbours(n, r, nets), m);
    if m in PortNeighbours(n, r, nets) {
      UpdateKeepsKnows(n, StoreOf(stores, m), b, q);
    }
  }

  lemma PortKeepsComplete(c: Cluster, r: Port, nets: seq<Id>, answers: bool, d: Cluster)
    requires Sane(c.n) && Complete(c) && r in c.n.ports && PortProcessed(c, r, nets, answers, d)
    ensures Complete(d)
  {
    var n := c.n;
    forall p, q | Due(d, p, q) ensures Knows(VmStore(d, p), q) {
      assert p != r && q != r ==> p.id != r.id && q.id != r.id && Due(c, p, q);
      if !IsProvider(r) {
        assert p != r && q != r;
      } else if p.mgntIp != r.mgntIp {
        OtherVmAfterPort(n, r, nets, answers, c.stores, p, q);
      } else if answers {
        LinkedTransitive(n, r.network, p.network, q.network);
        OwnVmAfterPort(n, r, nets, c.stores, q);
      } else {
        assert Due(c, p, q);
        SilentVmAfterPort(n, r, nets, c.stores, p.mgntIp.value, q);
      }
    }
  }

  // ----- processing a security group

  lemma GroupKeepsComplete(c: Cluster, id: Id, d: Cluster)
    requires Sane(c.n) && Complete(c) && Step(c, ProcessGroup(id), d)
    ensures Complete(d)
  {
    GroupByIdFinds(c.n.sgs, id);
    forall p, q | Due(d, p, q) ensures Knows(VmStore(d, p), q) {
      assert Due(c, p, q);
      if GroupById(c.n.sgs, id).Some? {
        var g := GroupById(c.n.sgs, id).value;
        var b, vms, m := [SecgroupEntry(g)], VmsOf(GroupPorts(c.n, g.id), []), p.mgntIp.value;
        assert IsCurrent(c.n, SecgroupEntry(g));
        BroadcastAt(c.stores, Update(b), vms, m);
        if m in vms {
          UpdateKeepsKnows(c.n, StoreOf(c.stores, m), b, q);
        }
      }
    }
  }

  // ----- processing an attachment

  lemma OnRouter(n: Neutron, r: Router, x: Port, p: Port)
    requires x in n.ports && x.deviceId == r.id && p in n.ports && p.network == x.network
    ensures p in AttachedPorts(n, r)
  {
    DevicePortsMembers(n, r.id);
    NetsOfMembers(DevicePorts(n, r.id), p.network);
    PortsOnMembers(n, NetsOf(DevicePorts(n, r.id)));
  }

  /** The push of an attachment brings every VM of the router every port of the router. */
  lemma AttachTeaches(n: Neutron, r: Router, stores: Stores, x: Port, p: Port, y: Port, q: Port)
    requires Sane(n) && r.id in n.routers && n.routers[r.id] == r && Serves(r)
    requires x in n.ports && x.deviceId == r.id && p in n.ports && p.network == x.network && p.mgntIp.Some?
    requires y in n.ports && y.deviceId == r.id && q in n.ports && q.network == y.network && IsProvider(q)
    ensures Knows(StoreOf(Attached(n, r, stores), p.mgntIp.value), q)
  {
    var b, vms, m := ToDb(AttachInfo(n, r)), VmsOf(AttachedPorts(n, r), []), p.mgntIp.value;
    AttachBatchIsCurrent(n, r);
    OnRouter(n, r, x, p);
    OnRouter(n, r, y, q);
    VmsOfMembers(AttachedPorts(n, r), [], m);
    AttachContains(n, r, q);
    BroadcastAt(stores, Update(b), vms, m);
    BatchTeaches(n, StoreOf(stores, m), b, q);
  }

  lemma AttachKeepsKnows(n: Neutron, r: Router, stores: Stores, m: Vm, q: Port)
    requires Sane(n) && r.id in n.routers && n.routers[r.id] == r
    requires q in n.ports && IsProvider(q) && Knows(StoreOf(stores, m), q)
    ensures Knows(StoreOf(Attached(n, r, stores), m), q)
  {
    if Serves(r) {
      var b, vms := ToDb(AttachInfo(n, r)), VmsOf(AttachedPorts(n, r), []);
      AttachBatchIsCurrent(n, r);
      BroadcastAt(stores, Update(b), vms, m);
      if m in vms {
        UpdateKeepsKnows(n, StoreOf(stores, m), b, q);
      }
    }
  }

  lemma AttachKeepsComplete(c: Cluster, r: Id, d: Cluster)
    requires Sane(c.n) && Complete(c) && Step(c, ProcessAttach(r), d)
    ensures Complete(d)
  {
    var n, router := c.n, c.n.routers[r];
    forall p, q | Due(d, p, q) ensures Knows(VmStore(d, p), q) {
      if OnRouterNet(n, r, p.network) && OnRouterNet(n, r, q.network) && Serves(router) {
        var x :| x in n.ports && x.deviceId == r && x.network == p.network;
        var y :| y in n.ports && y.deviceId == r && y.network == q.network;
        AttachTeaches(n, router, c.stores, x, p, y, q);
      } else {
        assert Due(c, p, q);
        AttachKeepsKnows(n, router, c.stores, p.mgntIp.value, q);
      }
    }
  }

  // ----- processing a detachment

  /** Entries of a batch that was built without an own port. */
  lemma MentionsPort(n: Neutron, ports: seq<Port>, router: Option<Router>, ifaces: seq<Port>, k: Id)
    requires NetsKnown(n, AddedNets([], ifaces))
    ensures Mentions(ToDb(InfoOf(n, None, ports, EndpointsOf(ports), router, ifaces)), Loc(LportTable, k)) <==>
            exists z :: z in ports && IsCompute(z) && z.id == k
  {
    var info := InfoOf(n, None, ports, EndpointsOf(ports), router, ifaces);
    if Mentions(ToDb(info), Loc(LportTable, k)) {
      var e :| e in ToDb(info) && e.At() == Loc(LportTable, k);
      ToDbMembers(info, e);
      var l :| l in info.otherLports && LportEntry(l) == e;
      ComputeLportsMembers(ports, l);
      assert PortOf(l).id == k;
    }
    if z :| z in ports && IsCompute(z) && z.id == k {
      ComputeLportsMembers(ports, LportOf(z));
      assert PortOf(LportOf(z)) == z;
      ToDbMembers(info, LportEntry(LportOf(z)));
      assert info.otherLports != [] && LportEntry(LportOf(z)) in ToDb(info);
      assert LportEntry(LportOf(z)).At() == Loc(LportTable, k);
    }
  }

  lemma MentionsHost(n: Neutron, ports: seq<Port>, router: Option<Router>, ifaces: seq<Port>, h: Id)
    requires NetsKnown(n, AddedNets([], ifaces)) && forall z :: z in ports && IsProvider(z) ==> IsCompute(z)
    ensures Mentions(ToDb(InfoOf(n, None, ports, EndpointsOf(ports), router, ifaces)), Loc(ChassisTable, h)) <==>
            exists z :: z in ports && IsProvider(z) && z.host == h
  {
    var info := InfoOf(n, None, ports, EndpointsOf(ports), router, ifaces);
    EndpointsAreChassis(ports);
    if Mentions(ToDb(info), Loc(ChassisTable, h)) {
      var e :| e in ToDb(info) && e.At() == Loc(ChassisTable, h);
      ToDbMembers(info, e);
      var ch :| ch in info.chassis && ChassisEntry(ch) == e;
      ChassisOfPortsMembers(ports, ch);
    }
    if z :| z in ports && IsProvider(z) && z.host == h {
      ComputeLportsMembers(ports, LportOf(z));
      assert PortOf(LportOf(z)) == z;
      ChassisOfPortsMembers(ports, ChassisOfPort(z));
      ToDbMembers(info, ChassisEntry(ChassisOfPort(z)));
      assert info.otherLports != [] && ChassisEntry(ChassisOfPort(z)) in ToDb(info);
      assert ChassisEntry(ChassisOfPort(z)).At() == Loc(ChassisTable, h);
    }
  }

  lemma ConnectedIff(n: Neutron, r: Router, net: Id, p: Port)
    ensures p in ConnectedPorts(n, r, net) <==>
            p in n.ports && exists x :: x in n.ports && x.deviceId == r.id && x.network == p.network && x.network != net
  {
    var ifaces := RemainingIfaces(n, r, net);
    PortsOnMembers(n, NetsOf(ifaces));
    NetsOfMembers(ifaces, p.network);
    RemainingIfacesMembers(n, r, net);
  }

  /** What the two delete messages of a detachment do to one location of one VM. */
  lemma DetachLookup(n: Neutron, r: Router, net: Id, stores: Stores, m: Vm, l: Loc)
    requires WellFormed(n) && Serves(r)
    ensures Lookup(StoreOf(Detached(n, r, net, stores), m), l) ==
            if m in VmsOf(ConnectedPorts(n, r, net), []) && Mentions(ToDb(DetachedInfo(n, net)), l) then None
            else if m in VmsOf(NetworkPorts(n, net), []) && Mentions(ToDb(ConnectedInfo(n, r, net)), l) then None
            else Lookup(StoreOf(stores, m), l)
  {
    var connected := ConnectedPorts(n, r, net);
    var b1, b2 := ToDb(DetachedInfo(n, net)), ToDb(ConnectedInfo(n, r, net));
    var first := if connected == [] then stores else Broadcast(stores, Delete(Locs(b1)), VmsOf(connected, []));
    BroadcastAt(stores, Delete(Locs(b1)), VmsOf(connected, []), m);
    BroadcastAt(first, Delete(Locs(b2)), VmsOf(NetworkPorts(n, net), []), m);
    DeleteLookup(StoreOf(stores, m), b1, l);
    DeleteLookup(StoreOf(first, m), b2, l);
  }

  /** Of a compute port, the two batches name exactly those of the one and of the other side. */
  lemma DetachMentions(n: Neutron, r: Router, net: Id, q: Port)
    requires WellFormed(n) && q in n.ports && IsCompute(q)
    ensures Mentions(ToDb(DetachedInfo(n, net)), Loc(LportTable, q.id)) <==> q.network == net
    ensures Mentions(ToDb(ConnectedInfo(n, r, net)), Loc(LportTable, q.id)) <==> q in ConnectedPorts(n, r, net)
  {
    NetworkPortsMembers(n, net);
    RemainingIfacesMembers(n, r, net);
    RouterNetsKnown(n, None, RemainingIfaces(n, r, net));
    MentionsPort(n, NetworkPorts(n, net), None, [], q.id);
    MentionsPort(n, ConnectedPorts(n, r, net), Some(r), RemainingIfaces(n, r, net), q.id);
    PortsOnMembers(n, NetsOf(RemainingIfaces(n, r, net)));
  }

  lemma DetachMentionsHost(n: Neutron, r: Router, net: Id, h: Id)
    requires Sane(n)
    ensures Mentions(ToDb(DetachedInfo(n, net)), Loc(ChassisTable, h)) <==>
            exists z :: z in NetworkPorts(n, net) && IsProvider(z) && z.host == h
    ensures Mentions(ToDb(ConnectedInfo(n, r, net)), Loc(ChassisTable, h)) <==>
            exists z :: z in ConnectedPorts(n, r, net) && IsProvider(z) && z.host == h
  {
    NetworkPortsMembers(n, net);
    RemainingIfacesMembers(n, r, net);
    RouterNetsKnown(n, None, RemainingIfaces(n, r, net));
    PortsOnMembers(n, NetsOf(RemainingIfaces(n, r, net)));
    MentionsHost(n, NetworkPorts(n, net), None, [], h);
    MentionsHost(n, ConnectedPorts(n, r, net), Some(r), RemainingIfaces(n, r, net), h);
  }

  lemma CoversIff(n: Neutron, ports: seq<Port>, q: Port)
    requires WellFormed(n) && q in n.ports && forall z :: z in ports ==> z in n.ports
    ensures Covers(ports, q) <==> q in ports || exists z :: z in ports && IsProvider(z) && z.host == q.host
  {
  }

  /** A processed detachment takes from a VM what it knows of a port if and only if one of its
      deletes hits the two. */
  lemma DetachTakesIff(n: Neutron, r: Router, net: Id, stores: Stores, m: Vm, q: Port)
    requires Sane(n) && Serves(r) && q in n.ports && IsProvider(q) && Knows(StoreOf(stores, m), q)
    ensures Knows(StoreOf(Detached(n, r, net, stores), m), q) <==> !Hit(n, r, net, m, q)
  {
    NetworkPortsMembers(n, net);
    PortsOnMembers(n, NetsOf(RemainingIfaces(n, r, net)));
    CoversIff(n, NetworkPorts(n, net), q);
    CoversIff(n, ConnectedPorts(n, r, net), q);
    DetachLookup(n, r, net, stores, m, Loc(LportTable, q.id));
    DetachLookup(n, r, net, stores, m, Loc(ChassisTable, q.host));
    DetachMentions(n, r, net, q);
    DetachMentionsHost(n, r, net, q.host);
  }

  lemma DetachKeepsComplete(c: Cluster, r: Id, net: Id, d: Cluster)
    requires Sane(c.n) && Complete(c) && Step(c, ProcessDetach(r, net), d)
    ensures Complete(d)
  {
    forall p, q | Due(d, p, q) ensures Knows(VmStore(d, p), q) {
      assert Due(c, p, q);
      if Serves(c.n.routers[r]) {
        DetachTakesIff(c.n, c.n.routers[r], net, c.stores, p.mgntIp.value, q);
        assert Sight(p.id, q.id) !in Struck(c.n, c.n.routers[r], net);
      }
    }
  }

  // ----- runs

  lemma NothingKeepsComplete(c: Cluster, id: Id, d: Cluster)
    requires Complete(c) && d == c.(dirty := c.dirty - {id}) && forall p :: p in c.n.ports ==> p.id != id
    ensures Complete(d)
  {
    forall p, q | Due(d, p, q) ensures Knows(VmStore(d, p), q) {
      assert Due(c, p, q);
    }
  }

  lemma PortLogKeepsComplete(c: Cluster, id: Id, nets: seq<Id>, answers: bool, d: Cluster)
    requires Sane(c.n) && Complete(c) && Step(c, ProcessPort(id, nets, answers), d)
    ensures Complete(d)
  {
    PortByIdFinds(c.n.ports, id);
    match PortById(c.n.ports, id)
    case None => NothingKeepsComplete(c, id, d);
    case Some(p) => PortKeepsComplete(c, p, nets, answers, d);
  }

  lemma StepKeepsComplete(c: Cluster, e: Event, d: Cluster)
    requires Sane(c.n) && Sane(d.n) && Complete(c) && Step(c, e, d)
    ensures Complete(d)
  {
    if !IsProcess(e) {
      ChangeKeepsComplete(c, e, d);
    } else if e.ProcessPort? {
      PortLogKeepsComplete(c, e.id, e.nets, e.answers, d);
    } else if e.ProcessGroup? {
      GroupKeepsComplete(c, e.id, d);
    } else if e.ProcessAttach? {
      AttachKeepsComplete(c, e.router, d);
    } else {
      DetachKeepsComplete(c, e.router, e.net, d);
    }
  }

  /** In every run, all changes of Neutron interleaved with the actions that process them: the
      VM of every processed port holds the current record and chassis of every processed port
      it reaches, unless a message about the two is still owed. */
  lemma {:induction false} Convergence(cs: seq<Cluster>, es: seq<Event>)
    requires IsRun(cs, es)
    ensures Complete(cs[|es|])
  {
    if es == [] {
      assert forall p :: p in cs[0].n.ports ==> p.id in cs[0].dirty;
    } else {
      var k := |es| - 1;
      assert IsRun(cs[..|es|], es[..k]);
      Convergence(cs[..|es|], es[..k]);
      assert Step(cs[k], es[k], cs[k + 1]);
      StepKeepsComplete(cs[k], es[k], cs[k + 1]);
    }
  }
}
