/** Where the server's guarantees end: each lemma holds for every state of the kind it
    describes, and shows what the convergence results have to assume. */
module Limits {
  import opened Records
  import opened Batches
  import opened Drivers
  import opened Neutron
  import opened PortInfo
  import opened Actions
  import opened ServerBatches
  import opened Cluster
  import opened Completeness
  import opened Soundness
  import opened Agreement
  import opened RouterLogs
  import opened Groups
  import B = BsdDb

  /** A batch is empty exactly when it has no own port, no compute port and no group: its
      switches, chassis and router are then not sent either. */
  lemma EmptyBatchIff(i: Info)
    ensures ToDb(i) == [] <==> i.lport.None? && i.otherLports == [] && i.secgroups == []
  {
    assert |Head(i)| == (if i.lport.Some? then 1 else 0) + |i.otherLports| + |i.secgroups|;
  }

  /** So attaching a router whose networks have no compute port tells no VM anything. */
  lemma AttachSilentIff(n: Neutron, r: Router)
    requires WellFormed(n)
    ensures ToDb(AttachInfo(n, r)) == [] <==> forall p :: p in AttachedPorts(n, r) ==> !IsCompute(p)
  {
    var info := AttachInfo(n, r);
    EmptyBatchIff(info);
    if p :| p in AttachedPorts(n, r) && IsCompute(p) {
      ComputeLportsMembers(AttachedPorts(n, r), LportOf(p));
      assert PortOf(LportOf(p)) == p;
    }
    if info.otherLports != [] {
      ComputeLportsMembers(AttachedPorts(n, r), info.otherLports[0]);
      assert info.otherLports[0] in info.otherLports;
    }
  }

  /** Whatever it held, the VM of `p` does not hold `q` once the detachment is processed. */
  ghost predicate Forgets(n: Neutron, r: Router, net: Id, p: Port, q: Port)
    requires WellFormed(n) && p.mgntIp.Some?
  {
    forall stores: Stores :: !Holds(StoreOf(Detached(n, r, net, stores), p.mgntIp.value), q.id)
  }

  /** One of the two messages goes to the VM and names the port. */
  ghost predicate Deletes(n: Neutron, r: Router, net: Id, m: Vm, q: Port) {
    || (m in VmsOf(ConnectedPorts(n, r, net), []) && q in NetworkPorts(n, net))
    || (m in VmsOf(NetworkPorts(n, net), []) && q in ConnectedPorts(n, r, net))
  }

  lemma ForgetsIff(n: Neutron, r: Router, net: Id, p: Port, q: Port)
    requires WellFormed(n) && p.mgntIp.Some? && q in n.ports && IsCompute(q)
    ensures Forgets(n, r, net, p, q) <==> Serves(r) && Deletes(n, r, net, p.mgntIp.value, q)
  {
    var m, l := p.mgntIp.value, Loc(LportTable, q.id);
    var held: Store := map[l := LportValue(LportOf(q))];
    var sample: Stores := map[m := held];
    if Serves(r) {
      NetworkPortsMembers(n, net);
      DetachMentions(n, r, net, q);
      DetachLookup(n, r, net, sample, m, l);
      forall stores: Stores ensures Deletes(n, r, net, m, q) ==> !Holds(StoreOf(Detached(n, r, net, stores), m), q.id) {
        DetachLookup(n, r, net, stores, m, l);
      }
      assert !Deletes(n, r, net, m, q) ==> Holds(StoreOf(Detached(n, r, net, sample), m), q.id);
    } else {
      assert Holds(StoreOf(Detached(n, r, net, sample), m), q.id);
    }
  }

  /** A processed detachment makes the two sides forget each other if and only if the router is
      enabled and distributed; the server never comes back to a log that it ignored. */
  lemma DetachmentForgetsIff(n: Neutron, r: Router, net: Id, p: Port, q: Port)
    requires WellFormed(n) && p in n.ports && q in n.ports && p.mgntIp.Some? && IsCompute(q)
    requires p.network != q.network && SplitBy(n, Pair(r.id, net), p.network, q.network)
    ensures Forgets(n, r, net, p, q) <==> Serves(r)
  {
    ForgetsIff(n, r, net, p, q);
    SidePorts(n, r, net, p);
    SidePorts(n, r, net, q);
    VmsOfMembers(ConnectedPorts(n, r, net), [], p.mgntIp.value);
    VmsOfMembers(NetworkPorts(n, net), [], p.mgntIp.value);
  }

  ghost predicate Reaches(n: Neutron, p: Port, q: Port) {
    p in n.ports && q in n.ports && p.mgntIp.Some? && IsCompute(q) && Linked(n, p.network, q.network)
  }

  /** A VM on one side, a compute port on the other. */
  ghost predicate Faces(n: Neutron, r: Router, net: Id, p: Port, q: Port) {
    && p.mgntIp.Some? && IsCompute(q)
    && ((p in ConnectedPorts(n, r, net) && q in NetworkPorts(n, net)) ||
        (p in NetworkPorts(n, net) && q in ConnectedPorts(n, r, net)))
  }

  lemma FacesIsForgotten(n: Neutron, r: Router, net: Id, p: Port, q: Port)
    requires Sane(n) && r.id in n.routers && n.routers[r.id] == r && Serves(r)
    requires OnRouterNet(n, r.id, net) && Faces(n, r, net, p, q)
    ensures Reaches(n, p, q) && Forgets(n, r, net, p, q)
  {
    NetworkPortsMembers(n, net);
    ConnectedIff(n, r, net, p);
    ConnectedIff(n, r, net, q);
    RouterPairsJoin(n, r.id, p.network, q.network);
    ForgetsIff(n, r, net, p, q);
    VmsOfMembers(ConnectedPorts(n, r, net), [], p.mgntIp.value);
    VmsOfMembers(NetworkPorts(n, net), [], p.mgntIp.value);
  }

  lemma ForgottenFaces(n: Neutron, r: Router, net: Id, p: Port, q: Port) returns (c0: Port)
    requires Sane(n) && r.id in n.routers && n.routers[r.id] == r
    requires Reaches(n, p, q) && Forgets(n, r, net, p, q)
    ensures Serves(r) && OnRouterNet(n, r.id, net) && Faces(n, r, net, c0, q)
  {
    ForgetsIff(n, r, net, p, q);
    NetworkPortsMembers(n, net);
    PortsOnMembers(n, NetsOf(RemainingIfaces(n, r, net)));
    var side := if q in NetworkPorts(n, net) && p.mgntIp.value in VmsOf(ConnectedPorts(n, r, net), [])
                then ConnectedPorts(n, r, net) else NetworkPorts(n, net);
    VmsOfMembers(side, [], p.mgntIp.value);
    c0 :| c0 in side && c0.mgntIp == p.mgntIp;
    LinkedTransitive(n, c0.network, p.network, q.network);
    LinkedSymmetric(n, c0.network, q.network);
    if side == ConnectedPorts(n, r, net) && q in NetworkPorts(n, net) {
      SidesJoined(n, r, net, c0, c0);
    } else {
      SidesJoined(n, r, net, q, q);
    }
  }

  /** A processed detachment takes from some VM a port that it reaches if and only if the router
      is enabled and distributed, has an interface on the network again, and there is a VM on
      one side and a compute port on the other. */
  lemma DetachmentSeparatesIff(n: Neutron, r: Router, net: Id)
    requires Sane(n) && r.id in n.routers && n.routers[r.id] == r
    ensures (exists p, q :: Reaches(n, p, q) && Forgets(n, r, net, p, q)) <==>
            Serves(r) && OnRouterNet(n, r.id, net) && exists p, q :: Faces(n, r, net, p, q)
  {
    if p, q :| Reaches(n, p, q) && Forgets(n, r, net, p, q) {
      var c0 := ForgottenFaces(n, r, net, p, q);
    }
    if p, q :| Serves(r) && OnRouterNet(n, r.id, net) && Faces(n, r, net, p, q) {
      FacesIsForgotten(n, r, net, p, q);
    }
  }

  ghost predicate ProviderOn(n: Neutron, r: Id, p: Port) {
    p in n.ports && IsProvider(p) && OnRouterNet(n, r, p.network)
  }

  lemma StruckPairsOnRouter(n: Neutron, r: Router, net: Id)
    requires Sane(n) && HostsTogether(n) && r.id in n.routers
    ensures Struck(n, r, net) <= RouterPairs(n, r.id)
  {
    forall s | s in Struck(n, r, net) ensures s in RouterPairs(n, r.id) {
      var p, q :| p in n.ports && q in n.ports && IsProvider(p) && IsProvider(q) && s == Sight(p.id, q.id)
                  && Linked(n, p.network, q.network) && Hit(n, r, net, p.mgntIp.value, q);
      StruckOnRouter(n, r, net, p, q);
    }
  }

  /** Processed in order, the attachment puts right what the detachment before it took away. */
  lemma ReattachmentRepairs(c: Cluster, r: Id, net: Id, d: Cluster, e: Cluster)
    requires Sane(c.n) && HostsTogether(c.n) && Step(c, ProcessDetach(r, net), d) && Step(d, ProcessAttach(r), e)
    requires Serves(c.n.routers[r])
    ensures e.struck <= c.struck
    ensures forall p, q :: ProviderOn(c.n, r, p) && ProviderOn(c.n, r, q) ==> Knows(VmStore(e, p), q)
  {
    var n, router := c.n, c.n.routers[r];
    StruckPairsOnRouter(n, router, net);
    forall p, q | ProviderOn(n, r, p) && ProviderOn(n, r, q) ensures Knows(VmStore(e, p), q) {
      var x :| x in n.ports && x.deviceId == r && x.network == p.network;
      var y :| y in n.ports && y.deviceId == r && y.network == q.network;
      AttachTeaches(n, router, d.stores, x, p, y, q);
    }
  }

  /** Two networks taken off one router before either removal is processed never forget each
      other: processing both leaves what their VMs hold of each other. */
  lemma DoubleDetachmentIsMissed(n: Neutron, r: Router, a: Id, b: Id, stores: Stores, p: Port, q: Port)
    requires Sane(n) && r.id in n.routers && n.routers[r.id] == r && Serves(r)
    requires forall y :: y in n.ports && y.deviceId == r.id ==> y.network != a && y.network != b
    requires p in n.ports && p.network == a && p.mgntIp.Some? && q in n.ports && q.network == b && !Linked(n, a, b)
    requires Holds(StoreOf(stores, p.mgntIp.value), q.id)
    ensures Holds(StoreOf(Detached(n, r, b, Detached(n, r, a, stores)), p.mgntIp.value), q.id)
  {
    FirstOfTwo(n, r, a, stores, p, q);
    SecondOfTwo(n, r, a, b, Detached(n, r, a, stores), p, q);
  }

  lemma NotConnected(n: Neutron, r: Router, net: Id, a: Id, p: Port)
    requires Sane(n) && r.id in n.routers && forall y :: y in n.ports && y.deviceId == r.id ==> y.network != a
    requires p in n.ports && p.network == a && p.mgntIp.Some?
    ensures p !in ConnectedPorts(n, r, net)
    ensures p.mgntIp.value !in VmsOf(ConnectedPorts(n, r, net), [])
  {
    forall c0 | c0 in ConnectedPorts(n, r, net) ensures c0 in n.ports && !Linked(n, p.network, c0.network) {
      var ifaces := RemainingIfaces(n, r, net);
      PortsOnMembers(n, NetsOf(ifaces));
      NetsOfMembers(ifaces, c0.network);
      var x :| x in ifaces && x.network == c0.network;
      RemainingIfacesMembers(n, r, net);
      Apart(n, r, a, x);
    }
    VmsOfMembers(ConnectedPorts(n, r, net), [], p.mgntIp.value);
  }

  lemma FirstOfTwo(n: Neutron, r: Router, a: Id, stores: Stores, p: Port, q: Port)
    requires Sane(n) && r.id in n.routers && n.routers[r.id] == r && Serves(r)
    requires forall y :: y in n.ports && y.deviceId == r.id ==> y.network != a && y.network != q.network
    requires p in n.ports && p.network == a && p.mgntIp.Some? && q in n.ports
    requires Holds(StoreOf(stores, p.mgntIp.value), q.id)
    ensures Holds(StoreOf(Detached(n, r, a, stores), p.mgntIp.value), q.id)
  {
    var m, connected, ifaces := p.mgntIp.value, ConnectedPorts(n, r, a), RemainingIfaces(n, r, a);
    var b1, b2 := ToDb(DetachedInfo(n, a)), ToDb(ConnectedInfo(n, r, a));
    NotConnected(n, r, a, a, p);
    var first := if connected == [] then stores else Broadcast(stores, Delete(Locs(b1)), VmsOf(connected, []));
    BroadcastAt(stores, Delete(Locs(b1)), VmsOf(connected, []), m);
    BroadcastAt(first, Delete(Locs(b2)), VmsOf(NetworkPorts(n, a), []), m);
    RemainingIfacesMembers(n, r, a);
    RouterNetsKnown(n, None, ifaces);
    MentionsPort(n, connected, Some(r), ifaces, q.id);
    PortsOnMembers(n, NetsOf(ifaces));
    NetsOfMembers(ifaces, q.network);
    assert q !in connected;
    DeleteLookup(StoreOf(first, m), b2, Loc(LportTable, q.id));
  }

  lemma SecondOfTwo(n: Neutron, r: Router, a: Id, b: Id, stores: Stores, p: Port, q: Port)
    requires Sane(n) && r.id in n.routers && n.routers[r.id] == r && Serves(r)
    requires forall y :: y in n.ports && y.deviceId == r.id ==> y.network != a && y.network != b
    requires p in n.ports && p.network == a && p.mgntIp.Some? && q in n.ports && q.network == b && !Linked(n, a, b)
    requires Holds(StoreOf(stores, p.mgntIp.value), q.id)
    ensures Holds(StoreOf(Detached(n, r, b, stores), p.mgntIp.value), q.id)
  {
    var m, connected := p.mgntIp.value, ConnectedPorts(n, r, b);
    var b1, b2 := ToDb(DetachedInfo(n, b)), ToDb(ConnectedInfo(n, r, b));
    NotConnected(n, r, b, a, p);
    NetworkPortsMembers(n, b);
    VmsOfMembers(NetworkPorts(n, b), [], m);
    assert m !in VmsOf(NetworkPorts(n, b), []);
    var first := if connected == [] then stores else Broadcast(stores, Delete(Locs(b1)), VmsOf(connected, []));
    BroadcastAt(stores, Delete(Locs(b1)), VmsOf(connected, []), m);
    BroadcastAt(first, Delete(Locs(b2)), VmsOf(NetworkPorts(n, b), []), m);
  }

  /** A VM holds, after its port was processed, exactly the groups of that port: those of
      another port on the same VM are gone. */
  lemma SharedVmForgetsGroups(n: Neutron, r: Port, nets: seq<Id>, stores: Stores, g: Secgroup)
    requires Sane(n) && r in n.ports && IsProvider(r) && g in n.sgs
    ensures KnowsGroup(StoreOf(PortUpdated(n, r, nets, true, stores), r.mgntIp.value), g) <==> g.id in r.sgs
  {
    if g.id in r.sgs {
      OwnVmGetsGroups(n, r, nets, stores, g);
    } else {
      var info, m := PortUpdateInfo(n, r, nets), r.mgntIp.value;
      var told := Broadcast(stores, Update(Announcement(info)), PortNeighbours(n, r, nets));
      BroadcastAt(told, Apply(ToDb(info)), {m}, m);
      PortViewIsCurrent(n, r, nets);
      CurrentIsConsistent(n, ToDb(info));
      GroupsNamedMembers(n.sgs, r.sgs);
      forall e | e in ToDb(info) ensures e.At() != Loc(SecgroupTable, g.id) {
        ToDbMembers(info, e);
      }
      ApplyLookup(StoreOf(told, m), ToDb(info), Loc(SecgroupTable, g.id));
    }
  }

  lemma ChassisPosition(i: Info, j: nat)
    requires ToDb(i) != [] && j < |i.chassis|
    ensures var k := |Head(i)| + |i.lswitches| + j;
            k < |ToDb(i)| && ToDb(i)[k] == ChassisEntry(i.chassis[j])
  {
    var k := |i.lswitches| + j;
    assert Tail(i)[k] == Entries(i.chassis, ChassisEntry)[j];
    assert ToDb(i)[|Head(i)| + k] == Tail(i)[k];
  }

  /** A batch with two chassis of one host names that chassis twice, and as a delete it fails
      on BSD whatever the store holds. */
  lemma SharedHostFailsOnBsd(info: Info, s: B.Bsd, i: nat, j: nat)
    requires ToDb(info) != [] && i < j < |info.chassis| && info.chassis[i].id == info.chassis[j].id
    ensures B.Removable(s, Locs(ToDb(info))) < |Locs(ToDb(info))|
  {
    var ls := Locs(ToDb(info));
    ChassisPosition(info, i);
    ChassisPosition(info, j);
    var k := |Head(info)| + |info.lswitches|;
    assert ls[k + i] == ls[k + j];
    B.DeleteSucceedsIff(s, ls);
  }
}
