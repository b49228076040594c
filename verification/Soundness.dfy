/** Nothing is left over: the ports a VM still holds are deleted ones, ones it reaches, or
    ones it was separated from and that no processed log has made it forget. */
module Soundness {
  import opened Records
  import opened Batches
  import opened Drivers
  import opened Neutron
  import opened PortInfo
  import opened Actions
  import opened ServerBatches
  import opened Cluster
  import opened Completeness

  ghost predicate Clean(c: Cluster, p: Port) {
    p in c.n.ports && IsProvider(p) && p.id !in c.dirty
  }

  ghost predicate Explains(c: Cluster, p: Port, q: Port) {
    q in c.n.ports && IsCompute(q) && (Linked(c.n, p.network, q.network) || Sight(p.id, q.id) in c.lost)
  }

  ghost predicate Explained(c: Cluster, p: Port, k: Id) {
    k in c.gone || exists q :: Explains(c, p, q) && q.id == k
  }

  ghost predicate Holds(s: Store, k: Id) { Loc(LportTable, k) in s }

  ghost predicate Sound(c: Cluster) {
    forall p, k :: Clean(c, p) && Holds(VmStore(c, p), k) ==> Explained(c, p, k)
  }

  // ----- Neutron changes

  /** A compute port that is not deleted is still there, on its network, and a compute port. */
  lemma PortStays(c: Cluster, e: Event, d: Cluster, q: Port) returns (q': Port)
    requires Sane(c.n) && Step(c, e, d) && !IsProcess(e)
    requires q in c.n.ports && IsCompute(q) && !(e.DeletePort? && e.id == q.id)
    ensures q' in d.n.ports && q'.id == q.id && q'.network == q.network && IsCompute(q')
  {
    q' := if e.ChangePort? && e.port.id == q.id then e.port else q;
  }

  lemma LinksStay(c: Cluster, e: Event, d: Cluster, a: Id, b: Id)
    requires Sane(c.n) && Step(c, e, d) && !IsProcess(e) && !e.DetachIface? && Linked(c.n, a, b)
    ensures Linked(d.n, a, b)
  {
    if a != b {
      var x, y :| Joins(c.n, x, y, a, b);
      assert Joins(d.n, x, y, a, b);
    }
  }

  lemma ExplainsAfterChange(c: Cluster, e: Event, d: Cluster, p: Port, q: Port) returns (q': Port)
    requires Sane(c.n) && Step(c, e, d) && !IsProcess(e)
    requires p in c.n.ports && IsCompute(p) && p in d.n.ports && Explains(c, p, q) && q.id !in d.gone
    ensures Explains(d, p, q') && q'.id == q.id
  {
    q' := PortStays(c, e, d, q);
    if Linked(c.n, p.network, q.network) {
      if !e.DetachIface? {
        LinksStay(c, e, d, p.network, q.network);
      }
    } else {
      assert !(e.DeletePort? && e.id == p.id);
    }
  }

  lemma ChangeKeepsSound(c: Cluster, e: Event, d: Cluster)
    requires Sane(c.n) && Sane(d.n) && Sound(c) && Step(c, e, d) && !IsProcess(e)
    ensures Sound(d)
  {
    forall p, k | Clean(d, p) && Holds(VmStore(d, p), k) ensures Explained(d, p, k) {
      assert p in c.n.ports && Clean(c, p) && Holds(VmStore(c, p), k);
      if k !in d.gone {
        var q :| Explains(c, p, q) && q.id == k;
        var q' := ExplainsAfterChange(c, e, d, p, q);
      }
    }
  }

  // ----- processing

  /** Steps that leave Neutron and the separations of a port alone. */
  lemma ExplanationsStay(c: Cluster, d: Cluster, p: Port, k: Id)
    requires c.n == d.n && c.gone == d.gone && Explained(c, p, k)
    requires Sight(p.id, k) in c.lost ==> Sight(p.id, k) in d.lost
    ensures Explained(d, p, k)
  {
    if k !in c.gone {
      var q :| Explains(c, p, q) && q.id == k;
      assert Explains(d, p, q);
    }
  }

  lemma LinkedExplains(c: Cluster, p: Port, q: Port)
    requires q in c.n.ports && IsCompute(q) && Linked(c.n, p.network, q.network)
    ensures Explained(c, p, q.id)
  {
    assert Explains(c, p, q);
  }

  lemma ViewPorts(n: Neutron, r: Port, nets: seq<Id>, k: Id)
    requires Sane(n) && r in n.ports && IsProvider(r) && Enumerates(nets, Domain(n, r.network))
    requires Mentions(ToDb(PortUpdateInfo(n, r, nets)), Loc(LportTable, k))
    ensures exists q :: q in n.ports && IsCompute(q) && q.id == k && Linked(n, r.network, q.network)
  {
    var info, all := PortUpdateInfo(n, r, nets), PortsOn(n, nets);
    var e :| e in ToDb(info) && e.At() == Loc(LportTable, k);
    ToDbMembers(info, e);
    if e != LportEntry(LportOf(r)) {
      var l :| l in info.otherLports && LportEntry(l) == e;
      ComputeLportsMembers(RemoveFirst(all, r), l);
      RemoveFirstWithin(all, r);
      PortsOnMembers(n, nets);
      DomainIsLinked(n, r.network, PortOf(l).network);
      assert PortOf(l).id == k;
    }
  }

  lemma AnnouncedPort(n: Neutron, r: Port, nets: seq<Id>, k: Id)
    requires WellFormed(n) && r in n.ports
    requires Mentions(Announcement(PortUpdateInfo(n, r, nets)), Loc(LportTable, k))
    ensures k == r.id
  {
    var info := PortUpdateInfo(n, r, nets);
    var e :| e in Announcement(info) && e.At() == Loc(LportTable, k);
    if e != LportEntry(LportOf(r)) {
      ChassisAtMembers(info.chassis, r.host, e);
    }
  }

  /** A VM that hears of a port can reach it. */
  lemma NeighbourReaches(n: Neutron, r: Port, nets: seq<Id>, p: Port)
    requires Sane(n) && r in n.ports && p in n.ports && Enumerates(nets, Domain(n, r.network))
    requires p.mgntIp.Some? && p.mgntIp.value in PortNeighbours(n, r, nets)
    ensures Linked(n, p.network, r.network)
  {
    var others := RemoveFirst(PortsOn(n, nets), r);
    VmsOfMembers(others, [r.id], p.mgntIp.value);
    var c0 :| c0 in others && c0.mgntIp == p.mgntIp;
    RemoveFirstWithin(PortsOn(n, nets), r);
    PortsOnMembers(n, nets);
    DomainIsLinked(n, r.network, c0.network);
    LinkedSymmetric(n, r.network, c0.network);
    LinkedTransitive(n, p.network, c0.network, r.network);
  }

  /** What a store may hold after a port update: what it held, or what its ports reach. */
  lemma HeldAfterPort(n: Neutron, r: Port, nets: seq<Id>, answers: bool, stores: Stores, p: Port, k: Id)
    requires Sane(n) && r in n.ports && IsProvider(r) && Enumerates(nets, Domain(n, r.network))
    requires p in n.ports && IsProvider(p)
    requires Holds(StoreOf(PortUpdated(n, r, nets, answers, stores), p.mgntIp.value), k)
    ensures (Holds(StoreOf(stores, p.mgntIp.value), k) && !(answers && p == r)) ||
            exists q :: q in n.ports && IsCompute(q) && q.id == k && Linked(n, p.network, q.network)
  {
    var info, m := PortUpdateInfo(n, r, nets), p.mgntIp.value;
    var b, vms := Announcement(info), PortNeighbours(n, r, nets);
    var told := Broadcast(stores, Update(b), vms);
    BroadcastAt(stores, Update(b), vms, m);
    BroadcastAt(told, Apply(ToDb(info)), {r.mgntIp.value}, m);
    AnnouncementIsCurrent(n, r, nets);
    PortViewIsCurrent(n, r, nets);
    CurrentIsConsistent(n, b);
    CurrentIsConsistent(n, ToDb(info));
    if answers && m == r.mgntIp.value {
      ApplyLookup(StoreOf(told, m), ToDb(info), Loc(LportTable, k));
      ViewPorts(n, r, nets, k);
      var q :| q in n.ports && IsCompute(q) && q.id == k && Linked(n, r.network, q.network);
      LinkedTransitive(n, p.network, r.network, q.network);
    } else if m in vms {
      UpdateLookup(StoreOf(stores, m), b, Loc(LportTable, k));
      if Mentions(b, Loc(LportTable, k)) {
        AnnouncedPort(n, r, nets, k);
        NeighbourReaches(n, r, nets, p);
      }
    }
  }

  lemma PortKeepsSound(c: Cluster, r: Port, nets: seq<Id>, answers: bool, d: Cluster)
    requires Sane(c.n) && Sound(c) && r in c.n.ports && PortProcessed(c, r, nets, answers, d)
    ensures Sound(d)
  {
    forall p, k | Clean(d, p) && Holds(VmStore(d, p), k) ensures Explained(d, p, k) {
      if IsProvider(r) {
        HeldAfterPort(c.n, r, nets, answers, c.stores, p, k);
        if q :| q in c.n.ports && IsCompute(q) && q.id == k && Linked(c.n, p.network, q.network) {
          LinkedExplains(d, p, q);
        } else {
          assert Clean(c, p) && (answers ==> p.id != r.id);
          ExplanationsStay(c, d, p, k);
        }
      } else {
        assert Clean(c, p);
        ExplanationsStay(c, d, p, k);
      }
    }
  }

  lemma HeldAfterGroup(n: Neutron, g: Secgroup, stores: Stores, m: Vm, k: Id)
    ensures Holds(StoreOf(GroupUpdated(n, g, stores), m), k) <==> Holds(StoreOf(stores, m), k)
  {
    var b := [SecgroupEntry(g)];
    BroadcastAt(stores, Update(b), VmsOf(GroupPorts(n, g.id), []), m);
    UpdateLookup(StoreOf(stores, m), b, Loc(LportTable, k));
  }

  lemma GroupKeepsSound(c: Cluster, id: Id, d: Cluster)
    requires Sane(c.n) && Sound(c) && Step(c, ProcessGroup(id), d)
    ensures Sound(d)
  {
    forall p, k | Clean(d, p) && Holds(VmStore(d, p), k) ensures Explained(d, p, k) {
      if GroupById(c.n.sgs, id).Some? {
        HeldAfterGroup(c.n, GroupById(c.n.sgs, id).value, c.stores, p.mgntIp.value, k);
      }
      assert Clean(c, p) && Holds(VmStore(c, p), k);
      ExplanationsStay(c, d, p, k);
    }
  }

  lemma AttachedMember(n: Neutron, r: Router, p: Port) returns (x: Port)
    requires p in AttachedPorts(n, r)
    ensures p in n.ports && x in n.ports && x.deviceId == r.id && x.network == p.network
  {
    var ifaces := DevicePorts(n, r.id);
    PortsOnMembers(n, NetsOf(ifaces));
    NetsOfMembers(ifaces, p.network);
    x :| x in ifaces && x.network == p.network;
    DevicePortsMembers(n, r.id);
  }

  lemma HeldAfterAttach(n: Neutron, r: Router, stores: Stores, p: Port, k: Id)
    requires Sane(n) && r.id in n.routers && n.routers[r.id] == r
    requires p in n.ports && IsProvider(p)
    requires Holds(StoreOf(Attached(n, r, stores), p.mgntIp.value), k)
    ensures Holds(StoreOf(stores, p.mgntIp.value), k) ||
            exists q :: q in n.ports && IsCompute(q) && q.id == k && Linked(n, p.network, q.network)
  {
    if Serves(r) {
      var all, b, m := AttachedPorts(n, r), ToDb(AttachInfo(n, r)), p.mgntIp.value;
      BroadcastAt(stores, Update(b), VmsOf(all, []), m);
      AttachBatchIsCurrent(n, r);
      CurrentIsConsistent(n, b);
      UpdateLookup(StoreOf(stores, m), b, Loc(LportTable, k));
      if m in VmsOf(all, []) && Mentions(b, Loc(LportTable, k)) {
        DevicePortsMembers(n, r.id);
        RouterNetsKnown(n, None, DevicePorts(n, r.id));
        MentionsPort(n, all, Some(r), DevicePorts(n, r.id), k);
        var q :| q in all && IsCompute(q) && q.id == k;
        VmsOfMembers(all, [], m);
        var c0 :| c0 in all && c0.mgntIp == p.mgntIp;
        var x := AttachedMember(n, r, c0);
        var y := AttachedMember(n, r, q);
        assert Joins(n, x, y, c0.network, q.network);
        LinkedTransitive(n, p.network, c0.network, q.network);
      }
    }
  }

  lemma AttachKeepsSound(c: Cluster, r: Id, d: Cluster)
    requires Sane(c.n) && Sound(c) && Step(c, ProcessAttach(r), d)
    ensures Sound(d)
  {
    forall p, k | Clean(d, p) && Holds(VmStore(d, p), k) ensures Explained(d, p, k) {
      HeldAfterAttach(c.n, c.n.routers[r], c.stores, p, k);
      if q :| q in c.n.ports && IsCompute(q) && q.id == k && Linked(c.n, p.network, q.network) {
        LinkedExplains(d, p, q);
      } else {
        assert Clean(c, p);
        ExplanationsStay(c, d, p, k);
      }
    }
  }

  lemma SidePorts(n: Neutron, r: Router, net: Id, p: Port)
    requires p in n.ports
    ensures p.network == net <==> p in NetworkPorts(n, net)
    ensures p.network != net && OnRouterNet(n, r.id, p.network) <==> p in ConnectedPorts(n, r, net)
  {
    NetworkPortsMembers(n, net);
    ConnectedIff(n, r, net, p);
  }

  /** A processed detachment leaves, on either side, no port of the other, and adds nothing. */
  lemma HeldAfterDetach(n: Neutron, r: Router, net: Id, stores: Stores, p: Port, q: Port)
    requires Sane(n) && Serves(r) && p in n.ports && p.mgntIp.Some? && q in n.ports && IsCompute(q)
    requires Holds(StoreOf(Detached(n, r, net, stores), p.mgntIp.value), q.id)
    ensures p.network != q.network ==> !SplitBy(n, Pair(r.id, net), p.network, q.network)
  {
    DetachLookup(n, r, net, stores, p.mgntIp.value, Loc(LportTable, q.id));
    DetachMentions(n, r, net, q);
    SidePorts(n, r, net, p);
    SidePorts(n, r, net, q);
    VmsOfMembers(ConnectedPorts(n, r, net), [], p.mgntIp.value);
    VmsOfMembers(NetworkPorts(n, net), [], p.mgntIp.value);
  }

  lemma DetachKeepsSound(c: Cluster, r: Id, net: Id, d: Cluster)
    requires Sane(c.n) && Sound(c) && Step(c, ProcessDetach(r, net), d)
    ensures Sound(d)
  {
    var n, router := c.n, c.n.routers[r];
    forall p, k | Clean(d, p) && Holds(VmStore(d, p), k) ensures Explained(d, p, k) {
      assert Clean(c, p);
      if Serves(router) {
        DetachLookup(n, router, net, c.stores, p.mgntIp.value, Loc(LportTable, k));
        assert Holds(VmStore(c, p), k);
        if k !in c.gone {
          var q :| Explains(c, p, q) && q.id == k;
          HeldAfterDetach(n, router, net, c.stores, p, q);
          if !Linked(n, p.network, q.network) {
            assert Sight(p.id, q.id) !in SidePairs(n, Pair(r, net));
          }
          assert Explains(d, p, q);
        }
      } else {
        ExplanationsStay(c, d, p, k);
      }
    }
  }

  // ----- runs

  lemma NothingKeepsSound(c: Cluster, id: Id, d: Cluster)
    requires Sound(c) && d == c.(dirty := c.dirty - {id}) && forall p :: p in c.n.ports ==> p.id != id
    ensures Sound(d)
  {
    forall p, k | Clean(d, p) && Holds(VmStore(d, p), k) ensures Explained(d, p, k) {
      assert Clean(c, p);
      ExplanationsStay(c, d, p, k);
    }
  }

  lemma PortLogKeepsSound(c: Cluster, id: Id, nets: seq<Id>, answers: bool, d: Cluster)
    requires Sane(c.n) && Sound(c) && Step(c, ProcessPort(id, nets, answers), d)
    ensures Sound(d)
  {
    PortByIdFinds(c.n.ports, id);
    match PortById(c.n.ports, id)
    case None => NothingKeepsSound(c, id, d);
    case Some(p) => PortKeepsSound(c, p, nets, answers, d);
  }

  lemma StepKeepsSound(c: Cluster, e: Event, d: Cluster)
    requires Sane(c.n) && Sane(d.n) && Sound(c) && Step(c, e, d)
    ensures Sound(d)
  {
    if !IsProcess(e) {
      ChangeKeepsSound(c, e, d);
    } else if e.ProcessPort? {
      PortLogKeepsSound(c, e.id, e.nets, e.answers, d);
    } else if e.ProcessGroup? {
      GroupKeepsSound(c, e.id, d);
    } else if e.ProcessAttach? {
      AttachKeepsSound(c, e.router, d);
    } else {
      DetachKeepsSound(c, e.router, e.net, d);
    }
  }

  /** In every run, no VM of a processed port holds an unexplained port. */
  lemma {:induction false} NothingLeftOver(cs: seq<Cluster>, es: seq<Event>)
    requires IsRun(cs, es)
    ensures Sound(cs[|es|])
  {
    if es == [] {
      assert forall p :: p in cs[0].n.ports ==> p.id in cs[0].dirty;
    } else {
      var k := |es| - 1;
      assert IsRun(cs[..|es|], es[..k]);
      NothingLeftOver(cs[..|es|], es[..k]);
      assert Step(cs[k], es[k], cs[k + 1]);
      StepKeepsSound(cs[k], es[k], cs[k + 1]);
    }
  }
}
