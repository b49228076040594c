/** Security groups: a VM with one port holds the current rules of every processed group
    that its processed port belongs to. */
module Groups {
  import opened Records
  import opened Batches
  import opened Drivers
  import opened Neutron
  import opened PortInfo
  import opened Actions
  import opened ServerBatches
  import opened Cluster

  ghost predicate OnePortPerVm(n: Neutron) {
    forall p, q :: p in n.ports && q in n.ports && p.mgntIp.Some? && p.mgntIp == q.mgntIp ==> p == q
  }

  ghost predicate GroupDue(c: Cluster, p: Port, g: Secgroup) {
    && p in c.n.ports && IsProvider(p) && p.id !in c.dirty
    && g in c.n.sgs && g.id !in c.dirtyGroups && g.id in p.sgs
  }

  ghost predicate KnowsGroup(s: Store, g: Secgroup) {
    Lookup(s, Loc(SecgroupTable, g.id)) == Some(SecgroupValue(g))
  }

  ghost predicate GroupsComplete(c: Cluster) {
    forall p, g :: GroupDue(c, p, g) ==> KnowsGroup(VmStore(c, p), g)
  }

  // ----- batches that carry no security group

  lemma AnnouncementHasNoGroup(n: Neutron, r: Port, nets: seq<Id>, k: Id)
    requires WellFormed(n) && r in n.ports
    ensures !Mentions(Announcement(PortUpdateInfo(n, r, nets)), Loc(SecgroupTable, k))
  {
    var info := PortUpdateInfo(n, r, nets);
    forall e | e in Announcement(info) ensures e.table != SecgroupTable {
      if e != LportEntry(LportOf(r)) {
        ChassisAtMembers(info.chassis, r.host, e);
      }
    }
  }

  lemma NoOwnPortNoGroup(n: Neutron, others: seq<Port>, router: Option<Router>, ifaces: seq<Port>, k: Id)
    requires NetsKnown(n, AddedNets([], ifaces))
    ensures !Mentions(ToDb(InfoOf(n, None, others, EndpointsOf(others), router, ifaces)), Loc(SecgroupTable, k))
  {
    var info := InfoOf(n, None, others, EndpointsOf(others), router, ifaces);
    assert info.secgroups == [];
    forall e | e in ToDb(info) ensures e.table != SecgroupTable {
      ToDbMembers(info, e);
    }
  }

  lemma UpdateKeepsGroup(s: Store, b: Batch, g: Secgroup)
    requires Consistent(b) && !Mentions(b, Loc(SecgroupTable, g.id)) && KnowsGroup(s, g)
    ensures KnowsGroup(StoreStep(s, Update(b)), g)
  {
    UpdateLookup(s, b, Loc(SecgroupTable, g.id));
  }

  // ----- steps

  lemma OwnVmGetsGroups(n: Neutron, r: Port, nets: seq<Id>, stores: Stores, g: Secgroup)
    requires Sane(n) && r in n.ports && IsProvider(r) && g in n.sgs && g.id in r.sgs
    ensures KnowsGroup(StoreOf(PortUpdated(n, r, nets, true, stores), r.mgntIp.value), g)
  {
    var info, m := PortUpdateInfo(n, r, nets), r.mgntIp.value;
    var told := Broadcast(stores, Update(Announcement(info)), PortNeighbours(n, r, nets));
    BroadcastAt(told, Apply(ToDb(info)), {m}, m);
    GroupsNamedMembers(n.sgs, r.sgs);
    ToDbMembers(info, SecgroupEntry(g));
    PortViewIsCurrent(n, r, nets);
    CurrentIsConsistent(n, ToDb(info));
    ApplyLookup(StoreOf(told, m), ToDb(info), Loc(SecgroupTable, g.id));
  }

  lemma OtherVmKeepsGroups(n: Neutron, r: Port, nets: seq<Id>, answers: bool, stores: Stores, m: Vm, g: Secgroup)
    requires Sane(n) && r in n.ports && IsProvider(r) && (answers ==> m != r.mgntIp.value)
    requires KnowsGroup(StoreOf(stores, m), g)
    ensures KnowsGroup(StoreOf(PortUpdated(n, r, nets, answers, stores), m), g)
  {
    var info := PortUpdateInfo(n, r, nets);
    var b, vms := Announcement(info), PortNeighbours(n, r, nets);
    BroadcastAt(stores, Update(b), vms, m);
    BroadcastAt(Broadcast(stores, Update(b), vms), Apply(ToDb(info)), {r.mgntIp.value}, m);
    AnnouncementIsCurrent(n, r, nets);
    CurrentIsConsistent(n, b);
    AnnouncementHasNoGroup(n, r, nets, g.id);
    if m in vms {
      UpdateKeepsGroup(StoreOf(stores, m), b, g);
    }
  }

  lemma PortKeepsGroups(c: Cluster, r: Port, nets: seq<Id>, answers: bool, d: Cluster)
    requires Sane(c.n) && OnePortPerVm(c.n) && GroupsComplete(c)
    requires r in c.n.ports && PortProcessed(c, r, nets, answers, d)
    ensures GroupsComplete(d)
  {
    forall p, g | GroupDue(d, p, g) ensures KnowsGroup(VmStore(d, p), g) {
      if p == r && answers && IsProvider(r) {
        OwnVmGetsGroups(c.n, r, nets, c.stores, g);
      } else {
        assert GroupDue(c, p, g);
        if IsProvider(r) {
          OtherVmKeepsGroups(c.n, r, nets, answers, c.stores, p.mgntIp.value, g);
        }
      }
    }
  }

  lemma GroupKeepsGroups(c: Cluster, id: Id, d: Cluster)
    requires Sane(c.n) && GroupsComplete(c) && Step(c, ProcessGroup(id), d)
    ensures GroupsComplete(d)
  {
    GroupByIdFinds(c.n.sgs, id);
    forall p, g | GroupDue(d, p, g) ensures KnowsGroup(VmStore(d, p), g) {
      if GroupById(c.n.sgs, id).Some? {
        var h, m := GroupById(c.n.sgs, id).value, p.mgntIp.value;
        var b, vms := [SecgroupEntry(h)], VmsOf(GroupPorts(c.n, h.id), []);
        BroadcastAt(c.stores, Update(b), vms, m);
        UpdateLookup(StoreOf(c.stores, m), b, Loc(SecgroupTable, g.id));
        assert SecgroupEntry(h) in b && SecgroupEntry(h).At() == Loc(SecgroupTable, h.id);
        if g == h {
          GroupPortsMembers(c.n, h.id);
          VmsOfMembers(GroupPorts(c.n, h.id), [], m);
        } else {
          assert GroupDue(c, p, g);
          if m in vms {
            UpdateKeepsGroup(StoreOf(c.stores, m), b, g);
          }
        }
      } else {
        assert GroupDue(c, p, g);
      }
    }
  }

  lemma AttachKeepsGroups(c: Cluster, r: Id, d: Cluster)
    requires Sane(c.n) && GroupsComplete(c) && Step(c, ProcessAttach(r), d)
    ensures GroupsComplete(d)
  {
    var n, router := c.n, c.n.routers[r];
    forall p, g | GroupDue(d, p, g) ensures KnowsGroup(VmStore(d, p), g) {
      assert GroupDue(c, p, g);
      if Serves(router) {
        var b, vms, m := ToDb(AttachInfo(n, router)), VmsOf(AttachedPorts(n, router), []), p.mgntIp.value;
        AttachBatchIsCurrent(n, router);
        CurrentIsConsistent(n, b);
        DevicePortsMembers(n, r);
        RouterNetsKnown(n, None, DevicePorts(n, r));
        NoOwnPortNoGroup(n, AttachedPorts(n, router), Some(router), DevicePorts(n, r), g.id);
        BroadcastAt(c.stores, Update(b), vms, m);
        if m in vms {
          UpdateKeepsGroup(StoreOf(c.stores, m), b, g);
        }
      }
    }
  }

  lemma DeleteKeepsGroup(n: Neutron, ports: seq<Port>, router: Option<Router>, ifaces: seq<Port>, s: Store, g: Secgroup)
    requires NetsKnown(n, AddedNets([], ifaces)) && KnowsGroup(s, g)
    ensures KnowsGroup(StoreStep(s, Delete(Locs(ToDb(InfoOf(n, None, ports, EndpointsOf(ports), router, ifaces))))), g)
  {
    NoOwnPortNoGroup(n, ports, router, ifaces, g.id);
    DeleteLookup(s, ToDb(InfoOf(n, None, ports, EndpointsOf(ports), router, ifaces)), Loc(SecgroupTable, g.id));
  }

  lemma DetachKeepsGroups(c: Cluster, r: Id, net: Id, d: Cluster)
    requires Sane(c.n) && GroupsComplete(c) && Step(c, ProcessDetach(r, net), d)
    ensures GroupsComplete(d)
  {
    var n, router := c.n, c.n.routers[r];
    var connected := ConnectedPorts(n, router, net);
    var del1, del2 := Delete(Locs(ToDb(DetachedInfo(n, net)))), Delete(Locs(ToDb(ConnectedInfo(n, router, net))));
    var vms1, vms2 := VmsOf(connected, []), VmsOf(NetworkPorts(n, net), []);
    RemainingIfacesMembers(n, router, net);
    RouterNetsKnown(n, None, RemainingIfaces(n, router, net));
    forall p, g | GroupDue(d, p, g) ensures KnowsGroup(VmStore(d, p), g) {
      assert GroupDue(c, p, g);
      if Serves(router) {
        var m := p.mgntIp.value;
        var first := if connected == [] then c.stores else Broadcast(c.stores, del1, vms1);
        BroadcastAt(c.stores, del1, vms1, m);
        DeleteKeepsGroup(n, NetworkPorts(n, net), None, [], StoreOf(c.stores, m), g);
        BroadcastAt(first, del2, vms2, m);
        DeleteKeepsGroup(n, connected, Some(router), RemainingIfaces(n, router, net), StoreOf(first, m), g);
      }
    }
  }

  lemma StepKeepsGroups(c: Cluster, e: Event, d: Cluster)
    requires Sane(c.n) && Sane(d.n) && OnePortPerVm(c.n) && GroupsComplete(c) && Step(c, e, d)
    ensures GroupsComplete(d)
  {
    match e
    case ProcessPort(id, nets, answers) =>
      PortByIdFinds(c.n.ports, id);
      match PortById(c.n.ports, id) {
        case None =>
          forall p, g | GroupDue(d, p, g) ensures KnowsGroup(VmStore(d, p), g) {
            assert GroupDue(c, p, g);
          }
        case Some(p) => PortKeepsGroups(c, p, nets, answers, d);
      }
    case ProcessGroup(id) => GroupKeepsGroups(c, id, d);
    case ProcessAttach(r) => AttachKeepsGroups(c, r, d);
    case ProcessDetach(r, net) => DetachKeepsGroups(c, r, net, d);
    case _ =>
      forall p, g | GroupDue(d, p, g) ensures KnowsGroup(VmStore(d, p), g) {
        assert GroupDue(c, p, g);
      }
  }

  /** In every run in which a VM has one port at a time, once the latest change of a group and
      of a member port are both processed, in either order, the member's VM holds the group. */
  lemma {:induction false} GroupConvergence(cs: seq<Cluster>, es: seq<Event>)
    requires IsRun(cs, es) && forall i :: 0 <= i < |cs| ==> OnePortPerVm(cs[i].n)
    ensures GroupsComplete(cs[|es|])
  {
    if es == [] {
      assert forall p :: p in cs[0].n.ports ==> p.id in cs[0].dirty;
    } else {
      var k := |es| - 1;
      assert IsRun(cs[..|es|], es[..k]);
      GroupConvergence(cs[..|es|], es[..k]);
      assert Step(cs[k], es[k], cs[k + 1]) && OnePortPerVm(cs[k].n);
      StepKeepsGroups(cs[k], es[k], cs[k + 1]);
    }
  }
}
