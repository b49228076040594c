/** What every VM holds at every location after each of the server's actions, said of Neutron's
    objects alone: which VMs are told, which locations change, and to what. */
module Effects {
  import opened Records
  import opened Batches
  import opened Drivers
  import opened Neutron
  import opened PortInfo
  import opened Actions
  import opened ServerBatches
  import opened Cluster
  import opened Completeness
  import opened Views
  import opened RouterLogs

  ghost predicate OnVm(p: Port, m: Vm) { p.mgntIp == Some(m) }

  // ----- a port log

  /** The VM has another port that the port reaches. */
  ghost predicate Neighbour(n: Neutron, r: Port, m: Vm) {
    exists q :: q in n.ports && q != r && OnVm(q, m) && Linked(n, r.network, q.network)
  }

  lemma NeighbourIff(n: Neutron, r: Port, nets: seq<Id>, m: Vm)
    requires Sane(n) && r in n.ports && Enumerates(nets, Domain(n, r.network))
    ensures m in PortNeighbours(n, r, nets) <==> Neighbour(n, r, m)
  {
    var others := RemoveFirst(PortsOn(n, nets), r);
    PortsOnMembers(n, nets);
    PortsOnNoDup(n, nets);
    RemoveFirstMembers(PortsOn(n, nets), r);
    VmsOfMembers(others, [r.id], m);
    forall q | q in n.ports ensures q in others <==> q != r && Linked(n, r.network, q.network) {
      DomainIsLinked(n, r.network, q.network);
    }
    if q :| q in others && q.id !in [r.id] && q.mgntIp == Some(m) {
      assert OnVm(q, m);
    }
    if q :| q in n.ports && q != r && OnVm(q, m) && Linked(n, r.network, q.network) {
      assert q in others && q.id != r.id;
    }
  }

  /** The two locations that a port update announces. */
  predicate Announced(r: Port, l: Loc) { l == Loc(LportTable, r.id) || l == Loc(ChassisTable, r.host) }

  lemma AnnouncementOnly(n: Neutron, r: Port, nets: seq<Id>, e: Entry)
    requires WellFormed(n) && r in n.ports && e in Announcement(PortUpdateInfo(n, r, nets))
    ensures Announced(r, e.At())
  {
    if e != LportEntry(LportOf(r)) {
      ChassisAtMembers(PortUpdateInfo(n, r, nets).chassis, r.host, e);
    }
  }

  lemma AnnouncedRecord(n: Neutron, r: Port, e: Entry)
    requires Sane(n) && r in n.ports && IsProvider(r) && IsCurrent(n, e) && Announced(r, e.At())
    ensures e == LportEntry(LportOf(r)) || e == ChassisEntry(ChassisOfPort(r))
  {
    PortEntriesCurrent(n, r);
    var f := if e.table == LportTable then LportEntry(LportOf(r)) else ChassisEntry(ChassisOfPort(r));
    assert f.At() == e.At();
    CurrentAgree(n, e, f);
    assert e == f;
  }

  lemma AnnouncementExact(n: Neutron, r: Port, nets: seq<Id>, e: Entry)
    requires Sane(n) && r in n.ports && IsProvider(r) && Enumerates(nets, Domain(n, r.network))
    ensures e in Announcement(PortUpdateInfo(n, r, nets)) <==> Describes(n, e) && Announced(r, e.At())
  {
    CurrentIff(n, e);
    if e in Announcement(PortUpdateInfo(n, r, nets)) {
      AnnouncementIsCurrent(n, r, nets);
      AnnouncementOnly(n, r, nets, e);
    }
    if IsCurrent(n, e) && Announced(r, e.At()) {
      InDomain(n, r, nets, r);
      AnnouncementContains(n, r, nets);
      AnnouncedRecord(n, r, e);
    }
  }

  /** After an update, a location reads as the batch's entry for it, or as before. */
  lemma UpdateReads(n: Neutron, s: Store, b: Batch, l: Loc, v: Value)
    requires Sane(n) && CurrentBatch(n, b)
    ensures Lookup(StoreStep(s, Update(b)), l) == Some(v) <==>
            if Mentions(b, l) then Entry(l.table, l.key, v) in b else Lookup(s, l) == Some(v)
  {
    CurrentIsConsistent(n, b);
    UpdateLookup(s, b, l);
    if e :| e in b && e.At() == l {
      assert e == Entry(l.table, l.key, e.value);
      assert Lookup(StoreStep(s, Update(b)), l) == Some(e.value);
    }
  }

  lemma AnnouncementMentions(n: Neutron, r: Port, nets: seq<Id>, l: Loc)
    requires Sane(n) && r in n.ports && IsProvider(r) && Enumerates(nets, Domain(n, r.network))
    ensures Mentions(Announcement(PortUpdateInfo(n, r, nets)), l) <==> Announced(r, l)
  {
    InDomain(n, r, nets, r);
    AnnouncementContains(n, r, nets);
    if e :| e in Announcement(PortUpdateInfo(n, r, nets)) && e.At() == l {
      AnnouncementOnly(n, r, nets, e);
    }
    assert LportEntry(LportOf(r)).At() == Loc(LportTable, r.id);
    assert ChassisEntry(ChassisOfPort(r)).At() == Loc(ChassisTable, r.host);
  }

  /** A port log: the port's own VM, if it answered, holds exactly the view; every other VM that
      the port reaches learns the port and its chassis; nothing else changes. */
  lemma PortEffect(n: Neutron, r: Port, nets: seq<Id>, up: bool, stores: Stores, m: Vm, l: Loc, v: Value)
    requires Sane(n) && r in n.ports && IsProvider(r) && Enumerates(nets, Domain(n, r.network))
    ensures Lookup(StoreOf(PortUpdated(n, r, nets, up, stores), m), l) == Some(v) <==>
            if up && OnVm(r, m) then Describes(n, Entry(l.table, l.key, v)) && InView(n, r, Entry(l.table, l.key, v))
            else if Neighbour(n, r, m) && Announced(r, l) then Describes(n, Entry(l.table, l.key, v))
            else Lookup(StoreOf(stores, m), l) == Some(v)
  {
    if up && OnVm(r, m) {
      AppliedStoreExact(n, r, nets, stores, l, v);
    } else {
      var info := PortUpdateInfo(n, r, nets);
      var b, vms := Announcement(info), PortNeighbours(n, r, nets);
      BroadcastAt(stores, Update(b), vms, m);
      BroadcastAt(Broadcast(stores, Update(b), vms), Apply(ToDb(info)), {r.mgntIp.value}, m);
      NeighbourIff(n, r, nets, m);
      AnnouncementIsCurrent(n, r, nets);
      UpdateReads(n, StoreOf(stores, m), b, l, v);
      AnnouncementMentions(n, r, nets, l);
      AnnouncementExact(n, r, nets, Entry(l.table, l.key, v));
    }
  }

  // ----- a security group log

  /** A group log: exactly the VMs of the group's ports hold the group; nothing else changes. */
  lemma GroupEffect(n: Neutron, g: Secgroup, stores: Stores, m: Vm, l: Loc)
    ensures Lookup(StoreOf(GroupUpdated(n, g, stores), m), l) ==
            if l == Loc(SecgroupTable, g.id) && exists p :: p in n.ports && g.id in p.sgs && OnVm(p, m)
            then Some(SecgroupValue(g)) else Lookup(StoreOf(stores, m), l)
  {
    var b, vms := [SecgroupEntry(g)], VmsOf(GroupPorts(n, g.id), []);
    BroadcastAt(stores, Update(b), vms, m);
    GroupPortsMembers(n, g.id);
    VmsOfMembers(GroupPorts(n, g.id), [], m);
    UpdateLookup(StoreOf(stores, m), b, l);
    assert SecgroupEntry(g) in b && SecgroupEntry(g).At() == Loc(SecgroupTable, g.id);
    if p :| p in n.ports && g.id in p.sgs && OnVm(p, m) {
      assert p in GroupPorts(n, g.id);
    }
    if p :| p in GroupPorts(n, g.id) && p.id !in [] && p.mgntIp == Some(m) {
      assert OnVm(p, m);
    }
  }

  // ----- an attachment log

  ghost predicate OnRouter(n: Neutron, r: Id, p: Port) { p in n.ports && OnRouterNet(n, r, p.network) }

  lemma AttachmentMentions(n: Neutron, r: Router, l: Loc)
    requires Sane(n) && r.id in n.routers && n.routers[r.id] == r && r.distributed
    ensures Mentions(ToDb(AttachInfo(n, r)), l) <==>
            InAttachment(n, r, l) && exists q :: OnRouter(n, r.id, q) && IsCompute(q)
  {
    var b := ToDb(AttachInfo(n, r));
    forall q | q in n.ports ensures q in AttachedPorts(n, r) <==> OnRouter(n, r.id, q) {
      AttachedIff(n, r, q);
    }
    PortsOnMembers(n, NetsOf(DevicePorts(n, r.id)));
    if e :| e in b && e.At() == l {
      AttachmentBatchExact(n, r, e);
    }
    if InAttachment(n, r, l) && exists q :: OnRouter(n, r.id, q) && IsCompute(q) {
      var e := RecordAt(n, r, l);
      AttachmentBatchExact(n, r, e);
      assert e.At() == l;
    }
  }

  /** What belongs into an attachment has a current record. */
  lemma RecordAt(n: Neutron, r: Router, l: Loc) returns (e: Entry)
    requires Sane(n) && r.id in n.routers && n.routers[r.id] == r && InAttachment(n, r, l)
    ensures e.At() == l && Describes(n, e)
  {
    match l.table
    case LportTable =>
      var q :| q in n.ports && q.id == l.key && IsCompute(q) && OnRouterNet(n, r.id, q.network);
      e := LportEntry(LportOf(q));
      CurrentIff(n, e);
    case ChassisTable =>
      var q :| q in n.ports && IsProvider(q) && q.host == l.key && OnRouterNet(n, r.id, q.network);
      e := ChassisEntry(ChassisOfPort(q));
      CurrentIff(n, e);
    case LswitchTable =>
      e := LswitchEntry(LswitchOf(n, l.key));
      CurrentIff(n, e);
    case LrouterTable =>
      e := LrouterEntry(LrouterOf(r, RouterPorts(n, Some(r))));
      CurrentIff(n, e);
  }

  /** An attachment log of an enabled distributed router with a compute port on its networks:
      every VM there holds the current record of everything that the router joins; nothing else
      changes. Any other attachment log changes nothing. */
  lemma AttachEffect(n: Neutron, r: Router, stores: Stores, m: Vm, l: Loc, v: Value)
    requires Sane(n) && r.id in n.routers && n.routers[r.id] == r
    ensures Lookup(StoreOf(Attached(n, r, stores), m), l) == Some(v) <==>
            if && r.distributed && r.adminUp && (exists p :: OnRouter(n, r.id, p) && OnVm(p, m))
               && (exists q :: OnRouter(n, r.id, q) && IsCompute(q)) && InAttachment(n, r, l)
            then Describes(n, Entry(l.table, l.key, v))
            else Lookup(StoreOf(stores, m), l) == Some(v)
  {
    if r.distributed && r.adminUp {
      AttachLookup(n, r, stores, m, l, v);
      AttachedVms(n, r, m);
      AttachmentMentions(n, r, l);
      if Mentions(ToDb(AttachInfo(n, r)), l) {
        AttachmentEntry(n, r, Entry(l.table, l.key, v));
      }
    }
  }

  lemma AttachLookup(n: Neutron, r: Router, stores: Stores, m: Vm, l: Loc, v: Value)
    requires Sane(n) && r.id in n.routers && n.routers[r.id] == r && Serves(r)
    ensures Lookup(StoreOf(Attached(n, r, stores), m), l) == Some(v) <==>
            if m in VmsOf(AttachedPorts(n, r), []) && Mentions(ToDb(AttachInfo(n, r)), l)
            then Entry(l.table, l.key, v) in ToDb(AttachInfo(n, r))
            else Lookup(StoreOf(stores, m), l) == Some(v)
  {
    var b := ToDb(AttachInfo(n, r));
    BroadcastAt(stores, Update(b), VmsOf(AttachedPorts(n, r), []), m);
    AttachBatchIsCurrent(n, r);
    UpdateReads(n, StoreOf(stores, m), b, l, v);
  }

  lemma AttachmentEntry(n: Neutron, r: Router, e: Entry)
    requires Sane(n) && r.id in n.routers && n.routers[r.id] == r && r.distributed
    requires Mentions(ToDb(AttachInfo(n, r)), e.At())
    ensures e in ToDb(AttachInfo(n, r)) <==> Describes(n, e)
  {
    var f :| f in ToDb(AttachInfo(n, r)) && f.At() == e.At();
    AttachmentBatchExact(n, r, f);
    AttachmentBatchExact(n, r, e);
  }

  lemma AttachedVms(n: Neutron, r: Router, m: Vm)
    ensures m in VmsOf(AttachedPorts(n, r), []) <==> exists p :: OnRouter(n, r.id, p) && OnVm(p, m)
  {
    VmsOfMembers(AttachedPorts(n, r), [], m);
    PortsOnMembers(n, NetsOf(DevicePorts(n, r.id)));
    if p :| p in AttachedPorts(n, r) && p.id !in [] && p.mgntIp == Some(m) {
      AttachedIff(n, r, p);
      assert OnVm(p, m);
    }
    if p :| OnRouter(n, r.id, p) && OnVm(p, m) {
      AttachedIff(n, r, p);
    }
  }

  // ----- a detachment log

  /** The port is on a network of the router other than the detached one. */
  ghost predicate OnOtherNet(n: Neutron, r: Id, net: Id, p: Port) {
    p in n.ports && exists x :: x in n.ports && x.deviceId == r && x.network == p.network && x.network != net
  }

  ghost predicate ComputeOnOther(n: Neutron, r: Id, net: Id) {
    exists z :: OnOtherNet(n, r, net, z) && IsCompute(z)
  }

  /** The locations that the connected side is made to forget: ports and chassis of the
      detached network. */
  ghost predicate OfDetached(n: Neutron, net: Id, l: Loc) {
    match l.table
    case LportTable => exists z :: z in n.ports && z.network == net && IsCompute(z) && z.id == l.key
    case ChassisTable => exists z :: z in n.ports && z.network == net && IsProvider(z) && z.host == l.key
    case _ => false
  }

  /** The locations that the detached side is made to forget: ports and chassis of the router's
      other networks, the switches of these networks, and the router; none of them if no compute
      port is there. */
  ghost predicate OfConnected(n: Neutron, r: Id, net: Id, l: Loc) {
    && ComputeOnOther(n, r, net)
    && match l.table
       case LportTable => exists z :: OnOtherNet(n, r, net, z) && IsCompute(z) && z.id == l.key
       case ChassisTable => exists z :: OnOtherNet(n, r, net, z) && IsProvider(z) && z.host == l.key
       case LswitchTable => l.key != net && OnRouterNet(n, r, l.key)
       case LrouterTable => l.key == r
       case _ => false
  }

  // What a batch without an own port names in the remaining tables.

  lemma MentionsSwitch(n: Neutron, ports: seq<Port>, router: Option<Router>, ifaces: seq<Port>, x: Id)
    requires NetsKnown(n, AddedNets([], ifaces))
    ensures Mentions(ToDb(InfoOf(n, None, ports, EndpointsOf(ports), router, ifaces)), Loc(LswitchTable, x)) <==>
            (exists z :: z in ports && IsCompute(z)) && exists i :: i in ifaces && i.network == x
  {
    var info, nets := InfoOf(n, None, ports, EndpointsOf(ports), router, ifaces), AddedNets([], ifaces);
    ComputeIff(ports);
    AddedNetsMembers([], ifaces);
    if e :| e in ToDb(info) && e.At() == Loc(LswitchTable, x) {
      ToDbMembers(info, e);
      var s :| s in info.lswitches && LswitchEntry(s) == e;
      LswitchesOfMembers(n, nets, s);
    }
    if x in nets && ComputeLports(ports) != [] {
      var s := LswitchOf(n, x);
      LswitchesOfMembers(n, nets, s);
      ToDbMembers(info, LswitchEntry(s));
      assert LswitchEntry(s).At() == Loc(LswitchTable, x);
    }
  }

  lemma MentionsRouter(n: Neutron, ports: seq<Port>, router: Option<Router>, ifaces: seq<Port>, x: Id)
    requires NetsKnown(n, AddedNets([], ifaces))
    ensures Mentions(ToDb(InfoOf(n, None, ports, EndpointsOf(ports), router, ifaces)), Loc(LrouterTable, x)) <==>
            (exists z :: z in ports && IsCompute(z)) && router.Some? && router.value.id == x
  {
    var info := InfoOf(n, None, ports, EndpointsOf(ports), router, ifaces);
    ComputeIff(ports);
    if e :| e in ToDb(info) && e.At() == Loc(LrouterTable, x) {
      ToDbMembers(info, e);
    }
    if router.Some? && router.value.id == x && ComputeLports(ports) != [] {
      var e := LrouterEntry(info.lrouter.value);
      ToDbMembers(info, e);
      assert e.At() == Loc(LrouterTable, x);
    }
  }

  lemma MentionsNoOther(n: Neutron, ports: seq<Port>, router: Option<Router>, ifaces: seq<Port>, l: Loc)
    requires NetsKnown(n, AddedNets([], ifaces)) && (l.table == SecgroupTable || l.table.Named?)
    ensures !Mentions(ToDb(InfoOf(n, None, ports, EndpointsOf(ports), router, ifaces)), l)
  {
    var info := InfoOf(n, None, ports, EndpointsOf(ports), router, ifaces);
    assert info.secgroups == [];
    forall e | e in ToDb(info) ensures e.At() != l {
      ToDbMembers(info, e);
    }
  }

  lemma DetachedLocations(n: Neutron, net: Id, l: Loc)
    requires Sane(n)
    ensures Mentions(ToDb(DetachedInfo(n, net)), l) <==> OfDetached(n, net, l)
  {
    var ports := NetworkPorts(n, net);
    NetworkPortsMembers(n, net);
    match l.table
    case LportTable => MentionsPort(n, ports, None, [], l.key);
    case ChassisTable => MentionsHost(n, ports, None, [], l.key);
    case LswitchTable => MentionsSwitch(n, ports, None, [], l.key);
    case LrouterTable => MentionsRouter(n, ports, None, [], l.key);
    case _ => MentionsNoOther(n, ports, None, [], l);
  }

  lemma OtherPorts(n: Neutron, r: Router, net: Id)
    ensures forall z :: z in ConnectedPorts(n, r, net) <==> OnOtherNet(n, r.id, net, z)
    ensures forall x :: (exists i :: i in RemainingIfaces(n, r, net) && i.network == x) <==>
                        x != net && OnRouterNet(n, r.id, x)
  {
    RemainingIfacesMembers(n, r, net);
    forall z ensures z in ConnectedPorts(n, r, net) <==> OnOtherNet(n, r.id, net, z) {
      ConnectedIff(n, r, net, z);
    }
    forall x ensures (exists i :: i in RemainingIfaces(n, r, net) && i.network == x) <==>
                     x != net && OnRouterNet(n, r.id, x)
    {
      if x != net && OnRouterNet(n, r.id, x) {
        var i :| i in n.ports && i.deviceId == r.id && i.network == x;
        assert i in RemainingIfaces(n, r, net);
      }
    }
  }

  lemma ConnectedCompute(n: Neutron, r: Router, net: Id)
    ensures (exists z :: z in ConnectedPorts(n, r, net) && IsCompute(z)) <==> ComputeOnOther(n, r.id, net)
  {
    OtherPorts(n, r, net);
  }

  lemma ConnectedRecords(n: Neutron, r: Router, net: Id, x: Id)
    requires Sane(n)
    ensures Mentions(ToDb(ConnectedInfo(n, r, net)), Loc(LswitchTable, x)) <==>
            ComputeOnOther(n, r.id, net) && x != net && OnRouterNet(n, r.id, x)
    ensures Mentions(ToDb(ConnectedInfo(n, r, net)), Loc(LrouterTable, x)) <==>
            ComputeOnOther(n, r.id, net) && x == r.id
  {
    var ports, ifaces := ConnectedPorts(n, r, net), RemainingIfaces(n, r, net);
    RemainingIfacesMembers(n, r, net);
    RouterNetsKnown(n, None, ifaces);
    ConnectedCompute(n, r, net);
    OtherPorts(n, r, net);
    MentionsSwitch(n, ports, Some(r), ifaces, x);
    MentionsRouter(n, ports, Some(r), ifaces, x);
  }

  lemma ConnectedLports(n: Neutron, r: Router, net: Id, k: Id)
    requires Sane(n)
    ensures Mentions(ToDb(ConnectedInfo(n, r, net)), Loc(LportTable, k)) <==>
            exists z :: OnOtherNet(n, r.id, net, z) && IsCompute(z) && z.id == k
  {
    var ifaces := RemainingIfaces(n, r, net);
    RemainingIfacesMembers(n, r, net);
    RouterNetsKnown(n, None, ifaces);
    OtherPorts(n, r, net);
    MentionsPort(n, ConnectedPorts(n, r, net), Some(r), ifaces, k);
  }

  lemma ConnectedLocations(n: Neutron, r: Router, net: Id, l: Loc)
    requires Sane(n)
    ensures Mentions(ToDb(ConnectedInfo(n, r, net)), l) <==> OfConnected(n, r.id, net, l)
  {
    match l.table
    case LportTable => ConnectedLports(n, r, net, l.key);
    case ChassisTable => ConnectedHosts(n, r, net, l.key);
    case LswitchTable => ConnectedRecords(n, r, net, l.key);
    case LrouterTable => ConnectedRecords(n, r, net, l.key);
    case _ => ConnectedNoOther(n, r, net, l);
  }

  lemma ConnectedNoOther(n: Neutron, r: Router, net: Id, l: Loc)
    requires Sane(n) && (l.table == SecgroupTable || l.table.Named?)
    ensures !Mentions(ToDb(ConnectedInfo(n, r, net)), l)
  {
    RemainingIfacesMembers(n, r, net);
    RouterNetsKnown(n, None, RemainingIfaces(n, r, net));
    MentionsNoOther(n, ConnectedPorts(n, r, net), Some(r), RemainingIfaces(n, r, net), l);
  }

  lemma ConnectedHosts(n: Neutron, r: Router, net: Id, h: string)
    requires Sane(n)
    ensures Mentions(ToDb(ConnectedInfo(n, r, net)), Loc(ChassisTable, h)) <==>
            exists z :: OnOtherNet(n, r.id, net, z) && IsProvider(z) && z.host == h
  {
    DetachMentionsHost(n, r, net, h);
    OtherPorts(n, r, net);
  }

  /** A detachment log of an enabled distributed router: on every VM of the router's other
      networks nothing of the detached network is left, on every VM of the detached network
      nothing of the others, of their switches and of the router; nothing else changes. Any
      other detachment log changes nothing. */
  lemma DetachEffect(n: Neutron, r: Router, net: Id, stores: Stores, m: Vm, l: Loc)
    requires Sane(n)
    ensures Lookup(StoreOf(Detached(n, r, net, stores), m), l) ==
            if r.distributed && r.adminUp &&
               (((exists p :: OnOtherNet(n, r.id, net, p) && OnVm(p, m)) && OfDetached(n, net, l)) ||
                ((exists p :: p in n.ports && p.network == net && OnVm(p, m)) && OfConnected(n, r.id, net, l)))
            then None else Lookup(StoreOf(stores, m), l)
  {
    if r.distributed && r.adminUp {
      DetachLookup(n, r, net, stores, m, l);
      DetachedLocations(n, net, l);
      ConnectedLocations(n, r, net, l);
      SideVms(n, r, net, m);
    }
  }

  lemma SideVms(n: Neutron, r: Router, net: Id, m: Vm)
    ensures m in VmsOf(ConnectedPorts(n, r, net), []) <==> exists p :: OnOtherNet(n, r.id, net, p) && OnVm(p, m)
    ensures m in VmsOf(NetworkPorts(n, net), []) <==> exists p :: p in n.ports && p.network == net && OnVm(p, m)
  {
    VmsOfMembers(ConnectedPorts(n, r, net), [], m);
    VmsOfMembers(NetworkPorts(n, net), [], m);
    NetworkPortsMembers(n, net);
    OtherPorts(n, r, net);
    assert forall p :: OnVm(p, m) <==> p.mgntIp == Some(m);
  }
}
