/** Every batch the server builds says what Neutron holds, so it is consistent and the two
    drivers cannot be told apart on it; and it is closed under the references inside it. */
module ServerBatches {
  import opened Records
  import opened Batches
  import opened Neutron
  import opened PortInfo
  import opened Actions

  /** One provider address per host. */
  ghost predicate OneIpPerHost(n: Neutron) {
    forall p, q :: p in n.ports && q in n.ports && IsProvider(p) && IsProvider(q) && p.host == q.host ==>
      p.providerIp == q.providerIp
  }

  /** An entry holds exactly what Neutron holds for its key. */
  ghost predicate IsCurrent(n: Neutron, e: Entry) {
    match e.table
    case LportTable => exists p :: p in n.ports && LportEntry(LportOf(p)) == e
    case SecgroupTable => exists g :: g in n.sgs && SecgroupEntry(g) == e
    case LswitchTable => e.key in n.networks && e == LswitchEntry(LswitchOf(n, e.key))
    case ChassisTable => exists p :: p in n.ports && IsProvider(p) && ChassisEntry(ChassisOfPort(p)) == e
    case LrouterTable =>
      e.key in n.routers && e == LrouterEntry(LrouterOf(n.routers[e.key], RouterPorts(n, Some(n.routers[e.key]))))
    case Named(_) => false
  }

  /** The same, field by field: every record says of its object what Neutron holds, and a router's
      lists one entry for each of its ports. */
  ghost predicate Describes(n: Neutron, e: Entry) {
    match e.value
    case LportValue(l) => e.table == LportTable && e.key == l.id && exists p :: p in n.ports && LportSays(l, p)
    case SecgroupValue(g) => e.table == SecgroupTable && e.key == g.id && g in n.sgs
    case LswitchValue(s) => e.table == LswitchTable && LswitchSays(s, n, e.key)
    case ChassisValue(c) =>
      e.table == ChassisTable && e.key == c.id && exists p :: p in n.ports && IsProvider(p) && ChassisSays(c, p)
    case LrouterValue(v) =>
      && e.table == LrouterTable && e.key in n.routers
      && LrouterSays(v, n.routers[e.key], if n.routers[e.key].distributed then DevicePorts(n, e.key) else [])
  }

  lemma CurrentIff(n: Neutron, e: Entry)
    requires WellFormed(n)
    ensures IsCurrent(n, e) <==> Describes(n, e)
  {
    match e.value
    case LportValue(l) =>
      if p :| p in n.ports && LportSays(l, p) {
        assert LportOf(p) == l;
      }
    case ChassisValue(c) =>
      if p :| p in n.ports && IsProvider(p) && ChassisSays(c, p) {
        assert ChassisOfPort(p) == c;
      }
    case LrouterValue(v) =>
      if e.key in n.routers {
        LrouterOfSays(v, n.routers[e.key], RouterPorts(n, Some(n.routers[e.key])));
      }
    case _ =>
  }

  ghost predicate CurrentBatch(n: Neutron, b: Batch) {
    forall e :: e in b ==> IsCurrent(n, e)
  }

  lemma CurrentAgree(n: Neutron, e: Entry, f: Entry)
    requires WellFormed(n) && OneIpPerHost(n) && IsCurrent(n, e) && IsCurrent(n, f) && e.At() == f.At()
    ensures e.value == f.value
  {
  }

  lemma CurrentIsConsistent(n: Neutron, b: Batch)
    requires WellFormed(n) && OneIpPerHost(n) && CurrentBatch(n, b)
    ensures Consistent(b)
  {
    forall e, f | e in b && f in b && e.At() == f.At() ensures e.value == f.value {
      CurrentAgree(n, e, f);
    }
  }

  /** A port info whose records are those of ports, switches and a router that Neutron holds. */
  lemma InfoIsCurrent(n: Neutron, own: Option<Port>, others: seq<Port>, all: seq<Port>,
                      router: Option<Router>, e: Entry)
    requires WellFormed(n)
    requires own.Some? ==> own.value in n.ports
    requires forall p :: p in others || p in all ==> p in n.ports
    requires router.Some? ==> router.value.id in n.routers && n.routers[router.value.id] == router.value
    requires NetsKnown(n, AddedNets(OwnNets(own), RouterPorts(n, router)))
    requires e in ToDb(InfoOf(n, own, others, EndpointsOf(all), router, RouterPorts(n, router)))
    ensures IsCurrent(n, e)
  {
    var info := InfoOf(n, own, others, EndpointsOf(all), router, RouterPorts(n, router));
    ToDbMembers(info, e);
    match e.table
    case LportTable =>
      if l :| l in info.otherLports && LportEntry(l) == e {
        ComputeLportsMembers(others, l);
        assert LportOf(PortOf(l)) == l;
      }
    case SecgroupTable =>
      if own.Some? {
        GroupsNamedMembers(n.sgs, own.value.sgs);
      }
    case LswitchTable =>
      var s :| s in info.lswitches && LswitchEntry(s) == e;
    case ChassisTable =>
      EndpointsAreChassis(all);
      var c :| c in info.chassis && ChassisEntry(c) == e;
      ChassisOfPortsMembers(all, c);
    case LrouterTable =>
    case Named(_) =>
  }

  lemma RouterOfHeld(n: Neutron, net: Id)
    requires WellFormed(n)
    ensures RouterOf(n, net).Some? ==>
              RouterOf(n, net).value.id in n.routers && n.routers[RouterOf(n, net).value.id] == RouterOf(n, net).value
  {
    RouterOfFound(n, net);
  }

  /** The view a port update applies is current. */
  lemma PortViewIsCurrent(n: Neutron, r: Port, nets: seq<Id>)
    requires WellFormed(n) && r in n.ports
    ensures CurrentBatch(n, ToDb(PortUpdateInfo(n, r, nets)))
  {
    var all, router := PortsOn(n, nets), RouterOf(n, r.network);
    PortsOnMembers(n, nets);
    RouterOfHeld(n, r.network);
    RouterPortsInN(n, router);
    RouterNetsKnown(n, Some(r), RouterPorts(n, router));
    forall e | e in ToDb(PortUpdateInfo(n, r, nets)) ensures IsCurrent(n, e) {
      RemoveFirstWithin(all, r);
      InfoIsCurrent(n, Some(r), RemoveFirst(all, r), all, router, e);
    }
  }

  lemma {:induction false} RemoveFirstWithin(ports: seq<Port>, p: Port)
    ensures forall q :: q in RemoveFirst(ports, p) ==> q in ports
  {
    if ports == [] {
    } else {
      RemoveFirstWithin(ports[1..], p);
    }
  }

  /** So is what it announces to the neighbours, and it is a part of the same view. */
  lemma AnnouncementIsCurrent(n: Neutron, r: Port, nets: seq<Id>)
    requires WellFormed(n) && r in n.ports
    ensures CurrentBatch(n, Announcement(PortUpdateInfo(n, r, nets)))
    ensures forall e :: e in Announcement(PortUpdateInfo(n, r, nets)) ==> e in ToDb(PortUpdateInfo(n, r, nets))
  {
    var info := PortUpdateInfo(n, r, nets);
    PortViewIsCurrent(n, r, nets);
    forall e | e in Announcement(info) ensures e in ToDb(info) {
      ToDbMembers(info, e);
      if e != LportEntry(LportOf(r)) {
        ChassisAtMembers(info.chassis, r.host, e);
      }
    }
  }

  lemma AttachBatchIsCurrent(n: Neutron, r: Router)
    requires WellFormed(n) && r.id in n.routers && n.routers[r.id] == r && r.distributed
    ensures CurrentBatch(n, ToDb(AttachInfo(n, r)))
  {
    var all := AttachedPorts(n, r);
    PortsOnMembers(n, NetsOf(DevicePorts(n, r.id)));
    DevicePortsMembers(n, r.id);
    RouterNetsKnown(n, None, DevicePorts(n, r.id));
    assert RouterPorts(n, Some(r)) == DevicePorts(n, r.id);
    forall e | e in ToDb(AttachInfo(n, r)) ensures IsCurrent(n, e) {
      InfoIsCurrent(n, None, all, all, Some(r), e);
    }
  }

  /** Every batch the server applies or updates with gives equal locations equal values,
      however often ports and chassis repeat and in whatever order networks are listed. */
  lemma ServerBatchesConsistent(n: Neutron, p: Port, nets: seq<Id>, r: Router)
    requires WellFormed(n) && OneIpPerHost(n) && p in n.ports
    requires r.id in n.routers && n.routers[r.id] == r && r.distributed
    ensures Consistent(ToDb(PortUpdateInfo(n, p, nets)))
    ensures Consistent(Announcement(PortUpdateInfo(n, p, nets)))
    ensures Consistent(ToDb(AttachInfo(n, r)))
  {
    PortViewIsCurrent(n, p, nets);
    AnnouncementIsCurrent(n, p, nets);
    AttachBatchIsCurrent(n, r);
    CurrentIsConsistent(n, ToDb(PortUpdateInfo(n, p, nets)));
    CurrentIsConsistent(n, Announcement(PortUpdateInfo(n, p, nets)));
    CurrentIsConsistent(n, ToDb(AttachInfo(n, r)));
  }

  // ----- what a view contains

  lemma PortViewContains(n: Neutron, r: Port, nets: seq<Id>, q: Port)
    requires WellFormed(n) && r in n.ports && Enumerates(nets, Domain(n, r.network))
    requires q in n.ports && q.network in Domain(n, r.network)
    ensures q == r || IsCompute(q) ==> LportEntry(LportOf(q)) in ToDb(PortUpdateInfo(n, r, nets))
    ensures IsProvider(q) ==> ChassisEntry(ChassisOfPort(q)) in ToDb(PortUpdateInfo(n, r, nets))
  {
    var info, all := PortUpdateInfo(n, r, nets), PortsOn(n, nets);
    PortsOnMembers(n, nets);
    PortsOnNoDup(n, nets);
    RemoveFirstMembers(all, r);
    ComputeLportsMembers(RemoveFirst(all, r), LportOf(q));
    assert PortOf(LportOf(q)) == q;
    ToDbMembers(info, LportEntry(LportOf(q)));
    if IsProvider(q) {
      EndpointsAreChassis(all);
      ChassisOfPortsMembers(all, ChassisOfPort(q));
      ToDbMembers(info, ChassisEntry(ChassisOfPort(q)));
    }
  }

  lemma AnnouncementContains(n: Neutron, r: Port, nets: seq<Id>)
    requires WellFormed(n) && r in n.ports && IsProvider(r) && r.network in nets
    ensures LportEntry(LportOf(r)) in Announcement(PortUpdateInfo(n, r, nets))
    ensures ChassisEntry(ChassisOfPort(r)) in Announcement(PortUpdateInfo(n, r, nets))
  {
    var info, all := PortUpdateInfo(n, r, nets), PortsOn(n, nets);
    PortsOnMembers(n, nets);
    EndpointsAreChassis(all);
    ChassisOfPortsMembers(all, ChassisOfPort(r));
    ChassisAtMembers(info.chassis, r.host, ChassisEntry(ChassisOfPort(r)));
  }

  lemma AttachContains(n: Neutron, r: Router, q: Port)
    requires WellFormed(n) && q in AttachedPorts(n, r) && IsCompute(q)
    ensures LportEntry(LportOf(q)) in ToDb(AttachInfo(n, r))
    ensures IsProvider(q) ==> ChassisEntry(ChassisOfPort(q)) in ToDb(AttachInfo(n, r))
  {
    var all, info := AttachedPorts(n, r), AttachInfo(n, r);
    ComputeLportsMembers(all, LportOf(q));
    assert PortOf(LportOf(q)) == q;
    ToDbMembers(info, LportEntry(LportOf(q)));
    assert info.otherLports != [];
    if IsProvider(q) {
      EndpointsAreChassis(all);
      ChassisOfPortsMembers(all, ChassisOfPort(q));
      ToDbMembers(info, ChassisEntry(ChassisOfPort(q)));
    }
  }

  // ----- closure

  /** Every switch that a port or a router port of the batch refers to is in the batch. */
  ghost predicate SwitchesClosed(b: Batch) {
    && (forall e :: e in b && e.value.LportValue? ==> Mentions(b, Loc(LswitchTable, e.value.lport.lswitch)))
    && (forall e, i :: e in b && e.value.LrouterValue? && 0 <= i < |e.value.lrouter.ports| ==>
          Mentions(b, Loc(LswitchTable, e.value.lrouter.ports[i].lswitch)))
  }

  /** The host of every provider port of the batch is a chassis of the batch. */
  ghost predicate HostsClosed(b: Batch) {
    forall e :: e in b && e.value.LportValue? && IsProvider(PortOf(e.value.lport)) ==>
      Mentions(b, Loc(ChassisTable, e.value.lport.chassis))
  }

  lemma SwitchInBatch(n: Neutron, info: Info, nets: seq<Id>, x: Id)
    requires NetsKnown(n, nets) && info.lswitches == LswitchesOf(n, nets) && x in nets && ToDb(info) != []
    ensures Mentions(ToDb(info), Loc(LswitchTable, x))
  {
    var i :| 0 <= i < |nets| && nets[i] == x;
    assert info.lswitches[i] == LswitchOf(n, x);
    var e := LswitchEntry(LswitchOf(n, x));
    ToDbMembers(info, ToDb(info)[0]);
    ToDbMembers(info, e);
    assert e in ToDb(info) && e.At() == Loc(LswitchTable, x);
  }

  lemma LportInBatch(info: Info, e: Entry)
    requires e in ToDb(info) && e.value.LportValue?
    ensures (info.lport.Some? && e == LportEntry(info.lport.value)) || e.value.lport in info.otherLports
  {
    ToDbMembers(info, e);
  }

  /** A view whose ports lie on the networks of its switches, and whose endpoints were
      collected from its ports, refers to nothing outside itself. */
  lemma InfoIsClosed(n: Neutron, own: Option<Port>, others: seq<Port>, all: seq<Port>,
                     router: Option<Router>, routerPorts: seq<Port>)
    requires NetsKnown(n, AddedNets(OwnNets(own), routerPorts))
    requires own.Some? ==> own.value in all
    requires forall p :: p in others ==> p in all && p.network in AddedNets(OwnNets(own), routerPorts)
    ensures SwitchesClosed(ToDb(InfoOf(n, own, others, EndpointsOf(all), router, routerPorts)))
    ensures HostsClosed(ToDb(InfoOf(n, own, others, EndpointsOf(all), router, routerPorts)))
  {
    var info := InfoOf(n, own, others, EndpointsOf(all), router, routerPorts);
    var nets := AddedNets(OwnNets(own), routerPorts);
    AddedNetsMembers(OwnNets(own), routerPorts);
    forall e | e in ToDb(info) && e.value.LportValue?
      ensures Mentions(ToDb(info), Loc(LswitchTable, e.value.lport.lswitch))
      ensures IsProvider(PortOf(e.value.lport)) ==> Mentions(ToDb(info), Loc(ChassisTable, e.value.lport.chassis))
    {
      var p := PortOf(e.value.lport);
      LportInBatch(info, e);
      ComputeLportsMembers(others, e.value.lport);
      assert p in all && p.network in nets;
      SwitchInBatch(n, info, nets, p.network);
      if IsProvider(p) {
        ChassisInBatch(info, all, p, e);
      }
    }
    forall e, i | e in ToDb(info) && e.value.LrouterValue? && 0 <= i < |e.value.lrouter.ports|
      ensures Mentions(ToDb(info), Loc(LswitchTable, e.value.lrouter.ports[i].lswitch))
    {
      ToDbMembers(info, e);
      assert routerPorts[i] in routerPorts;
      SwitchInBatch(n, info, nets, routerPorts[i].network);
    }
  }

  lemma ChassisInBatch(info: Info, all: seq<Port>, p: Port, e: Entry)
    requires info.chassis == EndpointChassis(EndpointsOf(all)) && p in all && IsProvider(p) && e in ToDb(info)
    ensures Mentions(ToDb(info), Loc(ChassisTable, p.host))
  {
    EndpointsAreChassis(all);
    ChassisOfPortsMembers(all, ChassisOfPort(p));
    ToDbMembers(info, e);
    ToDbMembers(info, ChassisEntry(ChassisOfPort(p)));
    assert ChassisEntry(ChassisOfPort(p)).At() == Loc(ChassisTable, p.host);
  }

  /** The batches of a port update and of an attachment are closed. */
  lemma SnapshotsClosed(n: Neutron, p: Port, nets: seq<Id>, r: Router)
    requires WellFormed(n) && p in n.ports && Enumerates(nets, Domain(n, p.network))
    ensures SwitchesClosed(ToDb(PortUpdateInfo(n, p, nets))) && HostsClosed(ToDb(PortUpdateInfo(n, p, nets)))
    ensures SwitchesClosed(ToDb(AttachInfo(n, r))) && HostsClosed(ToDb(AttachInfo(n, r)))
  {
    var all, router := PortsOn(n, nets), RouterOf(n, p.network);
    PortsOnMembers(n, nets);
    RouterPortsInN(n, router);
    RouterNetsKnown(n, Some(p), RouterPorts(n, router));
    RemoveFirstWithin(all, p);
    AddedNetsMembers([p.network], RouterPorts(n, router));
    InfoIsClosed(n, Some(p), RemoveFirst(all, p), all, router, RouterPorts(n, router));

    var ifaces := DevicePorts(n, r.id);
    DevicePortsMembers(n, r.id);
    RouterNetsKnown(n, None, ifaces);
    AddedNetsMembers([], ifaces);
    PortsOnMembers(n, NetsOf(ifaces));
    forall q | q in AttachedPorts(n, r) ensures q.network in AddedNets([], ifaces) {
      NetsOfMembers(ifaces, q.network);
    }
    InfoIsClosed(n, None, AttachedPorts(n, r), AttachedPorts(n, r), Some(r), ifaces);
  }
}
