/** The view a port update applies, entry by entry: exactly the current records of what the
    port reaches, and what the VM's store is afterwards. */
module Views {
  import opened Records
  import opened Batches
  import opened Drivers
  import opened Neutron
  import opened PortInfo
  import opened Actions
  import opened ServerBatches
  import opened Cluster

  /** What belongs into the view of port `r`. */
  ghost predicate InView(n: Neutron, r: Port, e: Entry)
    requires Interfaces(n)
  {
    match e.table
    case LportTable =>
      exists q :: q in n.ports && q.id == e.key && (q == r || IsCompute(q)) && Linked(n, r.network, q.network)
    case SecgroupTable => e.key in r.sgs
    case LswitchTable => Linked(n, r.network, e.key)
    case ChassisTable =>
      exists q :: q in n.ports && IsProvider(q) && q.host == e.key && Linked(n, r.network, q.network)
    case LrouterTable => RouterOf(n, r.network).Some? && RouterOf(n, r.network).value.id == e.key
    case Named(_) => false
  }

  lemma ViewNets(n: Neutron, r: Port, x: Id)
    requires Sane(n) && r in n.ports
    ensures x in AddedNets([r.network], RouterPorts(n, RouterOf(n, r.network))) <==> Linked(n, r.network, x)
  {
    var router := RouterOf(n, r.network);
    AddedNetsMembers([r.network], RouterPorts(n, router));
    RouterPortsInN(n, router);
    DomainIsLinked(n, r.network, x);
  }

  lemma SwitchInView(n: Neutron, r: Port, nets: seq<Id>, e: Entry)
    requires Sane(n) && r in n.ports && IsCurrent(n, e) && e.table == LswitchTable
    ensures e in ToDb(PortUpdateInfo(n, r, nets)) <==> Linked(n, r.network, e.key)
  {
    var info, router := PortUpdateInfo(n, r, nets), RouterOf(n, r.network);
    var listed := AddedNets([r.network], RouterPorts(n, router));
    RouterPortsInN(n, router);
    RouterNetsKnown(n, Some(r), RouterPorts(n, router));
    ViewNets(n, r, e.key);
    ToDbMembers(info, e);
    if e.key in listed {
      var i :| 0 <= i < |listed| && listed[i] == e.key;
      assert info.lswitches[i] == LswitchOf(n, e.key);
    }
    if s :| s in info.lswitches && LswitchEntry(s) == e {
      var i :| 0 <= i < |listed| && info.lswitches[i] == s;
      assert listed[i] == e.key;
    }
  }

  lemma PortInView(n: Neutron, r: Port, nets: seq<Id>, e: Entry)
    requires Sane(n) && r in n.ports && Enumerates(nets, Domain(n, r.network))
    requires IsCurrent(n, e) && e.table == LportTable
    ensures e in ToDb(PortUpdateInfo(n, r, nets)) <==> InView(n, r, e)
  {
    var info, all := PortUpdateInfo(n, r, nets), PortsOn(n, nets);
    var p :| p in n.ports && LportEntry(LportOf(p)) == e;
    PortsOnMembers(n, nets);
    PortsOnNoDup(n, nets);
    RemoveFirstMembers(all, r);
    ComputeLportsMembers(RemoveFirst(all, r), LportOf(p));
    assert PortOf(LportOf(p)) == p;
    DomainIsLinked(n, r.network, p.network);
    ToDbMembers(info, e);
  }

  lemma ChassisReached(n: Neutron, r: Port, nets: seq<Id>, p: Port)
    requires Sane(n) && Enumerates(nets, Domain(n, r.network)) && p in n.ports && IsProvider(p)
    ensures (exists q :: q in PortsOn(n, nets) && IsProvider(q) && ChassisOfPort(q) == ChassisOfPort(p)) <==>
            exists q :: q in n.ports && IsProvider(q) && q.host == p.host && Linked(n, r.network, q.network)
  {
    PortsOnMembers(n, nets);
    if q :| q in PortsOn(n, nets) && IsProvider(q) && ChassisOfPort(q) == ChassisOfPort(p) {
      DomainIsLinked(n, r.network, q.network);
    }
    if q :| q in n.ports && IsProvider(q) && q.host == p.host && Linked(n, r.network, q.network) {
      DomainIsLinked(n, r.network, q.network);
      assert q in PortsOn(n, nets) && ChassisOfPort(q) == ChassisOfPort(p);
    }
  }

  lemma ChassisInView(n: Neutron, r: Port, nets: seq<Id>, e: Entry)
    requires Sane(n) && r in n.ports && Enumerates(nets, Domain(n, r.network))
    requires IsCurrent(n, e) && e.table == ChassisTable
    ensures e in ToDb(PortUpdateInfo(n, r, nets)) <==> InView(n, r, e)
  {
    var info, all := PortUpdateInfo(n, r, nets), PortsOn(n, nets);
    var p :| p in n.ports && IsProvider(p) && ChassisEntry(ChassisOfPort(p)) == e;
    EndpointsAreChassis(all);
    ChassisOfPortsMembers(all, ChassisOfPort(p));
    ChassisReached(n, r, nets, p);
    ToDbMembers(info, e);
  }

  /** The view of a port is exactly the current records of itself, of the compute ports,
      chassis and switches it reaches, of its router and of its groups. */
  lemma ViewExact(n: Neutron, r: Port, nets: seq<Id>, e: Entry)
    requires Sane(n) && r in n.ports && Enumerates(nets, Domain(n, r.network))
    ensures e in ToDb(PortUpdateInfo(n, r, nets)) <==> Describes(n, e) && InView(n, r, e)
  {
    CurrentIff(n, e);
    PortViewIsCurrent(n, r, nets);
    if IsCurrent(n, e) {
      var info := PortUpdateInfo(n, r, nets);
      ToDbMembers(info, e);
      match e.table
      case LportTable => PortInView(n, r, nets, e);
      case SecgroupTable => GroupsNamedMembers(n.sgs, r.sgs);
      case LswitchTable => SwitchInView(n, r, nets, e);
      case ChassisTable => ChassisInView(n, r, nets, e);
      case LrouterTable => RouterOfHeld(n, r.network);
      case Named(_) =>
    }
  }

  /** So is, location by location, the store of a VM that has answered. */
  lemma AppliedStoreExact(n: Neutron, r: Port, nets: seq<Id>, stores: Stores, l: Loc, v: Value)
    requires Sane(n) && r in n.ports && IsProvider(r) && Enumerates(nets, Domain(n, r.network))
    ensures Lookup(StoreOf(PortUpdated(n, r, nets, true, stores), r.mgntIp.value), l) == Some(v) <==>
            Describes(n, Entry(l.table, l.key, v)) && InView(n, r, Entry(l.table, l.key, v))
  {
    var info, m, e := PortUpdateInfo(n, r, nets), r.mgntIp.value, Entry(l.table, l.key, v);
    var told := Broadcast(stores, Update(Announcement(info)), PortNeighbours(n, r, nets));
    BroadcastAt(told, Apply(ToDb(info)), {m}, m);
    PortViewIsCurrent(n, r, nets);
    CurrentIsConsistent(n, ToDb(info));
    MapOfConsistent(ToDb(info));
    ViewExact(n, r, nets, e);
  }
}
