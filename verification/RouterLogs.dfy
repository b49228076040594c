/** Router logs, exactly: what every VM holds of every port after an attachment and after a
    detachment. */
module RouterLogs {
  import opened Records
  import opened Batches
  import opened Drivers
  import opened Neutron
  import opened PortInfo
  import opened Actions
  import opened ServerBatches
  import opened Cluster
  import opened Completeness
  import opened Agreement
  import T = TinyDb
  import B = BsdDb

  /** What belongs into the batch of an attachment. */
  ghost predicate InAttachment(n: Neutron, r: Router, l: Loc) {
    match l.table
    case LportTable => exists q :: q in n.ports && q.id == l.key && IsCompute(q) && OnRouterNet(n, r.id, q.network)
    case LswitchTable => OnRouterNet(n, r.id, l.key)
    case ChassisTable => exists q :: q in n.ports && IsProvider(q) && q.host == l.key && OnRouterNet(n, r.id, q.network)
    case LrouterTable => l.key == r.id
    case _ => false
  }

  lemma AttachedIff(n: Neutron, r: Router, q: Port)
    ensures q in AttachedPorts(n, r) <==> q in n.ports && OnRouterNet(n, r.id, q.network)
  {
    DevicePortsMembers(n, r.id);
    PortsOnMembers(n, NetsOf(DevicePorts(n, r.id)));
    NetsOfMembers(DevicePorts(n, r.id), q.network);
  }

  lemma AttachedSwitch(n: Neutron, r: Router, e: Entry)
    requires WellFormed(n) && IsCurrent(n, e) && e.table == LswitchTable
    ensures (exists s :: s in AttachInfo(n, r).lswitches && LswitchEntry(s) == e) <==> OnRouterNet(n, r.id, e.key)
  {
    var ifaces := DevicePorts(n, r.id);
    DevicePortsMembers(n, r.id);
    RouterNetsKnown(n, None, ifaces);
    AddedNetsMembers([], ifaces);
    var listed, info := AddedNets([], ifaces), AttachInfo(n, r);
    if e.key in listed {
      var i :| 0 <= i < |listed| && listed[i] == e.key;
      assert info.lswitches[i] == LswitchOf(n, e.key);
    }
    if s :| s in info.lswitches && LswitchEntry(s) == e {
      var i :| 0 <= i < |listed| && info.lswitches[i] == s;
      assert listed[i] == e.key;
    }
  }

  /** The batch of an attachment is exactly the current records of what the router joins, and
      empty when that includes no compute port. */
  lemma AttachmentBatchExact(n: Neutron, r: Router, e: Entry)
    requires Sane(n) && r.id in n.routers && n.routers[r.id] == r && r.distributed
    ensures e in ToDb(AttachInfo(n, r)) <==>
            Describes(n, e) && InAttachment(n, r, e.At()) && exists q :: q in AttachedPorts(n, r) && IsCompute(q)
  {
    var info, all := AttachInfo(n, r), AttachedPorts(n, r);
    CurrentIff(n, e);
    AttachBatchIsCurrent(n, r);
    ToDbMembers(info, e);
    ComputeIff(all);
    if IsCurrent(n, e) {
      match e.table
      case LportTable =>
        var p :| p in n.ports && LportEntry(LportOf(p)) == e;
        ComputeLportsMembers(all, LportOf(p));
        assert PortOf(LportOf(p)) == p;
        AttachedIff(n, r, p);
      case ChassisTable => AttachedChassis(n, r, e);
      case LswitchTable => AttachedSwitch(n, r, e);
      case _ =>
    }
  }

  lemma ComputeIff(ports: seq<Port>)
    ensures ComputeLports(ports) != [] <==> exists q :: q in ports && IsCompute(q)
  {
    if q :| q in ports && IsCompute(q) {
      ComputeLportsMembers(ports, LportOf(q));
      assert PortOf(LportOf(q)) == q;
    }
    if ComputeLports(ports) != [] {
      ComputeLportsMembers(ports, ComputeLports(ports)[0]);
      assert ComputeLports(ports)[0] in ComputeLports(ports);
    }
  }

  lemma AttachedChassis(n: Neutron, r: Router, e: Entry)
    requires Sane(n) && IsCurrent(n, e) && e.table == ChassisTable
    ensures (exists c :: c in AttachInfo(n, r).chassis && ChassisEntry(c) == e) <==> InAttachment(n, r, e.At())
  {
    var info, all := AttachInfo(n, r), AttachedPorts(n, r);
    var p :| p in n.ports && IsProvider(p) && ChassisEntry(ChassisOfPort(p)) == e;
    EndpointsAreChassis(all);
    ChassisOfPortsMembers(all, ChassisOfPort(p));
    if q :| q in all && IsProvider(q) && ChassisOfPort(q) == ChassisOfPort(p) {
      AttachedIff(n, r, q);
    }
    if q :| q in n.ports && IsProvider(q) && q.host == e.key && OnRouterNet(n, r.id, q.network) {
      AttachedIff(n, r, q);
      assert ChassisOfPort(q) == ChassisOfPort(p);
    }
  }

  /** After the attachment of an enabled distributed router, a VM on its networks holds the
      current record of every compute port on them, and of every other port what it held. */
  lemma AttachmentExact(n: Neutron, r: Router, stores: Stores, p: Port, q: Port)
    requires Sane(n) && r.id in n.routers && n.routers[r.id] == r && Serves(r)
    requires p in AttachedPorts(n, r) && p.mgntIp.Some? && q in n.ports
    ensures Lookup(StoreOf(Attached(n, r, stores), p.mgntIp.value), Loc(LportTable, q.id)) ==
            if q in AttachedPorts(n, r) && IsCompute(q) then Some(LportValue(LportOf(q)))
            else Lookup(StoreOf(stores, p.mgntIp.value), Loc(LportTable, q.id))
  {
    var all, b, m := AttachedPorts(n, r), ToDb(AttachInfo(n, r)), p.mgntIp.value;
    AttachBatchIsCurrent(n, r);
    CurrentIsConsistent(n, b);
    BroadcastAt(stores, Update(b), VmsOf(all, []), m);
    VmsOfMembers(all, [], m);
    UpdateLookup(StoreOf(stores, m), b, Loc(LportTable, q.id));
    DevicePortsMembers(n, r.id);
    RouterNetsKnown(n, None, DevicePorts(n, r.id));
    MentionsPort(n, all, Some(r), DevicePorts(n, r.id), q.id);
    PortsOnMembers(n, NetsOf(DevicePorts(n, r.id)));
    if q in all && IsCompute(q) {
      AttachContains(n, r, q);
    }
  }

  lemma OnlyConnectedSide(n: Neutron, r: Router, net: Id, p: Port)
    requires Sane(n) && r.id in n.routers && forall y :: y in n.ports && y.deviceId == r.id ==> y.network != net
    requires p in n.ports && p.mgntIp.Some?
    ensures p.mgntIp.value in VmsOf(ConnectedPorts(n, r, net), []) ==> OnRouterNet(n, r.id, p.network)
  {
    if p.mgntIp.value in VmsOf(ConnectedPorts(n, r, net), []) {
      PortsOnMembers(n, NetsOf(RemainingIfaces(n, r, net)));
      var c0 := OnSide(n, ConnectedPorts(n, r, net), p);
      ConnectedIff(n, r, net, c0);
      var x :| x in n.ports && x.deviceId == r.id && x.network == c0.network;
      if p.network != c0.network {
        var u, v :| Joins(n, u, v, p.network, c0.network);
        assert u.deviceId == x.deviceId;
      }
    }
  }

  /** A network without an interface of the router is apart from those that have one. */
  lemma Apart(n: Neutron, r: Router, net: Id, x: Port)
    requires Sane(n) && x in n.ports && x.deviceId == r.id && r.id in n.routers && x.network != net
    requires forall y :: y in n.ports && y.deviceId == r.id ==> y.network != net
    ensures !Linked(n, x.network, net) && !Linked(n, net, x.network)
  {
    forall u, v ensures !Joins(n, u, v, x.network, net) && !Joins(n, u, v, net, x.network) {
    }
  }

  lemma OnlyDetachedSide(n: Neutron, r: Router, net: Id, p: Port)
    requires Sane(n) && r.id in n.routers && forall y :: y in n.ports && y.deviceId == r.id ==> y.network != net
    requires p in n.ports && p.mgntIp.Some? && OnRouterNet(n, r.id, p.network)
    ensures p.mgntIp.value !in VmsOf(NetworkPorts(n, net), [])
  {
    var x :| x in n.ports && x.deviceId == r.id && x.network == p.network;
    Apart(n, r, net, x);
    NetworkPortsMembers(n, net);
    VmsOfMembers(NetworkPorts(n, net), [], p.mgntIp.value);
  }

  lemma Sides(n: Neutron, r: Router, net: Id, p: Port)
    requires Sane(n) && r.id in n.routers && forall y :: y in n.ports && y.deviceId == r.id ==> y.network != net
    requires p in n.ports && p.mgntIp.Some? && (p.network == net || OnRouterNet(n, r.id, p.network))
    ensures p.mgntIp.value in VmsOf(ConnectedPorts(n, r, net), []) <==> OnRouterNet(n, r.id, p.network)
    ensures p.mgntIp.value in VmsOf(NetworkPorts(n, net), []) <==> p.network == net
  {
    var m := p.mgntIp.value;
    OnlyConnectedSide(n, r, net, p);
    ConnectedIff(n, r, net, p);
    VmsOfMembers(ConnectedPorts(n, r, net), [], m);
    NetworkPortsMembers(n, net);
    VmsOfMembers(NetworkPorts(n, net), [], m);
    if p.network != net {
      OnlyDetachedSide(n, r, net, p);
    }
  }

  /** After a detachment a VM of either side holds no port of the other side, and of every
      compute port on its own side exactly what it held. */
  lemma DetachmentExact(n: Neutron, r: Router, net: Id, stores: Stores, p: Port, q: Port)
    requires Sane(n) && r.id in n.routers && Serves(r)
    requires forall y :: y in n.ports && y.deviceId == r.id ==> y.network != net
    requires p in n.ports && p.mgntIp.Some? && (p.network == net || OnRouterNet(n, r.id, p.network))
    requires q in n.ports && IsCompute(q)
    ensures Lookup(StoreOf(Detached(n, r, net, stores), p.mgntIp.value), Loc(LportTable, q.id)) ==
            if SplitBy(n, Pair(r.id, net), p.network, q.network) then None
            else Lookup(StoreOf(stores, p.mgntIp.value), Loc(LportTable, q.id))
  {
    DetachLookup(n, r, net, stores, p.mgntIp.value, Loc(LportTable, q.id));
    DetachMentions(n, r, net, q);
    ConnectedIff(n, r, net, q);
    Sides(n, r, net, p);
  }

  /** On what the server applies, the two drivers cannot be told apart, whatever they held. */
  lemma AppliesAgree(n: Neutron, r: Port, nets: seq<Id>, db: T.Tables, s: B.Bsd)
    requires WellFormed(n) && OneIpPerHost(n) && r in n.ports && s.Valid()
    ensures var c := Apply(ToDb(PortUpdateInfo(n, r, nets)));
            Agree(TinyStep(db, c), BsdStep(s, c))
  {
    var b := ToDb(PortUpdateInfo(n, r, nets));
    PortViewIsCurrent(n, r, nets);
    CurrentIsConsistent(n, b);
    forall l ensures FirstValue(b, l) == LastValue(b, l) {
      ConsistentFirstIsLast(b, l);
    }
    ApplyDivergesIff(db, s, b);
  }
}
