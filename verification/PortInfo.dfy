/** Port infos: the records of a port and of everything it can reach, and the entry list
    they are written to. */
module PortInfo {
  import opened Records
  import opened Batches
  import opened Neutron

  datatype Tunnel = Tunnel(ip: string, host: string)

  datatype Endpoint = Endpoint(tunnels: seq<Tunnel>, tunnelType: string)

  const VXLAN := "vxlan"

  // ----- records

  function LportOf(p: Port): Lport {
    Lport(p.id, p.network, p.host, p.owner, p.deviceId, p.providerIp, p.mgntIp, p.sgs, p.info)
  }

  /** A record is faithful: the port can be read back from it. */
  function PortOf(l: Lport): Port {
    Port(l.id, l.lswitch, l.owner, l.deviceId, l.chassis, l.providerIp, l.mgntIp, l.sgs, l.info)
  }

  function LswitchOf(n: Neutron, net: Id): Lswitch
    requires net in n.networks
  {
    Lswitch(net, n.networks[net])
  }

  function LrouterPorts(ports: seq<Port>): seq<LrouterPort> {
    seq(|ports|, i requires 0 <= i < |ports| => LrouterPort(ports[i].id, ports[i].network, ports[i].info))
  }

  function LrouterOf(r: Router, ports: seq<Port>): Lrouter {
    Lrouter(r.id, r.info, LrouterPorts(ports))
  }

  function ChassisOfPort(p: Port): Chassis
    requires IsProvider(p)
  {
    Chassis(p.host, p.providerIp.value, VXLAN)
  }

  // ----- what the records say, field by field

  ghost predicate LportSays(l: Lport, p: Port) {
    && l.id == p.id && l.lswitch == p.network && l.chassis == p.host
    && l.owner == p.owner && l.deviceId == p.deviceId && l.providerIp == p.providerIp
    && l.mgntIp == p.mgntIp && l.sgs == p.sgs && l.info == p.info
  }

  ghost predicate LswitchSays(s: Lswitch, n: Neutron, net: Id) {
    net in n.networks && s.id == net && s.info == n.networks[net]
  }

  ghost predicate ChassisSays(c: Chassis, p: Port) {
    c.id == p.host && Some(c.ip) == p.providerIp && c.tunnelType == "vxlan"
  }

  ghost predicate LrouterSays(v: Lrouter, r: Router, ports: seq<Port>) {
    && v.id == r.id && v.info == r.info && |v.ports| == |ports|
    && forall i :: 0 <= i < |ports| ==>
         v.ports[i].id == ports[i].id && v.ports[i].lswitch == ports[i].network && v.ports[i].info == ports[i].info
  }

  lemma LrouterOfSays(v: Lrouter, r: Router, ports: seq<Port>)
    ensures LrouterSays(v, r, ports) <==> v == LrouterOf(r, ports)
  {
    if LrouterSays(v, r, ports) {
      assert v.ports == LrouterPorts(ports);
    }
  }

  function ComputeLports(ports: seq<Port>): seq<Lport> {
    if ports == [] then []
    else ComputeLports(ports[..|ports| - 1])
         + if IsCompute(ports[|ports| - 1]) then [LportOf(ports[|ports| - 1])] else []
  }

  function ChassisOfPorts(ports: seq<Port>): seq<Chassis> {
    if ports == [] then []
    else ChassisOfPorts(ports[..|ports| - 1])
         + if IsProvider(ports[|ports| - 1]) then [ChassisOfPort(ports[|ports| - 1])] else []
  }

  function TunnelChassis(ts: seq<Tunnel>, tunnelType: string): seq<Chassis> {
    seq(|ts|, i requires 0 <= i < |ts| => Chassis(ts[i].host, ts[i].ip, tunnelType))
  }

  function EndpointChassis(es: seq<Endpoint>): seq<Chassis> {
    if es == [] then []
    else EndpointChassis(es[..|es| - 1]) + TunnelChassis(es[|es| - 1].tunnels, es[|es| - 1].tunnelType)
  }

  /** The networks of the ports, each at its first occurrence after those already listed. */
  function AddedNets(nets: seq<Id>, ports: seq<Port>): seq<Id> {
    if ports == [] then nets
    else
      var init, net := AddedNets(nets, ports[..|ports| - 1]), ports[|ports| - 1].network;
      if net in init then init else init + [net]
  }

  ghost predicate NetsKnown(n: Neutron, nets: seq<Id>) {
    forall x :: x in nets ==> x in n.networks
  }

  function LswitchesOf(n: Neutron, nets: seq<Id>): seq<Lswitch>
    requires NetsKnown(n, nets)
  {
    seq(|nets|, i requires 0 <= i < |nets| => LswitchOf(n, nets[i]))
  }

  lemma {:induction false} ComputeLportsMembers(ports: seq<Port>, l: Lport)
    ensures l in ComputeLports(ports) <==> PortOf(l) in ports && IsCompute(PortOf(l))
  {
    if ports == [] {
    } else {
      var init, last := ports[..|ports| - 1], ports[|ports| - 1];
      ComputeLportsMembers(init, l);
      assert ports == init + [last];
      assert LportOf(PortOf(l)) == l && PortOf(LportOf(last)) == last;
    }
  }

  lemma {:induction false} ChassisOfPortsMembers(ports: seq<Port>, c: Chassis)
    ensures c in ChassisOfPorts(ports) <==> exists p :: p in ports && IsProvider(p) && ChassisOfPort(p) == c
  {
    if ports == [] {
    } else {
      var init, last := ports[..|ports| - 1], ports[|ports| - 1];
      ChassisOfPortsMembers(init, c);
      assert ports == init + [last];
      if p :| p in ports && IsProvider(p) && ChassisOfPort(p) == c {
        assert p in init || p == last;
      }
    }
  }

  lemma {:induction false} AddedNetsMembers(nets: seq<Id>, ports: seq<Port>)
    ensures forall x :: x in AddedNets(nets, ports) <==> x in nets || exists p :: p in ports && p.network == x
    ensures NoDup(nets) ==> NoDup(AddedNets(nets, ports))
  {
    if ports == [] {
    } else {
      var init, last := ports[..|ports| - 1], ports[|ports| - 1];
      AddedNetsMembers(nets, init);
      assert ports == init + [last];
      forall x ensures x in AddedNets(nets, ports) <==> x in nets || exists p :: p in ports && p.network == x {
        if p :| p in ports && p.network == x {
          assert p in init || p == last;
        }
      }
    }
  }

  // ----- entries

  function LportEntry(l: Lport): Entry { Entry(LportTable, l.id, LportValue(l)) }

  function SecgroupEntry(g: Secgroup): Entry { Entry(SecgroupTable, g.id, SecgroupValue(g)) }

  function LswitchEntry(s: Lswitch): Entry { Entry(LswitchTable, s.id, LswitchValue(s)) }

  function ChassisEntry(c: Chassis): Entry { Entry(ChassisTable, c.id, ChassisValue(c)) }

  function LrouterEntry(r: Lrouter): Entry { Entry(LrouterTable, r.id, LrouterValue(r)) }

  function Entries<T>(xs: seq<T>, f: T -> Entry): Batch {
    seq(|xs|, i requires 0 <= i < |xs| => f(xs[i]))
  }

  function OptionEntries<T>(x: Option<T>, f: T -> Entry): Batch {
    match x case Some(v) => [f(v)] case None => []
  }

  lemma EntriesMembers<T>(xs: seq<T>, f: T -> Entry, e: Entry)
    ensures e in Entries(xs, f) <==> exists x :: x in xs && f(x) == e
  {
    if x :| x in xs && f(x) == e {
      var i :| 0 <= i < |xs| && xs[i] == x;
      assert Entries(xs, f)[i] == e;
    }
  }

  lemma EntriesOfAppend<T>(xs: seq<T>, i: nat, f: T -> Entry)
    requires i < |xs|
    ensures Entries(xs[..i + 1], f) == Entries(xs[..i], f) + [f(xs[i])]
  {
  }

  // ----- what a port info holds

  datatype Info = Info(lport: Option<Lport>, otherLports: seq<Lport>, secgroups: seq<Secgroup>,
                       lswitches: seq<Lswitch>, chassis: seq<Chassis>, lrouter: Option<Lrouter>)

  function OwnNets(port: Option<Port>): seq<Id> {
    match port case Some(p) => [p.network] case None => []
  }

  function OwnGroups(n: Neutron, port: Option<Port>): seq<Secgroup> {
    match port case Some(p) => GroupsNamed(n.sgs, p.sgs) case None => []
  }

  function InfoOf(n: Neutron, port: Option<Port>, others: seq<Port>, endpoints: seq<Endpoint>,
                  router: Option<Router>, routerPorts: seq<Port>): Info
    requires NetsKnown(n, AddedNets(OwnNets(port), routerPorts))
  {
    Info(if port.Some? then Some(LportOf(port.value)) else None,
         ComputeLports(others),
         OwnGroups(n, port),
         LswitchesOf(n, AddedNets(OwnNets(port), routerPorts)),
         EndpointChassis(endpoints),
         if router.Some? then Some(LrouterOf(router.value, routerPorts)) else None)
  }

  /** The three kinds of entries that decide whether a batch is empty. */
  function Head(i: Info): Batch {
    OptionEntries(i.lport, LportEntry) + Entries(i.otherLports, LportEntry) + Entries(i.secgroups, SecgroupEntry)
  }

  function Tail(i: Info): Batch {
    Entries(i.lswitches, LswitchEntry) + Entries(i.chassis, ChassisEntry) + OptionEntries(i.lrouter, LrouterEntry)
  }

  /** `to_db`: a list that is still empty when the switches are due is not appended to. */
  function ToDb(i: Info): Batch {
    if Head(i) == [] then [] else Head(i) + Tail(i)
  }

  function ChassisAt(cs: seq<Chassis>, host: string): Batch {
    if cs == [] then []
    else ChassisAt(cs[..|cs| - 1], host) + if cs[|cs| - 1].id == host then [ChassisEntry(cs[|cs| - 1])] else []
  }

  /** The chassis entries of one host, or of all when no host is named. */
  function ChassisOf(cs: seq<Chassis>, only: Option<string>): Batch {
    if only.Some? then ChassisAt(cs, only.value) else Entries(cs, ChassisEntry)
  }

  lemma ChassisOfAppend(cs: seq<Chassis>, i: nat, only: Option<string>)
    requires i < |cs|
    ensures ChassisOf(cs[..i + 1], only) == ChassisOf(cs[..i], only)
              + if only.None? || cs[i].id == only.value then [ChassisEntry(cs[i])] else []
  {
    assert cs[..i + 1][..i] == cs[..i];
    EntriesOfAppend(cs, i, ChassisEntry);
  }

  /** What a port update tells the other VMs: the port, and its host's chassis. */
  function Announcement(i: Info): Batch {
    match i.lport
    case Some(l) => [LportEntry(l)] + ChassisAt(i.chassis, l.chassis)
    case None => []
  }

  lemma {:induction false} ChassisAtMembers(cs: seq<Chassis>, host: string, e: Entry)
    ensures e in ChassisAt(cs, host) <==> exists c :: c in cs && c.id == host && ChassisEntry(c) == e
  {
    if cs == [] {
    } else {
      var init, last := cs[..|cs| - 1], cs[|cs| - 1];
      ChassisAtMembers(init, host, e);
      assert cs == init + [last];
      if c :| c in cs && c.id == host && ChassisEntry(c) == e {
        assert c in init || c == last;
      }
    }
  }

  /** The exact content of a batch, entry by entry. */
  lemma ToDbMembers(i: Info, e: Entry)
    ensures e in ToDb(i) <==>
            (i.lport.Some? || i.otherLports != [] || i.secgroups != []) &&
            match e.table
            case LportTable =>
              (i.lport.Some? && e == LportEntry(i.lport.value)) || exists l :: l in i.otherLports && LportEntry(l) == e
            case SecgroupTable => exists g :: g in i.secgroups && SecgroupEntry(g) == e
            case LswitchTable => exists s :: s in i.lswitches && LswitchEntry(s) == e
            case ChassisTable => exists c :: c in i.chassis && ChassisEntry(c) == e
            case LrouterTable => i.lrouter.Some? && e == LrouterEntry(i.lrouter.value)
            case Named(_) => false
  {
    EntriesMembers(i.otherLports, LportEntry, e);
    EntriesMembers(i.secgroups, SecgroupEntry, e);
    EntriesMembers(i.lswitches, LswitchEntry, e);
    EntriesMembers(i.chassis, ChassisEntry, e);
    assert |Head(i)| == (if i.lport.Some? then 1 else 0) + |i.otherLports| + |i.secgroups|;
    assert e in Head(i) <==> e in OptionEntries(i.lport, LportEntry) || e in Entries(i.otherLports, LportEntry)
                             || e in Entries(i.secgroups, SecgroupEntry);
    assert e in Tail(i) <==> e in Entries(i.lswitches, LswitchEntry) || e in Entries(i.chassis, ChassisEntry)
                             || e in OptionEntries(i.lrouter, LrouterEntry);
    assert e in ToDb(i) <==> Head(i) != [] && (e in Head(i) || e in Tail(i));
  }

  // ----- what a port info says

  lemma {:induction false} EndpointChassisMembers(es: seq<Endpoint>, c: Chassis)
    ensures c in EndpointChassis(es) <==>
            exists e, t :: e in es && t in e.tunnels && c == Chassis(t.host, t.ip, e.tunnelType)
  {
    if es == [] {
    } else {
      var init, last := es[..|es| - 1], es[|es| - 1];
      EndpointChassisMembers(init, c);
      assert es == init + [last];
      if e, t :| e in es && t in e.tunnels && c == Chassis(t.host, t.ip, e.tunnelType) {
        if e == last {
          var i :| 0 <= i < |last.tunnels| && last.tunnels[i] == t;
          assert TunnelChassis(last.tunnels, last.tunnelType)[i] == c;
        }
      }
    }
  }

  lemma LswitchesOfMembers(n: Neutron, nets: seq<Id>, s: Lswitch)
    requires NetsKnown(n, nets)
    ensures s in LswitchesOf(n, nets) <==> s.id in nets && LswitchSays(s, n, s.id)
  {
    if s.id in nets && LswitchSays(s, n, s.id) {
      var i :| 0 <= i < |nets| && nets[i] == s.id;
      assert LswitchesOf(n, nets)[i] == s;
    }
  }

  /** The switches are those of the port's own network and of the router ports' networks. */
  ghost predicate SwitchWanted(port: Option<Port>, routerPorts: seq<Port>, net: Id) {
    (port.Some? && port.value.network == net) || exists p :: p in routerPorts && p.network == net
  }

  /** A port info, record by record, from what it was built. */
  ghost predicate InfoSays(i: Info, n: Neutron, port: Option<Port>, others: seq<Port>, endpoints: seq<Endpoint>,
                           router: Option<Router>, routerPorts: seq<Port>)
  {
    && (i.lport.Some? <==> port.Some?) && (port.Some? ==> LportSays(i.lport.value, port.value))
    && (forall l :: l in i.otherLports <==> exists p :: p in others && IsCompute(p) && LportSays(l, p))
    && (forall g :: g in i.secgroups <==> port.Some? && g in n.sgs && g.id in port.value.sgs)
    && (forall s :: s in i.lswitches <==> SwitchWanted(port, routerPorts, s.id) && LswitchSays(s, n, s.id))
    && (forall c :: c in i.chassis <==>
          exists e, t :: e in endpoints && t in e.tunnels && c == Chassis(t.host, t.ip, e.tunnelType))
    && (i.lrouter.Some? <==> router.Some?) && (router.Some? ==> LrouterSays(i.lrouter.value, router.value, routerPorts))
  }

  lemma InfoOfSays(n: Neutron, port: Option<Port>, others: seq<Port>, endpoints: seq<Endpoint>,
                   router: Option<Router>, routerPorts: seq<Port>)
    requires NetsKnown(n, AddedNets(OwnNets(port), routerPorts))
    ensures InfoSays(InfoOf(n, port, others, endpoints, router, routerPorts),
                     n, port, others, endpoints, router, routerPorts)
  {
    var i, nets := InfoOf(n, port, others, endpoints, router, routerPorts), AddedNets(OwnNets(port), routerPorts);
    forall l ensures l in i.otherLports <==> exists p :: p in others && IsCompute(p) && LportSays(l, p) {
      ComputeLportsMembers(others, l);
      assert LportSays(l, PortOf(l));
      assert forall p :: LportSays(l, p) ==> p == PortOf(l);
    }
    if port.Some? {
      GroupsNamedMembers(n.sgs, port.value.sgs);
    }
    AddedNetsMembers(OwnNets(port), routerPorts);
    forall s ensures s in i.lswitches <==> SwitchWanted(port, routerPorts, s.id) && LswitchSays(s, n, s.id) {
      LswitchesOfMembers(n, nets, s);
    }
    forall c ensures c in i.chassis <==>
                     exists e, t :: e in endpoints && t in e.tunnels && c == Chassis(t.host, t.ip, e.tunnelType)
    {
      EndpointChassisMembers(endpoints, c);
    }
    if router.Some? {
      LrouterOfSays(i.lrouter.value, router.value, routerPorts);
    }
  }
}
