/** What the server reads: Neutron's objects, its queries, and the networks that a port's
    traffic can reach through a router. */
module Neutron {
  import opened Records

  datatype Neutron = Neutron(ports: seq<Port>, networks: map<Id, string>,
                             routers: map<Id, Router>, sgs: seq<Secgroup>)

  const ROUTER_INTERFACE_OWNERS: set<string> :=
    {"network:router_gateway", "network:router_interface_distributed"}

  predicate IsIface(p: Port): (b: bool)
    ensures b <==> p.owner == "network:router_gateway" || p.owner == "network:router_interface_distributed"
  {
    p.owner in ROUTER_INTERFACE_OWNERS
  }

  predicate IsCompute(p: Port) { "compute:" <= p.owner }

  /** `_get_provider_port` finds both fields in the binding profile. */
  predicate IsProvider(p: Port) { p.mgntIp.Some? && p.providerIp.Some? }

  // ----- queries

  function Where(ports: seq<Port>, keep: Port -> bool): seq<Port> {
    if ports == [] then []
    else Where(ports[..|ports| - 1], keep) + if keep(ports[|ports| - 1]) then [ports[|ports| - 1]] else []
  }

  function OnNet(net: Id): Port -> bool { (p: Port) => p.network == net }

  function IfaceOn(net: Id): Port -> bool { (p: Port) => p.network == net && IsIface(p) }

  function OfDevice(device: Id): Port -> bool { (p: Port) => p.deviceId == device }

  function InGroup(sg: Id): Port -> bool { (p: Port) => sg in p.sgs }

  function NetworkPorts(n: Neutron, net: Id): seq<Port> {
    Where(n.ports, OnNet(net))
  }

  function DevicePorts(n: Neutron, device: Id): seq<Port> {
    Where(n.ports, OfDevice(device))
  }

  function GroupPorts(n: Neutron, sg: Id): seq<Port> {
    Where(n.ports, InGroup(sg))
  }

  function GroupsNamed(sgs: seq<Secgroup>, ids: seq<Id>): seq<Secgroup> {
    if sgs == [] then []
    else GroupsNamed(sgs[..|sgs| - 1], ids) + if sgs[|sgs| - 1].id in ids then [sgs[|sgs| - 1]] else []
  }

  lemma {:induction false} WhereMembers(ports: seq<Port>, keep: Port -> bool)
    ensures forall p :: p in Where(ports, keep) <==> p in ports && keep(p)
  {
    if ports == [] {
    } else {
      var init, last := ports[..|ports| - 1], ports[|ports| - 1];
      WhereMembers(init, keep);
      assert ports == init + [last];
    }
  }

  lemma WhereAppend(ports: seq<Port>, i: nat, keep: Port -> bool)
    requires i < |ports|
    ensures Where(ports[..i + 1], keep) == Where(ports[..i], keep) + if keep(ports[i]) then [ports[i]] else []
  {
    assert ports[..i + 1][..i] == ports[..i];
  }

  lemma {:induction false} WhereNoDup(ports: seq<Port>, keep: Port -> bool)
    requires NoDup(ports)
    ensures NoDup(Where(ports, keep))
  {
    if ports == [] {
    } else {
      var init, last := ports[..|ports| - 1], ports[|ports| - 1];
      WhereNoDup(init, keep);
      WhereMembers(init, keep);
      assert forall i :: 0 <= i < |init| ==> init[i] == ports[i] && ports[i] != last;
    }
  }

  lemma NetworkPortsMembers(n: Neutron, net: Id)
    ensures forall p :: p in NetworkPorts(n, net) <==> p in n.ports && p.network == net
  {
    WhereMembers(n.ports, OnNet(net));
  }

  lemma DevicePortsMembers(n: Neutron, device: Id)
    ensures forall p :: p in DevicePorts(n, device) <==> p in n.ports && p.deviceId == device
  {
    WhereMembers(n.ports, OfDevice(device));
  }

  lemma GroupPortsMembers(n: Neutron, sg: Id)
    ensures forall p :: p in GroupPorts(n, sg) <==> p in n.ports && sg in p.sgs
  {
    WhereMembers(n.ports, InGroup(sg));
  }

  lemma {:induction false} GroupsNamedMembers(sgs: seq<Secgroup>, ids: seq<Id>)
    ensures forall g :: g in GroupsNamed(sgs, ids) <==> g in sgs && g.id in ids
  {
    if sgs == [] {
    } else {
      var init, last := sgs[..|sgs| - 1], sgs[|sgs| - 1];
      GroupsNamedMembers(init, ids);
      assert sgs == init + [last];
    }
  }

  // ----- what Neutron guarantees about its own data

  ghost predicate UniqueIds(ports: seq<Port>) {
    NoDup(ports) && forall p, q :: p in ports && q in ports && p.id == q.id ==> p == q
  }

  /** Interface ports belong to routers, and the ports of a router are interface ports. */
  ghost predicate Interfaces(n: Neutron) {
    && (forall p :: p in n.ports && IsIface(p) ==> p.deviceId in n.routers)
    && (forall p :: p in n.ports && p.deviceId in n.routers ==> IsIface(p))
    && (forall r :: r in n.routers ==> n.routers[r].id == r)
  }

  /** The server's own assumption: a network is attached to one router at most. */
  ghost predicate OneRouterPerNetwork(n: Neutron) {
    forall p, q :: p in n.ports && q in n.ports && IsIface(p) && IsIface(q) && p.network == q.network ==>
      p.deviceId == q.deviceId
  }

  ghost predicate WellFormed(n: Neutron) {
    && UniqueIds(n.ports)
    && Interfaces(n)
    && (forall p :: p in n.ports ==> p.network in n.networks)
    && (forall g, h :: g in n.sgs && h in n.sgs && g.id == h.id ==> g == h)
  }

  // ----- reachability

  /** The first router found on a network. */
  function RouterOf(n: Neutron, net: Id): Option<Router>
    requires Interfaces(n)
  {
    var ifaces := Where(n.ports, IfaceOn(net));
    WhereMembers(n.ports, IfaceOn(net));
    if ifaces == [] then None
    else assert ifaces[0] in ifaces; Some(n.routers[ifaces[0].deviceId])
  }

  /** The networks a port update looks at: those of the router's ports, whatever the
      router's administrative state, and the port's own. */
  function Domain(n: Neutron, net: Id): set<Id>
    requires Interfaces(n)
  {
    match RouterOf(n, net)
    case None => {net}
    case Some(r) => if r.distributed then {net} + (set p | p in n.ports && p.deviceId == r.id :: p.network) else {net}
  }

  lemma RouterOfFound(n: Neutron, net: Id)
    requires Interfaces(n)
    ensures RouterOf(n, net).Some? ==>
              exists p :: p in n.ports && p.network == net && IsIface(p)
                          && n.routers[p.deviceId] == RouterOf(n, net).value
    ensures RouterOf(n, net).None? ==> forall p :: p in n.ports && p.network == net ==> !IsIface(p)
  {
    var ifaces := Where(n.ports, IfaceOn(net));
    WhereMembers(n.ports, IfaceOn(net));
    if ifaces != [] {
      assert ifaces[0] in ifaces;
    }
  }

  /** Two interface ports of one distributed router join their networks. */
  ghost predicate Joins(n: Neutron, p: Port, q: Port, a: Id, b: Id) {
    && p in n.ports && q in n.ports && IsIface(p) && IsIface(q)
    && p.network == a && q.network == b && p.deviceId == q.deviceId
    && p.deviceId in n.routers && n.routers[p.deviceId].distributed
  }

  ghost predicate Linked(n: Neutron, a: Id, b: Id) {
    a == b || exists p, q :: Joins(n, p, q, a, b)
  }

  /** What a port update computes is exactly being joined by a distributed router. */
  lemma DomainIsLinked(n: Neutron, a: Id, b: Id)
    requires Interfaces(n) && OneRouterPerNetwork(n)
    ensures b in Domain(n, a) <==> Linked(n, a, b)
  {
    RouterOfFound(n, a);
    if a != b && b in Domain(n, a) {
      var r := RouterOf(n, a).value;
      var p :| p in n.ports && p.network == a && IsIface(p) && n.routers[p.deviceId] == r;
      var q :| q in n.ports && q.deviceId == r.id && q.network == b;
      assert Joins(n, p, q, a, b);
    }
    if a != b && Linked(n, a, b) {
      var p, q :| Joins(n, p, q, a, b);
      assert RouterOf(n, a).Some?;
      var p' :| p' in n.ports && p'.network == a && IsIface(p') && n.routers[p'.deviceId] == RouterOf(n, a).value;
      assert p'.deviceId == p.deviceId;
    }
  }

  /** Reachability is an equivalence relation, so the domains partition the networks. */
  lemma DomainIsEquivalence(n: Neutron, a: Id, b: Id, c: Id)
    requires Interfaces(n) && OneRouterPerNetwork(n)
    ensures a in Domain(n, a)
    ensures b in Domain(n, a) ==> a in Domain(n, b)
    ensures b in Domain(n, a) && c in Domain(n, b) ==> c in Domain(n, a)
    ensures b in Domain(n, a) ==> Domain(n, a) == Domain(n, b)
  {
    LinkedSymmetric(n, a, b);
    DomainIsLinked(n, a, b);
    DomainIsLinked(n, b, a);
    LinkedTransitive(n, a, b, c);
    DomainIsLinked(n, b, c);
    DomainIsLinked(n, a, c);
    if b in Domain(n, a) {
      forall x ensures x in Domain(n, a) <==> x in Domain(n, b) {
        DomainIsLinked(n, a, x);
        DomainIsLinked(n, b, x);
        LinkedTransitive(n, a, b, x);
        LinkedTransitive(n, b, a, x);
      }
    }
  }

  lemma LinkedSymmetric(n: Neutron, a: Id, b: Id)
    ensures Linked(n, a, b) ==> Linked(n, b, a)
  {
    if a != b && Linked(n, a, b) {
      var p, q :| Joins(n, p, q, a, b);
      assert Joins(n, q, p, b, a);
    }
  }

  lemma LinkedTransitive(n: Neutron, a: Id, b: Id, c: Id)
    requires OneRouterPerNetwork(n)
    ensures Linked(n, a, b) && Linked(n, b, c) ==> Linked(n, a, c)
  {
    if a != b && b != c && Linked(n, a, b) && Linked(n, b, c) {
      var p, q :| Joins(n, p, q, a, b);
      var q', r :| Joins(n, q', r, b, c);
      assert q.deviceId == q'.deviceId;
      assert Joins(n, p, r, a, c);
    }
  }

  function Gateway(id: Id, net: Id, router: Id): Port {
    Port(id, net, "network:router_gateway", router, "", None, None, [], "")
  }

  /** Network `bb` has an interface of router `r` and one of router `ss`, which also serves `a`. */
  function TwoRouters(): Neutron {
    Neutron([Gateway("1", "bb", "r"), Gateway("22", "bb", "ss"), Gateway("333", "a", "ss")],
            map["a" := "", "bb" := ""],
            map["r" := Router("r", true, true, ""), "ss" := Router("ss", true, true, "")], [])
  }

  lemma TwoRoutersWellFormed()
    ensures WellFormed(TwoRouters())
  {
    var n := TwoRouters();
    assert |n.ports[0].id| == 1 && |n.ports[1].id| == 2 && |n.ports[2].id| == 3;
    assert forall p :: p in n.ports ==> p == n.ports[0] || p == n.ports[1] || p == n.ports[2];
    assert "network:router_gateway" in ROUTER_INTERFACE_OWNERS;
  }

  /** Without the one-router assumption reachability is not even symmetric: a network between
      two routers sees only the first one's side. */
  lemma TwoRoutersBreakSymmetry()
    ensures WellFormed(TwoRouters())
    ensures "bb" in Domain(TwoRouters(), "a") && "a" !in Domain(TwoRouters(), "bb")
  {
    TwoRoutersWellFormed();
    var n := TwoRouters();
    assert |"a"| == 1 && |"bb"| == 2 && |"r"| == 1 && |"ss"| == 2;
    RouterOfFound(n, "a");
    RouterOfFound(n, "bb");
    assert n.ports[2] in n.ports && IsIface(n.ports[2]);
    assert RouterOf(n, "a") == Some(n.routers["ss"]);
    assert n.ports[1] in n.ports && "bb" in Domain(n, "a");
    FirstKept(n.ports, IfaceOn("bb"));
    assert RouterOf(n, "bb") == Some(n.routers["r"]);
  }

  lemma {:induction false} FirstKept(ports: seq<Port>, keep: Port -> bool)
    requires ports != [] && keep(ports[0])
    ensures Where(ports, keep) != [] && Where(ports, keep)[0] == ports[0]
  {
    if |ports| > 1 {
      FirstKept(ports[..|ports| - 1], keep);
    } else {
      assert ports[..0] == [];
    }
  }

  // ----- the ports of several networks

  function PortsOn(n: Neutron, nets: seq<Id>): seq<Port> {
    if nets == [] then [] else PortsOn(n, nets[..|nets| - 1]) + NetworkPorts(n, nets[|nets| - 1])
  }

  lemma {:induction false} PortsOnMembers(n: Neutron, nets: seq<Id>)
    ensures forall p :: p in PortsOn(n, nets) <==> p in n.ports && p.network in nets
  {
    if nets == [] {
    } else {
      var init, last := nets[..|nets| - 1], nets[|nets| - 1];
      PortsOnMembers(n, init);
      NetworkPortsMembers(n, last);
      assert nets == init + [last];
    }
  }

  ghost predicate Enumerates(nets: seq<Id>, s: set<Id>) {
    NoDup(nets) && forall x :: x in nets <==> x in s
  }

  /** Each port of the listed networks appears exactly once. */
  lemma {:induction false} PortsOnNoDup(n: Neutron, nets: seq<Id>)
    requires NoDup(n.ports) && NoDup(nets)
    ensures NoDup(PortsOn(n, nets))
  {
    if nets == [] {
    } else {
      var init, last := nets[..|nets| - 1], nets[|nets| - 1];
      PortsOnNoDup(n, init);
      PortsOnMembers(n, init);
      NetworkPortsMembers(n, last);
      WhereNoDup(n.ports, OnNet(last));
      assert last !in init;
      var xs, ys := PortsOn(n, init), NetworkPorts(n, last);
      assert forall i, j :: 0 <= i < |xs| && 0 <= j < |ys| ==> xs[i] in xs && ys[j] in ys && xs[i] != ys[j];
    }
  }
}
