/** Two runs over two networks and a distributed router: one that meets every assumption of
    the convergence results and leaves nothing pending, and one in which the server ignores a
    log and a VM keeps a port it can no longer reach. */
module Example {
  import opened Records
  import opened Neutron
  import opened Actions
  import opened Cluster
  import opened Completeness
  import opened Soundness
  import opened Agreement
  import opened Groups

  /** A VM port and a router interface on each of two networks. */
  datatype Cast = Cast(p: Port, q: Port, x: Port, y: Port)

  ghost predicate Fits(k: Cast) {
    && IsProvider(k.p) && IsProvider(k.q) && IsCompute(k.p) && IsCompute(k.q) && !IsIface(k.p) && !IsIface(k.q)
    && IsIface(k.x) && IsIface(k.y) && !IsCompute(k.x) && !IsCompute(k.y) && k.x.mgntIp.None? && k.y.mgntIp.None?
    && k.p.id != k.q.id && k.p.id != k.x.id && k.p.id != k.y.id
    && k.q.id != k.x.id && k.q.id != k.y.id && k.x.id != k.y.id
    && k.p.network == k.x.network && k.q.network == k.y.network && k.p.network != k.q.network
    && k.p.host != k.q.host && k.p.mgntIp != k.q.mgntIp
    && k.x.deviceId == k.y.deviceId && k.p.deviceId != k.x.deviceId && k.q.deviceId != k.x.deviceId
  }

  function R(k: Cast): Id { k.x.deviceId }

  /** The router joins the first network, and with `both` the second. */
  function Net(k: Cast, both: bool, up: bool): Neutron {
    Neutron(if both then [k.p, k.q, k.x, k.y] else [k.p, k.q, k.x], map[k.p.network := "", k.q.network := ""],
            map[R(k) := Router(R(k), true, up, "")], [])
  }

  lemma Members(k: Cast, both: bool, up: bool)
    ensures forall p :: p in Net(k, both, up).ports <==> p == k.p || p == k.q || p == k.x || (both && p == k.y)
  {
    var ports := Net(k, both, up).ports;
    assert ports[0] == k.p && ports[1] == k.q && ports[2] == k.x && (both ==> ports[3] == k.y);
  }

  lemma NetIsWellFormed(k: Cast, both: bool, up: bool)
    requires Fits(k)
    ensures WellFormed(Net(k, both, up)) && OneRouterPerNetwork(Net(k, both, up))
  {
    Members(k, both, up);
    var n := Net(k, both, up);
    assert NoDup(n.ports);
    assert n.networks.Keys == {k.p.network, k.q.network} && n.routers.Keys == {R(k)};
  }

  lemma VmsApart(k: Cast, both: bool, up: bool, p: Port, q: Port)
    requires Fits(k) && p in Net(k, both, up).ports && q in Net(k, both, up).ports
    ensures p.mgntIp.Some? && p.mgntIp == q.mgntIp ==> p == q
    ensures IsProvider(p) && IsProvider(q) && p.host == q.host ==> p == q
    ensures (IsProvider(p) ==> IsCompute(p)) && !(IsIface(p) && IsCompute(p))
  {
    Members(k, both, up);
  }

  lemma NetIsSane(k: Cast, both: bool, up: bool)
    requires Fits(k)
    ensures Sane(Net(k, both, up)) && OnePortPerVm(Net(k, both, up)) && HostsTogether(Net(k, both, up))
  {
    NetIsWellFormed(k, both, up);
    var n := Net(k, both, up);
    forall p, q | p in n.ports && q in n.ports
      ensures p.mgntIp.Some? && p.mgntIp == q.mgntIp ==> p == q
      ensures IsProvider(p) && IsProvider(q) && p.host == q.host ==> p == q
      ensures (IsProvider(p) ==> IsCompute(p)) && !(IsIface(p) && IsCompute(p))
    {
      VmsApart(k, both, up, p, q);
    }
  }

  lemma Joined(k: Cast, both: bool, up: bool)
    requires Fits(k)
    ensures Linked(Net(k, both, up), k.p.network, k.q.network) <==> both
    ensures Linked(Net(k, both, up), k.q.network, k.p.network) <==> both
  {
    Members(k, both, up);
    if both {
      assert Joins(Net(k, both, up), k.x, k.y, k.p.network, k.q.network);
      assert Joins(Net(k, both, up), k.y, k.x, k.q.network, k.p.network);
    }
  }

  lemma DomainAlone(k: Cast, p: Port)
    requires Fits(k) && (p == k.p || p == k.q)
    ensures Interfaces(Net(k, false, true)) && Enumerates([p.network], Domain(Net(k, false, true), p.network))
  {
    var n := Net(k, false, true);
    NetIsSane(k, false, true);
    Members(k, false, true);
    forall a ensures a in Domain(n, p.network) <==> a == p.network {
      DomainIsLinked(n, p.network, a);
    }
    assert [p.network][0] == p.network;
  }

  // ----- runs, step by step

  lemma LongerRun(cs: seq<Cluster>, es: seq<Event>, e: Event, d: Cluster)
    requires IsRun(cs, es) && Step(cs[|es|], e, d) && Sane(d.n)
    ensures IsRun(cs + [d], es + [e])
  {
    var cs', es' := cs + [d], es + [e];
    forall i | 0 <= i < |es'| ensures Step(cs'[i], es'[i], cs'[i + 1]) {
      if i < |es| {
        assert cs'[i] == cs[i] && es'[i] == es[i] && cs'[i + 1] == cs[i + 1];
        assert Step(cs[i], es[i], cs[i + 1]);
      }
    }
  }

  lemma LongerOrderlyRun(cs: seq<Cluster>, es: seq<Event>, e: Event, d: Cluster)
    requires |cs| == |es| + 1 && OrderlyRun(cs, es) && Orderly(cs[|es|], e)
    ensures OrderlyRun(cs + [d], es + [e])
  {
    var cs', es' := cs + [d], es + [e];
    forall i | 0 <= i < |es'| ensures Orderly(cs'[i], es'[i]) {
      if i < |es| {
        assert Orderly(cs[i], es[i]);
      }
    }
  }

  lemma Then(cs: seq<Cluster>, es: seq<Event>, e: Event, d: Cluster) returns (cs': seq<Cluster>, es': seq<Event>)
    requires IsRun(cs, es) && Step(cs[|es|], e, d) && Sane(d.n)
    ensures IsRun(cs', es') && cs'[|es'|] == d
    ensures OrderlyRun(cs, es) && Orderly(cs[|es|], e) ==> OrderlyRun(cs', es')
  {
    LongerRun(cs, es, e, d);
    if OrderlyRun(cs, es) && Orderly(cs[|es|], e) {
      LongerOrderlyRun(cs, es, e, d);
    }
    cs', es' := cs + [d], es + [e];
  }

  function AfterPort(c: Cluster, p: Port, nets: seq<Id>): Cluster
    requires WellFormed(c.n) && p in c.n.ports && IsProvider(p)
  {
    c.(stores := PortUpdated(c.n, p, nets, true, c.stores), dirty := c.dirty - {p.id},
       untold := Without(c.untold, p.id), struck := Without(c.struck, p.id),
       lost := set x | x in c.lost && x.from != p.id)
  }

  lemma PortStep(c: Cluster, p: Port, nets: seq<Id>)
    requires Sane(c.n) && p in c.n.ports && IsProvider(p) && Enumerates(nets, Domain(c.n, p.network))
    ensures Step(c, ProcessPort(p.id, nets, true), AfterPort(c, p, nets))
  {
    PortByIdFinds(c.n.ports, p.id);
    assert PortById(c.n.ports, p.id) == Some(p);
    assert PortProcessed(c, p, nets, true, AfterPort(c, p, nets));
  }

  lemma IgnoredStep(c: Cluster, p: Port)
    requires Sane(c.n) && p in c.n.ports && !IsProvider(p)
    ensures Step(c, ProcessPort(p.id, [], true), c.(dirty := c.dirty - {p.id}))
  {
    PortByIdFinds(c.n.ports, p.id);
    assert PortById(c.n.ports, p.id) == Some(p);
  }

  function AfterPush(c: Cluster, r: Id): Cluster
    requires WellFormed(c.n) && r in c.n.routers
  {
    c.(stores := Attached(c.n, c.n.routers[r], c.stores), attaching := c.attaching - {r},
       untold := if Serves(c.n.routers[r]) then {} else c.untold,
       struck := if Serves(c.n.routers[r]) then {} else c.struck)
  }

  /** A push empties the ledgers when all that is owed is owed on its router. */
  lemma PushStep(c: Cluster, r: Id)
    requires Sane(c.n) && r in c.n.routers && c.untold <= RouterPairs(c.n, r) && c.struck <= RouterPairs(c.n, r)
    ensures Step(c, ProcessAttach(r), AfterPush(c, r))
  {
    var router := c.n.routers[r];
    assert router.id == r;
    assert c.untold - RouterPairs(c.n, r) == {} && c.struck - RouterPairs(c.n, r) == {};
    assert AttachProcessed(c, router, AfterPush(c, r));
  }

  lemma NewPairsOnRouter(k: Cast)
    requires Fits(k)
    ensures NewlyLinked(Net(k, false, true), Net(k, true, true)) <= RouterPairs(Net(k, true, true), R(k))
  {
    forall a, b | a != b && Linked(Net(k, true, true), a, b)
      ensures OnRouterNet(Net(k, true, true), R(k), a) && OnRouterNet(Net(k, true, true), R(k), b)
    {
      OnlyRouter(k, a, b);
    }
    LinksOfOneRouter(Net(k, false, true), Net(k, true, true), R(k));
  }

  lemma LinksOfOneRouter(m: Neutron, n: Neutron, r: Id)
    requires forall a, b :: a != b && Linked(n, a, b) ==> OnRouterNet(n, r, a) && OnRouterNet(n, r, b)
    ensures NewlyLinked(m, n) <= RouterPairs(n, r)
  {
  }

  lemma OnlyRouter(k: Cast, a: Id, b: Id)
    requires Fits(k) && a != b && Linked(Net(k, true, true), a, b)
    ensures OnRouterNet(Net(k, true, true), R(k), a) && OnRouterNet(Net(k, true, true), R(k), b)
  {
    var n := Net(k, true, true);
    var x, y :| Joins(n, x, y, a, b);
    Members(k, true, true);
    assert x.deviceId == R(k) && y.deviceId == R(k);
  }

  // ----- the orderly run

  function AfterPorts(k: Cast): Cluster
    requires Fits(k)
  {
    NetIsSane(k, false, true);
    Members(k, false, true);
    var c := AfterPort(AfterPort(Initial(Net(k, false, true)), k.p, [k.p.network]), k.q, [k.q.network]);
    c.(dirty := c.dirty - {k.x.id})
  }

  ghost predicate EmptyLedgers(c: Cluster) {
    c.untold == {} && c.struck == {} && c.lost == {}
  }

  lemma AfterPortOwesNothing(c: Cluster, p: Port, nets: seq<Id>)
    requires WellFormed(c.n) && p in c.n.ports && IsProvider(p) && EmptyLedgers(c)
    ensures var d := AfterPort(c, p, nets);
            && EmptyLedgers(d) && d.n == c.n && d.gone == c.gone && d.dirty == c.dirty - {p.id}
            && d.attaching == c.attaching && d.detaching == c.detaching
  {
  }

  lemma InitialIds(k: Cast)
    requires Fits(k)
    ensures Initial(Net(k, false, true)).dirty == {k.p.id, k.q.id, k.x.id}
  {
    Members(k, false, true);
    forall id ensures id in Initial(Net(k, false, true)).dirty <==> id == k.p.id || id == k.q.id || id == k.x.id {
    }
  }

  lemma NothingLeftToDo(k: Cast)
    requires Fits(k)
    ensures var c := AfterPorts(k);
            c.n == Net(k, false, true) && c.gone == {} && NoLogPending(c) && EmptyLedgers(c)
  {
    var c := Initial(Net(k, false, true));
    NetIsSane(k, false, true);
    Members(k, false, true);
    InitialIds(k);
    AfterPortOwesNothing(c, k.p, [k.p.network]);
    AfterPortOwesNothing(AfterPort(c, k.p, [k.p.network]), k.q, [k.q.network]);
    assert {k.p.id, k.q.id, k.x.id} - {k.p.id} - {k.q.id} - {k.x.id} == {};
  }

  /** Both VM ports are processed while their networks are apart. */
  lemma PortsProcessed(k: Cast) returns (cs: seq<Cluster>, es: seq<Event>)
    requires Fits(k)
    ensures IsRun(cs, es) && OrderlyRun(cs, es) && cs[|es|] == AfterPorts(k)
  {
    var c0 := Initial(Net(k, false, true));
    NetIsSane(k, false, true);
    Members(k, false, true);
    cs, es := [c0], [];
    cs, es := OnePort(k, cs, es, k.p);
    cs, es := OnePort(k, cs, es, k.q);
    IgnoredStep(cs[|es|], k.x);
    cs, es := Then(cs, es, ProcessPort(k.x.id, [], true), AfterPorts(k));
  }

  lemma OnePort(k: Cast, cs: seq<Cluster>, es: seq<Event>, p: Port) returns (cs': seq<Cluster>, es': seq<Event>)
    requires Fits(k) && (p == k.p || p == k.q)
    requires IsRun(cs, es) && OrderlyRun(cs, es) && cs[|es|].n == Net(k, false, true)
    requires WellFormed(cs[|es|].n) && p in cs[|es|].n.ports
    ensures IsRun(cs', es') && OrderlyRun(cs', es') && cs'[|es'|] == AfterPort(cs[|es|], p, [p.network])
  {
    NetIsSane(k, false, true);
    DomainAlone(k, p);
    PortStep(cs[|es|], p, [p.network]);
    cs', es' := Then(cs, es, ProcessPort(p.id, [p.network], true), AfterPort(cs[|es|], p, [p.network]));
  }

  function WithIface(c: Cluster, k: Cast): Cluster {
    c.(n := Net(k, true, true), attaching := c.attaching + {R(k)})
  }

  ghost function AfterIface(c: Cluster, k: Cast): Cluster {
    WithIface(c, k).(untold := c.untold + NewlyLinked(c.n, Net(k, true, true)))
  }

  lemma IfaceStep(c: Cluster, k: Cast)
    requires Fits(k) && c.n == Net(k, false, true)
    ensures Step(c, AttachIface(k.y), AfterIface(c, k))
  {
    Members(k, false, true);
    Members(k, true, true);
    assert IfaceAdded(c.n, Net(k, true, true), k.y);
  }

  ghost function Joint(k: Cast): Cluster
    requires Fits(k)
  {
    NetIsSane(k, true, true);
    AfterPush(AfterIface(AfterPorts(k), k), R(k))
  }

  /** Then the router is attached to the second network, and that log is processed too. */
  lemma OrderlyRunExists(k: Cast) returns (cs: seq<Cluster>, es: seq<Event>)
    requires Fits(k)
    ensures IsRun(cs, es) && OrderlyRun(cs, es) && cs[|es|] == Joint(k)
  {
    cs, es := PortsProcessed(k);
    NothingLeftToDo(k);
    NetIsSane(k, true, true);
    IfaceStep(AfterPorts(k), k);
    cs, es := Then(cs, es, AttachIface(k.y), AfterIface(AfterPorts(k), k));
    NewPairsOnRouter(k);
    PushStep(AfterIface(AfterPorts(k), k), R(k));
    cs, es := Then(cs, es, ProcessAttach(R(k)), Joint(k));
  }

  lemma JointIsQuiet(k: Cast)
    requires Fits(k)
    ensures var c := Joint(k); c.n == Net(k, true, true) && c.gone == {} && NoLogPending(c) && EmptyLedgers(c)
  {
    NothingLeftToDo(k);
  }

  /** The assumptions of the convergence results can be met: nothing is pending, and the two VMs
      know each other's port only because the attachment was pushed. */
  lemma QuietRunExists(k: Cast) returns (cs: seq<Cluster>, es: seq<Event>)
    requires Fits(k)
    ensures IsRun(cs, es) && OrderlyRun(cs, es) && NoLogPending(cs[|es|]) && EmptyLedgers(cs[|es|])
    ensures cs[|es|] == Joint(k) && InService(cs[|es|].n, k.p.network)
    ensures Due(cs[|es|], k.p, k.q) && Knows(VmStore(cs[|es|], k.p), k.q) && k.p.network != k.q.network
  {
    cs, es := OrderlyRunExists(k);
    JointIsQuiet(k);
    Joined(k, true, true);
    Members(k, true, true);
    Convergence(cs, es);
    assert Due(cs[|es|], k.p, k.q);
  }

  // ----- the run in which a log is ignored

  function Disabled(c: Cluster, k: Cast): Cluster {
    c.(n := Net(k, true, false), attaching := c.attaching + {R(k)})
  }

  ghost function Removed(c: Cluster, k: Cast): Cluster {
    c.(n := Net(k, false, false), detaching := c.detaching + {Pair(R(k), k.y.network)},
       lost := c.lost + NewlyApart(c.n, Net(k, false, false)))
  }

  lemma DisableStep(c: Cluster, k: Cast)
    requires c.n == Net(k, true, true)
    ensures Step(c, SetAdmin(R(k), false), Disabled(c, k))
  {
    assert AdminSet(c.n, Net(k, true, false), R(k), false);
  }

  lemma RemoveStep(c: Cluster, k: Cast)
    requires Fits(k) && c.n == Net(k, true, false)
    ensures Step(c, DetachIface(R(k), k.y.network), Removed(c, k))
  {
    Members(k, true, false);
    Members(k, false, false);
    assert IfaceRemoved(c.n, Net(k, false, false), R(k), k.y.network);
  }

  function DetachIgnored(c: Cluster, k: Cast): Cluster {
    c.(detaching := c.detaching - {Pair(R(k), k.y.network)})
  }

  function PushIgnored(c: Cluster, k: Cast): Cluster {
    c.(attaching := c.attaching - {R(k)})
  }

  lemma IgnoredLogSteps(c: Cluster, k: Cast)
    requires Fits(k) && c.n == Net(k, false, false) && Pair(R(k), k.y.network) in c.detaching
    ensures Step(c, ProcessDetach(R(k), k.y.network), DetachIgnored(c, k))
    ensures Step(DetachIgnored(c, k), ProcessAttach(R(k)), PushIgnored(DetachIgnored(c, k), k))
  {
    NetIsSane(k, false, false);
    assert !Serves(c.n.routers[R(k)]);
  }

  ghost function Leftover(c: Cluster, k: Cast): Cluster {
    PushIgnored(DetachIgnored(Removed(Disabled(c, k), k), k), k)
  }

  /** The router is disabled, its interface removed, and both logs processed. */
  lemma IgnoredRun(k: Cast) returns (cs: seq<Cluster>, es: seq<Event>)
    requires Fits(k)
    ensures IsRun(cs, es) && cs[|es|] == Leftover(Joint(k), k)
  {
    cs, es := OrderlyRunExists(k);
    JointIsQuiet(k);
    var c1 := Disabled(Joint(k), k);
    var c2 := Removed(c1, k);
    NetIsSane(k, true, false);
    NetIsSane(k, false, false);
    DisableStep(Joint(k), k);
    cs, es := Then(cs, es, SetAdmin(R(k), false), c1);
    RemoveStep(c1, k);
    cs, es := Then(cs, es, DetachIface(R(k), k.y.network), c2);
    IgnoredLogSteps(c2, k);
    cs, es := Then(cs, es, ProcessDetach(R(k), k.y.network), DetachIgnored(c2, k));
    cs, es := Then(cs, es, ProcessAttach(R(k)), Leftover(Joint(k), k));
  }

  lemma LeftoverIs(c: Cluster, k: Cast)
    requires NoLogPending(c) && EmptyLedgers(c) && c.gone == {}
    ensures var d := Leftover(c, k);
            && d.n == Net(k, false, false) && d.gone == {} && NoLogPending(d) && d.stores == c.stores
            && d.lost == NewlyApart(Net(k, true, false), Net(k, false, false))
  {
    assert Removed(Disabled(c, k), k).detaching == {Pair(R(k), k.y.network)};
    assert DetachIgnored(Removed(Disabled(c, k), k), k).attaching == {R(k)};
  }

  /** Then nothing is pending, and a VM still holds a port that exists and that it cannot reach.
      Only the ledger of separated ports tells. */
  lemma IgnoredRunExists(k: Cast) returns (cs: seq<Cluster>, es: seq<Event>)
    requires Fits(k)
    ensures IsRun(cs, es) && NoLogPending(cs[|es|]) && cs[|es|].gone == {} && cs[|es|].n == Net(k, false, false)
    ensures Holds(VmStore(cs[|es|], k.p), k.q.id) && !ShouldHold(cs[|es|].n, k.p, k.q.id)
  {
    var before, _ := QuietRunExists(k);
    cs, es := IgnoredRun(k);
    JointIsQuiet(k);
    LeftoverIs(Joint(k), k);
    SameVmStore(Joint(k), Leftover(Joint(k), k), k.p);
    CannotReach(k);
  }

  lemma SameVmStore(c: Cluster, d: Cluster, p: Port)
    requires c.stores == d.stores
    ensures VmStore(c, p) == VmStore(d, p)
  {
  }

  lemma CannotReach(k: Cast)
    requires Fits(k)
    ensures !ShouldHold(Net(k, false, false), k.p, k.q.id)
  {
    Joined(k, false, false);
    Members(k, false, false);
  }

  // ----- such ports exist

  function VmPort(id: Id, net: Id, host: string): Port {
    Port(id, net, "compute:nova", "", host, Some(host), Some(host), [], "")
  }

  function IfacePort(id: Id, net: Id): Port {
    Port(id, net, "network:router_interface_distributed", "r", "", None, None, [], "")
  }

  const TWO_NETWORKS := Cast(VmPort("p", "a", "10.0.0.1"), VmPort("qq", "bb", "10.0.0.22"),
                             IfacePort("xxx", "a"), IfacePort("yyyy", "bb"))

  lemma TwoNetworksFit()
    ensures Fits(TWO_NETWORKS)
  {
    var k := TWO_NETWORKS;
    assert |"compute:nova"| == 12 && |"network:router_gateway"| == 22 && |"network:router_interface_distributed"| == 36;
    assert "compute:" == "compute:nova"[..8];
    assert "compute:"[0] != "network:router_interface_distributed"[0];
    assert |k.p.id| == 1 && |k.q.id| == 2 && |k.x.id| == 3 && |k.y.id| == 4 && |k.p.host| == 8 && |k.q.host| == 9;
    assert |k.p.deviceId| == 0 && |k.x.deviceId| == 1 && |k.p.network| == 1 && |k.q.network| == 2;
  }

  /** So a concrete store keeps what a processed log should have removed. */
  lemma IgnoredLogLeavesPort() returns (cs: seq<Cluster>, es: seq<Event>)
    ensures IsRun(cs, es) && NoLogPending(cs[|es|])
    ensures exists p, k :: p in cs[|es|].n.ports && IsProvider(p) && k !in cs[|es|].gone
              && Holds(VmStore(cs[|es|], p), k) && !ShouldHold(cs[|es|].n, p, k)
  {
    TwoNetworksFit();
    cs, es := IgnoredRunExists(TWO_NETWORKS);
    Members(TWO_NETWORKS, false, false);
    assert IsProvider(TWO_NETWORKS.p);
  }
}
