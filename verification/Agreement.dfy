/** What the three ledgers of a cluster come to: a message still owed about two ports is one
    that a pending log will bring, and when no log is pending every VM agrees with Neutron. */
module Agreement {
  import opened Records
  import opened Neutron
  import opened Actions
  import opened Cluster
  import opened Completeness
  import opened Soundness

  /** A push of this router is still to come, or the router is disabled and pushes nothing. */
  ghost predicate Owed(c: Cluster, r: Id) {
    r in c.attaching || (r in c.n.routers && !c.n.routers[r].adminUp)
  }

  ghost predicate Names(n: Neutron, s: Sight, p: Port, q: Port) {
    p in n.ports && q in n.ports && IsCompute(p) && IsCompute(q) && s == Sight(p.id, q.id)
  }

  /** The ports of a pair survive a change of Neutron that does not delete one of them. */
  lemma NamesStay(c: Cluster, e: Event, d: Cluster, s: Sight, p: Port, q: Port) returns (p': Port, q': Port)
    requires Sane(c.n) && Step(c, e, d) && !IsProcess(e) && Names(c.n, s, p, q)
    requires e.DeletePort? ==> s.from != e.id && s.to != e.id
    ensures Names(d.n, s, p', q') && p'.network == p.network && q'.network == q.network
  {
    p' := PortStays(c, e, d, p);
    q' := PortStays(c, e, d, q);
  }

  // ----- pairs joined by a new interface

  ghost predicate AllOwed(c: Cluster, a: Id, b: Id) {
    a != b && forall x, y :: Joins(c.n, x, y, a, b) ==> Owed(c, x.deviceId)
  }

  ghost predicate UntoldOwed(c: Cluster) {
    forall s :: s in c.untold ==> exists p, q :: Names(c.n, s, p, q) && AllOwed(c, p.network, q.network)
  }

  lemma AllOwedStays(c: Cluster, e: Event, d: Cluster, a: Id, b: Id)
    requires Sane(c.n) && Sane(d.n) && Step(c, e, d) && !IsProcess(e) && AllOwed(c, a, b)
    ensures AllOwed(d, a, b)
  {
    forall x, y | Joins(d.n, x, y, a, b) ensures Owed(d, x.deviceId) {
      if Joins(c.n, x, y, a, b) {
        assert Owed(c, x.deviceId);
      } else {
        assert e.AttachIface? && (x == e.iface || y == e.iface);
      }
    }
  }

  lemma NewPairsAreOwed(c: Cluster, e: Event, d: Cluster, p: Port, q: Port)
    requires Sane(d.n) && Step(c, e, d) && e.AttachIface? && !Linked(c.n, p.network, q.network)
    ensures AllOwed(d, p.network, q.network)
  {
    forall x, y | Joins(d.n, x, y, p.network, q.network) ensures Owed(d, x.deviceId) {
      assert Joins(c.n, x, y, p.network, q.network) || x == e.iface || y == e.iface;
    }
  }

  lemma UntoldAfterChange(c: Cluster, e: Event, d: Cluster)
    requires Sane(c.n) && Sane(d.n) && UntoldOwed(c) && Step(c, e, d) && !IsProcess(e)
    ensures UntoldOwed(d)
  {
    forall s | s in d.untold ensures exists p, q :: Names(d.n, s, p, q) && AllOwed(d, p.network, q.network) {
      if s in c.untold {
        var p, q :| Names(c.n, s, p, q) && AllOwed(c, p.network, q.network);
        var p', q' := NamesStay(c, e, d, s, p, q);
        AllOwedStays(c, e, d, p.network, q.network);
      } else {
        var p, q :| p in d.n.ports && q in d.n.ports && IsCompute(p) && IsCompute(q) && s == Sight(p.id, q.id)
                    && Linked(d.n, p.network, q.network) && !Linked(c.n, p.network, q.network);
        NewPairsAreOwed(c, e, d, p, q);
        assert Names(d.n, s, p, q);
      }
    }
  }

  lemma RouterPairsIff(n: Neutron, r: Id, p: Port, q: Port)
    requires WellFormed(n) && p in n.ports && q in n.ports
    ensures Sight(p.id, q.id) in RouterPairs(n, r) <==> OnRouterNet(n, r, p.network) && OnRouterNet(n, r, q.network)
  {
  }

  lemma SidePairsIff(n: Neutron, u: Pair, p: Port, q: Port)
    requires WellFormed(n) && p in n.ports && q in n.ports
    ensures Sight(p.id, q.id) in SidePairs(n, u) <==> SplitBy(n, u, p.network, q.network)
  {
  }

  /** A push settles what it owes, and only that. */
  lemma OwedAfterAttach(c: Cluster, r: Id, d: Cluster, router: Id)
    requires Step(c, ProcessAttach(r), d) && Owed(c, router)
    ensures Owed(d, router) || (router == r && c.n.routers[r].adminUp)
    ensures Serves(c.n.routers[r]) ==>
              d.struck == c.struck - RouterPairs(c.n, r) && d.untold == c.untold - RouterPairs(c.n, r)
    ensures d.n == c.n
  {
  }

  lemma JoinedPair(n: Neutron, r: Id, p: Port, q: Port, x: Port, y: Port)
    requires WellFormed(n) && p in n.ports && q in n.ports
    requires Joins(n, x, y, p.network, q.network) && x.deviceId == r
    ensures Sight(p.id, q.id) in RouterPairs(n, r) && r in n.routers && n.routers[r].distributed
  {
    RouterPairsIff(n, r, p, q);
    assert OnRouterNet(n, r, p.network) && OnRouterNet(n, r, q.network);
  }

  lemma AllOwedAfterAttach(c: Cluster, r: Id, d: Cluster, p: Port, q: Port)
    requires Sane(c.n) && Step(c, ProcessAttach(r), d) && p in c.n.ports && q in c.n.ports
    requires AllOwed(c, p.network, q.network) && Sight(p.id, q.id) in d.untold
    ensures AllOwed(d, p.network, q.network)
  {
    forall x, y | Joins(d.n, x, y, p.network, q.network) ensures Owed(d, x.deviceId) {
      assert d.n == c.n;
      OwedAfterAttach(c, r, d, x.deviceId);
      if x.deviceId == r {
        JoinedPair(c.n, r, p, q, x, y);
      }
    }
  }

  lemma UntoldAfterAttach(c: Cluster, r: Id, d: Cluster)
    requires Sane(c.n) && UntoldOwed(c) && Step(c, ProcessAttach(r), d)
    ensures UntoldOwed(d)
  {
    forall s | s in d.untold ensures exists p, q :: Names(d.n, s, p, q) && AllOwed(d, p.network, q.network) {
      var p, q :| Names(c.n, s, p, q) && AllOwed(c, p.network, q.network);
      AllOwedAfterAttach(c, r, d, p, q);
    }
  }

  lemma UntoldShrinks(c: Cluster, d: Cluster)
    requires UntoldOwed(c) && d.n == c.n && d.attaching == c.attaching && d.untold <= c.untold
    ensures UntoldOwed(d)
  {
    forall s | s in d.untold ensures exists p, q :: Names(d.n, s, p, q) && AllOwed(d, p.network, q.network) {
      var p, q :| Names(c.n, s, p, q) && AllOwed(c, p.network, q.network);
      assert Names(d.n, s, p, q) && AllOwed(d, p.network, q.network);
    }
  }

  /** What processing leaves alone. */
  lemma ProcessFrame(c: Cluster, e: Event, d: Cluster)
    requires Step(c, e, d) && IsProcess(e)
    ensures d.n == c.n && d.untold <= c.untold && d.lost <= c.lost
    ensures !e.ProcessAttach? ==> d.attaching == c.attaching
    ensures !e.ProcessDetach? ==> d.detaching == c.detaching && d.struck <= c.struck
  {
  }

  lemma UntoldAfterProcess(c: Cluster, e: Event, d: Cluster)
    requires Sane(c.n) && UntoldOwed(c) && Step(c, e, d) && IsProcess(e)
    ensures UntoldOwed(d)
  {
    ProcessFrame(c, e, d);
    if e.ProcessAttach? {
      UntoldAfterAttach(c, e.router, d);
    } else {
      UntoldShrinks(c, d);
    }
  }

  /** In every run, two ports that have not been told of each other are joined by no router, or
      by one whose push is still to come, or by one that is disabled. */
  lemma {:induction false} UntoldIsOwed(cs: seq<Cluster>, es: seq<Event>)
    requires IsRun(cs, es)
    ensures UntoldOwed(cs[|es|])
  {
    if es == [] {
      assert cs[0].untold == {};
    } else {
      var k := |es| - 1;
      assert IsRun(cs[..|es|], es[..k]);
      UntoldIsOwed(cs[..|es|], es[..k]);
      assert Step(cs[k], es[k], cs[k + 1]) && Sane(cs[k].n) && Sane(cs[k + 1].n);
      if IsProcess(es[k]) {
        UntoldAfterProcess(cs[k], es[k], cs[k + 1]);
      } else {
        UntoldAfterChange(cs[k], es[k], cs[k + 1]);
      }
    }
  }

  // ----- orderly runs

  /** No delete has left damage between two ports of the network. */
  ghost predicate Intact(c: Cluster, net: Id) {
    forall p, q :: p in c.n.ports && q in c.n.ports && p.network == net && q.network == net ==>
      Sight(p.id, q.id) !in c.struck
  }

  /** An interface is removed when no other removal on its router is pending and the network is
      intact. A removal on a distributed router is processed while the router is enabled; and
      if the interface is back by then, a push of the router is still to come. */
  ghost predicate Orderly(c: Cluster, e: Event) {
    match e
    case DetachIface(r, net) => Intact(c, net) && forall u :: u in c.detaching ==> u.router != r
    case ProcessDetach(r, net) =>
      r in c.n.routers && c.n.routers[r].distributed ==>
        c.n.routers[r].adminUp && HostsTogether(c.n) && (OnRouterNet(c.n, r, net) ==> r in c.attaching)
    case _ => true
  }

  ghost predicate OrderlyRun(cs: seq<Cluster>, es: seq<Event>)
    requires |cs| == |es| + 1
  {
    forall i :: 0 <= i < |es| ==> Orderly(cs[i], es[i])
  }

  // ----- pairs from which a delete took something

  /** If the two networks reach each other, a router of which a push is owed joins them. */
  ghost predicate SomeOwed(c: Cluster, a: Id, b: Id) {
    Linked(c.n, a, b) ==> exists x, y :: Joins(c.n, x, y, a, b) && Owed(c, x.deviceId)
  }

  ghost predicate StruckOwed(c: Cluster) {
    forall s :: s in c.struck ==> exists p, q :: Names(c.n, s, p, q) && SomeOwed(c, p.network, q.network)
  }

  lemma NewlyJoinedIsOwed(c: Cluster, e: Event, d: Cluster, a: Id, b: Id)
    requires Sane(d.n) && Step(c, e, d) && !IsProcess(e) && !Linked(c.n, a, b)
    ensures SomeOwed(d, a, b)
  {
    if Linked(d.n, a, b) {
      var x, y :| Joins(d.n, x, y, a, b);
      assert Joins(c.n, x, y, a, b) || (e.AttachIface? && (x == e.iface || y == e.iface));
      assert Owed(d, x.deviceId);
    }
  }

  lemma OwedStays(c: Cluster, e: Event, d: Cluster, r: Id)
    requires Step(c, e, d) && !IsProcess(e) && Owed(c, r)
    ensures Owed(d, r)
  {
  }

  lemma JoinsStay(c: Cluster, e: Event, d: Cluster, x: Port, y: Port, a: Id, b: Id)
    requires Sane(c.n) && Step(c, e, d) && !IsProcess(e) && Joins(c.n, x, y, a, b)
    requires e.DetachIface? ==> a == b && a != e.net
    ensures Joins(d.n, x, y, a, b)
  {
  }

  lemma RemovalJoinsNothing(c: Cluster, e: Event, d: Cluster, x: Port, y: Port, a: Id, b: Id)
    requires Step(c, e, d) && e.DetachIface? && Joins(d.n, x, y, a, b)
    ensures Joins(c.n, x, y, a, b)
  {
  }

  lemma SomeOwedStays(c: Cluster, e: Event, d: Cluster, a: Id, b: Id)
    requires Sane(c.n) && Step(c, e, d) && !IsProcess(e) && Linked(c.n, a, b) && SomeOwed(c, a, b)
    requires e.DetachIface? ==> a != b || a != e.net
    ensures SomeOwed(d, a, b)
  {
    var x, y :| Joins(c.n, x, y, a, b) && Owed(c, x.deviceId);
    OwedStays(c, e, d, x.deviceId);
    if !e.DetachIface? || a == b {
      JoinsStay(c, e, d, x, y, a, b);
    } else if Linked(d.n, a, b) {
      var u, v :| Joins(d.n, u, v, a, b);
      RemovalJoinsNothing(c, e, d, u, v, a, b);
      assert u.deviceId == x.deviceId;
    }
  }

  lemma StruckAfterChange(c: Cluster, e: Event, d: Cluster)
    requires Sane(c.n) && Sane(d.n) && StruckOwed(c) && Step(c, e, d) && !IsProcess(e) && Orderly(c, e)
    ensures StruckOwed(d)
  {
    forall s | s in d.struck ensures exists p, q :: Names(d.n, s, p, q) && SomeOwed(d, p.network, q.network) {
      ChangeStrikesNothing(c, e, d);
      var p, q :| Names(c.n, s, p, q) && SomeOwed(c, p.network, q.network);
      var p', q' := NamesStay(c, e, d, s, p, q);
      if Linked(c.n, p.network, q.network) {
        SomeOwedStays(c, e, d, p.network, q.network);
      } else {
        NewlyJoinedIsOwed(c, e, d, p.network, q.network);
      }
    }
  }

  lemma ChangeStrikesNothing(c: Cluster, e: Event, d: Cluster)
    requires Step(c, e, d) && !IsProcess(e)
    ensures d.struck <= c.struck
    ensures e.DeletePort? ==> forall s :: s in d.struck ==> s.from != e.id && s.to != e.id
  {
  }

  /** A port whose VM is on one side of a detachment is joined with that side. */
  lemma OnSide(n: Neutron, ports: seq<Port>, p: Port) returns (c0: Port)
    requires Sane(n) && p in n.ports && p.mgntIp.Some? && forall z :: z in ports ==> z in n.ports
    requires p.mgntIp.value in VmsOf(ports, [])
    ensures c0 in ports && Linked(n, p.network, c0.network)
  {
    VmsOfMembers(ports, [], p.mgntIp.value);
    c0 :| c0 in ports && c0.mgntIp == p.mgntIp;
  }

  lemma CoveredSide(n: Neutron, ports: seq<Port>, q: Port) returns (z: Port)
    requires Sane(n) && HostsTogether(n) && q in n.ports && IsProvider(q) && Covers(ports, q)
    requires forall z :: z in ports ==> z in n.ports
    ensures z in ports && Linked(n, q.network, z.network)
  {
    z :| z in ports && (z.id == q.id || (IsProvider(z) && z.host == q.host));
  }

  /** If the two sides of a detachment reach each other, the interface is back, and every port
      that reaches one of them is on a network of the router. */
  lemma SidesJoined(n: Neutron, r: Router, net: Id, a: Port, p: Port)
    requires Sane(n) && a in ConnectedPorts(n, r, net) && Linked(n, a.network, net)
    requires r.id in n.routers && Linked(n, p.network, a.network)
    ensures OnRouterNet(n, r.id, net) && OnRouterNet(n, r.id, p.network) && n.routers[r.id].distributed
  {
    ConnectedIff(n, r, net, a);
    var x :| x in n.ports && x.deviceId == r.id && x.network == a.network && x.network != net;
    var u, v :| Joins(n, u, v, a.network, net);
    assert u.deviceId == x.deviceId == v.deviceId;
    if p.network != a.network {
      var s, t :| Joins(n, s, t, p.network, a.network);
      assert s.deviceId == x.deviceId;
    }
  }

  /** What a delete takes from a pair that reaches each other, a push of the router brings back. */
  lemma StruckOnRouter(n: Neutron, r: Router, net: Id, p: Port, q: Port)
    requires Sane(n) && HostsTogether(n) && r.id in n.routers && p in n.ports && q in n.ports
    requires IsProvider(p) && IsProvider(q) && Linked(n, p.network, q.network) && Hit(n, r, net, p.mgntIp.value, q)
    ensures OnRouterNet(n, r.id, net) && OnRouterNet(n, r.id, p.network) && OnRouterNet(n, r.id, q.network)
    ensures n.routers[r.id].distributed
  {
    var connected, detached := ConnectedPorts(n, r, net), NetworkPorts(n, net);
    NetworkPortsMembers(n, net);
    PortsOnMembers(n, NetsOf(RemainingIfaces(n, r, net)));
    var a, b;
    if p.mgntIp.value in VmsOf(connected, []) && Covers(detached, q) {
      a := OnSide(n, connected, p);
      b := CoveredSide(n, detached, q);
      LinkedSymmetric(n, p.network, a.network);
      LinkedTransitive(n, a.network, p.network, q.network);
      LinkedTransitive(n, a.network, q.network, b.network);
    } else {
      a := CoveredSide(n, connected, q);
      b := OnSide(n, detached, p);
      LinkedSymmetric(n, p.network, q.network);
      LinkedSymmetric(n, q.network, a.network);
      LinkedTransitive(n, a.network, q.network, p.network);
      LinkedTransitive(n, a.network, p.network, b.network);
    }
    LinkedSymmetric(n, a.network, p.network);
    LinkedSymmetric(n, p.network, q.network);
    LinkedTransitive(n, q.network, p.network, a.network);
    LinkedTransitive(n, p.network, q.network, a.network);
    SidesJoined(n, r, net, a, p);
    SidesJoined(n, r, net, a, q);
  }

  lemma RouterPairsJoin(n: Neutron, r: Id, a: Id, b: Id)
    requires Sane(n) && r in n.routers && n.routers[r].distributed && OnRouterNet(n, r, a) && OnRouterNet(n, r, b)
    ensures exists x, y :: Joins(n, x, y, a, b) && x.deviceId == r
  {
    var x :| x in n.ports && x.deviceId == r && x.network == a;
    var y :| y in n.ports && y.deviceId == r && y.network == b;
    assert Joins(n, x, y, a, b);
  }

  lemma StruckAfterDetach(c: Cluster, r: Id, net: Id, d: Cluster, s: Sight) returns (p: Port, q: Port)
    requires Sane(c.n) && Step(c, ProcessDetach(r, net), d) && Orderly(c, ProcessDetach(r, net))
    requires s in d.struck && s !in c.struck
    ensures Names(d.n, s, p, q) && SomeOwed(d, p.network, q.network)
  {
    var n, router := c.n, c.n.routers[r];
    p, q :| p in n.ports && q in n.ports && IsProvider(p) && IsProvider(q) && s == Sight(p.id, q.id)
            && Linked(n, p.network, q.network) && Hit(n, router, net, p.mgntIp.value, q);
    StruckOnRouter(n, router, net, p, q);
    RouterPairsJoin(n, r, p.network, q.network);
    var x, y :| Joins(n, x, y, p.network, q.network) && x.deviceId == r;
    assert Joins(d.n, x, y, p.network, q.network) && Owed(d, x.deviceId);
  }

  lemma SomeOwedAfterAttach(c: Cluster, r: Id, d: Cluster, p: Port, q: Port)
    requires Sane(c.n) && Step(c, ProcessAttach(r), d) && p in c.n.ports && q in c.n.ports
    requires SomeOwed(c, p.network, q.network) && Sight(p.id, q.id) in d.struck && Linked(c.n, p.network, q.network)
    ensures SomeOwed(d, p.network, q.network)
  {
    var x, y :| Joins(c.n, x, y, p.network, q.network) && Owed(c, x.deviceId);
    OwedAfterAttach(c, r, d, x.deviceId);
    if x.deviceId == r {
      JoinedPair(c.n, r, p, q, x, y);
    }
    assert Joins(d.n, x, y, p.network, q.network) && Owed(d, x.deviceId);
  }

  lemma StruckAfterAttach(c: Cluster, r: Id, d: Cluster)
    requires Sane(c.n) && StruckOwed(c) && Step(c, ProcessAttach(r), d)
    ensures StruckOwed(d)
  {
    forall s | s in d.struck ensures exists p, q :: Names(d.n, s, p, q) && SomeOwed(d, p.network, q.network) {
      var p, q :| Names(c.n, s, p, q) && SomeOwed(c, p.network, q.network);
      if Linked(c.n, p.network, q.network) {
        SomeOwedAfterAttach(c, r, d, p, q);
      }
    }
  }

  lemma SameStruck(c: Cluster, d: Cluster, s: Sight)
    requires StruckOwed(c) && d.n == c.n && d.attaching == c.attaching && s in c.struck
    ensures exists p, q :: Names(d.n, s, p, q) && SomeOwed(d, p.network, q.network)
  {
    var p, q :| Names(c.n, s, p, q) && SomeOwed(c, p.network, q.network);
    if Linked(c.n, p.network, q.network) {
      var x, y :| Joins(c.n, x, y, p.network, q.network) && Owed(c, x.deviceId);
      assert Joins(d.n, x, y, p.network, q.network) && Owed(d, x.deviceId);
    }
    assert Names(d.n, s, p, q) && SomeOwed(d, p.network, q.network);
  }

  lemma StruckAfterProcess(c: Cluster, e: Event, d: Cluster)
    requires Sane(c.n) && StruckOwed(c) && Step(c, e, d) && IsProcess(e) && Orderly(c, e)
    ensures StruckOwed(d)
  {
    ProcessFrame(c, e, d);
    if e.ProcessAttach? {
      StruckAfterAttach(c, e.router, d);
    } else {
      forall s | s in d.struck ensures exists p, q :: Names(d.n, s, p, q) && SomeOwed(d, p.network, q.network) {
        if s in c.struck {
          SameStruck(c, d, s);
        } else {
          var p, q := StruckAfterDetach(c, e.router, e.net, d, s);
        }
      }
    }
  }

  // ----- pairs that were separated

  /** The two are joined again, or the log of the removal that separated them is pending. */
  ghost predicate Awaited(c: Cluster, a: Id, b: Id) {
    Linked(c.n, a, b) || exists u :: u in c.detaching && Splits(c.n, u, a, b)
  }

  ghost predicate Splits(n: Neutron, u: Pair, a: Id, b: Id) {
    u.router in n.routers && n.routers[u.router].distributed && SplitBy(n, u, a, b)
  }

  ghost predicate LostAwaited(c: Cluster) {
    forall s :: s in c.lost ==> exists p, q :: Names(c.n, s, p, q) && Awaited(c, p.network, q.network)
  }

  lemma IfacesStay(c: Cluster, e: Event, d: Cluster, r: Id, a: Id)
    requires Sane(c.n) && Step(c, e, d) && !IsProcess(e) && (e.DetachIface? ==> e.router != r)
    requires r in c.n.routers && OnRouterNet(c.n, r, a)
    ensures OnRouterNet(d.n, r, a)
  {
    var x :| x in c.n.ports && x.deviceId == r && x.network == a;
    assert IsIface(x);
    assert x in d.n.ports;
  }

  lemma AwaitedStays(c: Cluster, e: Event, d: Cluster, a: Id, b: Id)
    requires Sane(c.n) && Step(c, e, d) && !IsProcess(e) && Orderly(c, e) && Awaited(c, a, b)
    ensures Awaited(d, a, b)
  {
    if Linked(c.n, a, b) {
      if e.DetachIface? && a != b {
        var x, y :| Joins(c.n, x, y, a, b);
        if x in d.n.ports && y in d.n.ports {
          assert Joins(d.n, x, y, a, b);
        } else {
          assert Pair(e.router, e.net) in d.detaching && Splits(d.n, Pair(e.router, e.net), a, b);
        }
      } else if !e.DetachIface? {
        LinksStay(c, e, d, a, b);
      }
    } else {
      var u :| u in c.detaching && Splits(c.n, u, a, b);
      if b == u.net && OnRouterNet(c.n, u.router, a) {
        IfacesStay(c, e, d, u.router, a);
      } else {
        IfacesStay(c, e, d, u.router, b);
      }
      assert u in d.detaching && Splits(d.n, u, a, b);
    }
  }

  lemma LostAfterChange(c: Cluster, e: Event, d: Cluster)
    requires Sane(c.n) && LostAwaited(c) && Step(c, e, d) && !IsProcess(e) && Orderly(c, e)
    ensures LostAwaited(d)
  {
    forall s | s in d.lost ensures exists p, q :: Names(d.n, s, p, q) && Awaited(d, p.network, q.network) {
      var p, q;
      if s in c.lost {
        p, q :| Names(c.n, s, p, q) && Awaited(c, p.network, q.network);
      } else {
        p, q :| p in c.n.ports && q in c.n.ports && IsCompute(p) && IsCompute(q) && s == Sight(p.id, q.id)
                && Linked(c.n, p.network, q.network) && !Linked(d.n, p.network, q.network);
      }
      var p', q' := NamesStay(c, e, d, s, p, q);
      AwaitedStays(c, e, d, p.network, q.network);
    }
  }

  lemma AwaitedAfterDetach(c: Cluster, r: Id, net: Id, d: Cluster, p: Port, q: Port)
    requires Sane(c.n) && Step(c, ProcessDetach(r, net), d) && Orderly(c, ProcessDetach(r, net))
    requires p in c.n.ports && q in c.n.ports && Sight(p.id, q.id) in d.lost && Awaited(c, p.network, q.network)
    ensures Awaited(d, p.network, q.network)
  {
    if !Linked(c.n, p.network, q.network) {
      var u :| u in c.detaching && Splits(c.n, u, p.network, q.network);
      SidePairsIff(c.n, Pair(r, net), p, q);
      assert u in d.detaching && Splits(d.n, u, p.network, q.network);
    }
  }

  lemma LostAfterDetach(c: Cluster, r: Id, net: Id, d: Cluster)
    requires Sane(c.n) && LostAwaited(c) && Step(c, ProcessDetach(r, net), d) && Orderly(c, ProcessDetach(r, net))
    ensures LostAwaited(d)
  {
    forall s | s in d.lost ensures exists p, q :: Names(d.n, s, p, q) && Awaited(d, p.network, q.network) {
      var p, q :| Names(c.n, s, p, q) && Awaited(c, p.network, q.network);
      AwaitedAfterDetach(c, r, net, d, p, q);
    }
  }

  lemma LostShrinks(c: Cluster, d: Cluster)
    requires LostAwaited(c) && d.n == c.n && d.detaching == c.detaching && d.lost <= c.lost
    ensures LostAwaited(d)
  {
    forall s | s in d.lost ensures exists p, q :: Names(d.n, s, p, q) && Awaited(d, p.network, q.network) {
      var p, q :| Names(c.n, s, p, q) && Awaited(c, p.network, q.network);
      assert Names(d.n, s, p, q) && Awaited(d, p.network, q.network);
    }
  }

  lemma LostAfterProcess(c: Cluster, e: Event, d: Cluster)
    requires Sane(c.n) && LostAwaited(c) && Step(c, e, d) && IsProcess(e) && Orderly(c, e)
    ensures LostAwaited(d)
  {
    ProcessFrame(c, e, d);
    if e.ProcessDetach? {
      LostAfterDetach(c, e.router, e.net, d);
    } else {
      LostShrinks(c, d);
    }
  }

  /** In an orderly run, whatever a VM lacks or holds too much will be put right by a log that
      is pending, or is owed by a disabled router. */
  lemma {:induction false} LedgersAwaitLogs(cs: seq<Cluster>, es: seq<Event>)
    requires IsRun(cs, es) && OrderlyRun(cs, es)
    ensures StruckOwed(cs[|es|]) && LostAwaited(cs[|es|])
  {
    if es == [] {
      assert cs[0].struck == {} && cs[0].lost == {};
    } else {
      var k := |es| - 1;
      assert IsRun(cs[..|es|], es[..k]) && OrderlyRun(cs[..|es|], es[..k]);
      LedgersAwaitLogs(cs[..|es|], es[..k]);
      assert Step(cs[k], es[k], cs[k + 1]) && Sane(cs[k].n) && Sane(cs[k + 1].n) && Orderly(cs[k], es[k]);
      if IsProcess(es[k]) {
        StruckAfterProcess(cs[k], es[k], cs[k + 1]);
        LostAfterProcess(cs[k], es[k], cs[k + 1]);
      } else {
        StruckAfterChange(cs[k], es[k], cs[k + 1]);
        LostAfterChange(cs[k], es[k], cs[k + 1]);
      }
    }
  }

  // ----- when no log is pending

  ghost predicate NoLogPending(c: Cluster) {
    c.dirty == {} && c.attaching == {} && c.detaching == {}
  }

  /** No disabled distributed router has an interface on the network. */
  ghost predicate InService(n: Neutron, a: Id) {
    forall x :: x in n.ports && x.network == a && x.deviceId in n.routers && n.routers[x.deviceId].distributed ==>
      n.routers[x.deviceId].adminUp
  }

  lemma UntoldIsApart(c: Cluster, p: Port, q: Port)
    requires Sane(c.n) && UntoldOwed(c) && c.attaching == {} && InService(c.n, p.network)
    requires p in c.n.ports && q in c.n.ports && Sight(p.id, q.id) in c.untold
    ensures !Linked(c.n, p.network, q.network)
  {
    var p', q' :| Names(c.n, Sight(p.id, q.id), p', q') && AllOwed(c, p'.network, q'.network);
    assert p' == p && q' == q;
    forall x, y ensures !Joins(c.n, x, y, p.network, q.network) {
      assert Joins(c.n, x, y, p.network, q.network) ==> Owed(c, x.deviceId);
    }
  }

  lemma StruckIsOut(c: Cluster, p: Port, q: Port)
    requires Sane(c.n) && StruckOwed(c) && c.attaching == {}
    requires p in c.n.ports && q in c.n.ports && Sight(p.id, q.id) in c.struck && Linked(c.n, p.network, q.network)
    ensures !InService(c.n, p.network)
  {
    var p', q' :| Names(c.n, Sight(p.id, q.id), p', q') && SomeOwed(c, p'.network, q'.network);
    assert p' == p && q' == q;
    var x, y :| Joins(c.n, x, y, p.network, q.network) && Owed(c, x.deviceId);
  }

  lemma NothingOwed(c: Cluster, p: Port, q: Port)
    requires Sane(c.n) && UntoldOwed(c) && StruckOwed(c) && c.attaching == {} && InService(c.n, p.network)
    requires p in c.n.ports && q in c.n.ports && Linked(c.n, p.network, q.network)
    ensures Sight(p.id, q.id) !in c.untold && Sight(p.id, q.id) !in c.struck
  {
    if Sight(p.id, q.id) in c.untold {
      UntoldIsApart(c, p, q);
    }
    if Sight(p.id, q.id) in c.struck {
      StruckIsOut(c, p, q);
    }
  }

  lemma {:induction false} GoneStayGone(cs: seq<Cluster>, es: seq<Event>)
    requires IsRun(cs, es)
    ensures forall q :: q in cs[|es|].n.ports && IsCompute(q) ==> q.id !in cs[|es|].gone
  {
    if es == [] {
    } else {
      var k := |es| - 1;
      assert IsRun(cs[..|es|], es[..k]);
      GoneStayGone(cs[..|es|], es[..k]);
      assert Step(cs[k], es[k], cs[k + 1]) && Sane(cs[k + 1].n);
    }
  }

  /** The ports a VM should hold: the compute ports its own port reaches. */
  ghost predicate ShouldHold(n: Neutron, p: Port, k: Id) {
    exists q :: q in n.ports && q.id == k && IsCompute(q) && Linked(n, p.network, q.network)
  }

  /** When no log is pending after an orderly run: a VM holds no port that its own port does not
      reach, deleted ones aside, and every port that it reaches in service, with its chassis. */
  lemma QuietAgreement(cs: seq<Cluster>, es: seq<Event>, p: Port)
    requires IsRun(cs, es) && OrderlyRun(cs, es) && NoLogPending(cs[|es|])
    requires p in cs[|es|].n.ports && IsProvider(p)
    ensures var c := cs[|es|];
            && (forall k :: Holds(VmStore(c, p), k) && k !in c.gone ==> ShouldHold(c.n, p, k))
            && (InService(c.n, p.network) ==> forall q :: q in c.n.ports && IsProvider(q) ==>
                  (Linked(c.n, p.network, q.network) <==> Holds(VmStore(c, p), q.id))
                  && (Linked(c.n, p.network, q.network) <==> Knows(VmStore(c, p), q)))
  {
    var c := cs[|es|];
    Convergence(cs, es);
    NothingLeftOver(cs, es);
    UntoldIsOwed(cs, es);
    LedgersAwaitLogs(cs, es);
    GoneStayGone(cs, es);
    forall k | Holds(VmStore(c, p), k) && k !in c.gone ensures ShouldHold(c.n, p, k) {
      assert Clean(c, p) && Explained(c, p, k);
      var q :| Explains(c, p, q) && q.id == k;
      HeldIsLinked(c, p, q);
    }
    if InService(c.n, p.network) {
      forall q | q in c.n.ports && IsProvider(q) && Linked(c.n, p.network, q.network) ensures Knows(VmStore(c, p), q) {
        NothingOwed(c, p, q);
        assert Due(c, p, q);
      }
      forall q | q in c.n.ports && IsProvider(q) && Holds(VmStore(c, p), q.id)
        ensures Linked(c.n, p.network, q.network)
      {
        assert q.id !in c.gone;
      }
    }
  }

  lemma HeldIsLinked(c: Cluster, p: Port, q: Port)
    requires Sane(c.n) && LostAwaited(c) && c.detaching == {} && p in c.n.ports && Explains(c, p, q)
    ensures Linked(c.n, p.network, q.network)
  {
    if Sight(p.id, q.id) in c.lost {
      var p', q' :| Names(c.n, Sight(p.id, q.id), p', q') && Awaited(c, p'.network, q'.network);
      assert p' == p && q' == q;
    }
  }

  // ----- runs without a new interface

  /** No interface is added; a removal is processed while the interface is gone and the ports of
      a host are together. */
  ghost predicate FixedInterfaces(cs: seq<Cluster>, es: seq<Event>)
    requires |cs| == |es| + 1
  {
    forall i :: 0 <= i < |es| ==> Fixed(cs[i], es[i])
  }

  ghost predicate Fixed(c: Cluster, e: Event) {
    match e
    case AttachIface(_) => false
    case ProcessDetach(r, net) => HostsTogether(c.n) && !OnRouterNet(c.n, r, net)
    case _ => true
  }

  lemma NothingStruck(c: Cluster, r: Id, net: Id, d: Cluster)
    requires Sane(c.n) && HostsTogether(c.n) && Step(c, ProcessDetach(r, net), d) && !OnRouterNet(c.n, r, net)
    ensures d.struck == c.struck
  {
    if Serves(c.n.routers[r]) {
      forall s | s in Struck(c.n, c.n.routers[r], net) ensures false {
        var p, q :| p in c.n.ports && q in c.n.ports && IsProvider(p) && IsProvider(q)
                    && Linked(c.n, p.network, q.network) && Hit(c.n, c.n.routers[r], net, p.mgntIp.value, q);
        StruckOnRouter(c.n, c.n.routers[r], net, p, q);
      }
      assert Struck(c.n, c.n.routers[r], net) == {};
    }
  }

  lemma FixedStep(c: Cluster, e: Event, d: Cluster)
    requires Sane(c.n) && Step(c, e, d) && Fixed(c, e) && c.untold == {} && c.struck == {}
    ensures d.untold == {} && d.struck == {}
  {
    if e.ProcessDetach? {
      NothingStruck(c, e.router, e.net, d);
    }
  }

  lemma {:induction false} FixedRun(cs: seq<Cluster>, es: seq<Event>)
    requires IsRun(cs, es) && FixedInterfaces(cs, es)
    ensures cs[|es|].untold == {} && cs[|es|].struck == {}
  {
    if es == [] {
    } else {
      var k := |es| - 1;
      assert IsRun(cs[..|es|], es[..k]) && FixedInterfaces(cs[..|es|], es[..k]);
      FixedRun(cs[..|es|], es[..k]);
      assert Step(cs[k], es[k], cs[k + 1]) && Sane(cs[k].n) && Fixed(cs[k], es[k]);
      FixedStep(cs[k], es[k], cs[k + 1]);
    }
  }

  /** With no interface added, every VM of a processed port holds every processed port it
      reaches, whatever the administrative state of its router and whatever else is pending. */
  lemma FixedConvergence(cs: seq<Cluster>, es: seq<Event>, p: Port, q: Port)
    requires IsRun(cs, es) && FixedInterfaces(cs, es)
    requires Clean(cs[|es|], p) && Clean(cs[|es|], q) && Linked(cs[|es|].n, p.network, q.network)
    ensures Knows(VmStore(cs[|es|], p), q)
  {
    Convergence(cs, es);
    FixedRun(cs, es);
    assert Due(cs[|es|], p, q);
  }
}
