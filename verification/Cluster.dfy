/** Neutron and all VMs as one state machine: Neutron changes, and update actions that run
    to completion, in any interleaving. */
module Cluster {
  import opened Records
  import opened Batches
  import opened Drivers
  import opened Neutron
  import opened Actions
  import opened ServerBatches

  /** A removed interface: its router, and the network it was on. */
  datatype Pair = Pair(router: Id, net: Id)

  /** What the VM of one port knows, or should know, of another port. */
  datatype Sight = Sight(from: Id, to: Id)

  /** `dirty`, `dirtyGroups`, `attaching` and `detaching` are the ports, groups, routers and
      removed interfaces of which no log has been processed since their last change; `gone` are
      the deleted ports. The last
      three sets say what the messages so far have left undone: `untold` are the pairs that a
      new interface joined and no message has told of each other since; `struck` are those
      that reach each other and of which a detachment's delete took something away; `lost` are
      those that were separated and have not been made to forget each other. */
  datatype Cluster = Cluster(n: Neutron, stores: Stores, dirty: set<Id>, dirtyGroups: set<Id>,
                             gone: set<Id>, attaching: set<Id>, detaching: set<Pair>,
                             untold: set<Sight>, struck: set<Sight>, lost: set<Sight>)

  datatype Event =
    | ChangePort(port: Port)
    | DeletePort(id: Id)
    | ChangeGroup(group: Secgroup)
    | DeleteGroup(id: Id)
    | AttachIface(iface: Port)
    | DetachIface(router: Id, net: Id)
    | SetAdmin(router: Id, up: bool)
    | ProcessPort(id: Id, nets: seq<Id>, answers: bool)
    | ProcessGroup(id: Id)
    | ProcessAttach(router: Id)
    | ProcessDetach(router: Id, net: Id)

  // ----- what is assumed of Neutron's data

  /** The ports of one VM reach each other. */
  ghost predicate VmsTogether(n: Neutron) {
    forall p, q :: p in n.ports && q in n.ports && p.mgntIp.Some? && p.mgntIp == q.mgntIp ==>
      Linked(n, p.network, q.network)
  }

  /** So do the provider ports of one host. Only detachments depend on it. */
  ghost predicate HostsTogether(n: Neutron) {
    forall p, q :: p in n.ports && q in n.ports && IsProvider(p) && IsProvider(q) && p.host == q.host ==>
      Linked(n, p.network, q.network)
  }

  /** Provider ports belong to VMs, and a port is not both a VM's and a router's. */
  ghost predicate PortsTyped(n: Neutron) {
    forall p :: p in n.ports ==> (IsProvider(p) ==> IsCompute(p)) && !(IsIface(p) && IsCompute(p))
  }

  ghost predicate Sane(n: Neutron) {
    && WellFormed(n)
    && OneRouterPerNetwork(n)
    && OneIpPerHost(n)
    && VmsTogether(n)
    && PortsTyped(n)
  }

  // ----- Neutron changes

  /** All ports but those with the given id are the same. */
  ghost predicate SameBut(m: Neutron, n: Neutron, id: Id) {
    && (forall q: Port :: q.id != id ==> (q in m.ports <==> q in n.ports))
    && m.networks == n.networks && m.routers == n.routers && m.sgs == n.sgs
  }

  /** A port is created, or changed in place: it keeps its network, and a VM's port stays one. */
  ghost predicate PortChanged(m: Neutron, n: Neutron, p: Port) {
    && SameBut(m, n, p.id)
    && p in n.ports && !IsIface(p)
    && forall o :: o in m.ports && o.id == p.id ==>
         o.network == p.network && !IsIface(o) && (IsCompute(o) ==> IsCompute(p))
  }

  ghost predicate PortDeleted(m: Neutron, n: Neutron, id: Id) {
    && SameBut(m, n, id)
    && (forall o :: o in m.ports && o.id == id ==> !IsIface(o))
    && (forall o :: o in n.ports ==> o.id != id)
  }

  ghost predicate GroupChanged(m: Neutron, n: Neutron, g: Secgroup) {
    && m.ports == n.ports && m.networks == n.networks && m.routers == n.routers
    && g in n.sgs
    && forall h: Secgroup :: h.id != g.id ==> (h in m.sgs <==> h in n.sgs)
  }

  ghost predicate GroupDeleted(m: Neutron, n: Neutron, id: Id) {
    && m.ports == n.ports && m.networks == n.networks && m.routers == n.routers
    && forall h: Secgroup :: h in n.sgs <==> h in m.sgs && h.id != id
  }

  ghost predicate IfaceAdded(m: Neutron, n: Neutron, iface: Port) {
    && SameBut(m, n, iface.id)
    && iface in n.ports && IsIface(iface)
    && forall o :: o in m.ports ==> o.id != iface.id
  }

  /** The last interface of a router on a network is removed. */
  ghost predicate IfaceRemoved(m: Neutron, n: Neutron, router: Id, net: Id) {
    && (forall q :: q in n.ports <==> q in m.ports && !(q.deviceId == router && q.network == net))
    && m.networks == n.networks && m.routers == n.routers && m.sgs == n.sgs
    && router in m.routers && net in m.networks
  }

  ghost predicate AdminSet(m: Neutron, n: Neutron, router: Id, up: bool) {
    && m.ports == n.ports && m.networks == n.networks && m.sgs == n.sgs
    && router in m.routers && n.routers == m.routers[router := m.routers[router].(adminUp := up)]
  }

  // ----- what a step does to pairs of ports

  ghost predicate OnRouterNet(n: Neutron, r: Id, a: Id) {
    exists x :: x in n.ports && x.deviceId == r && x.network == a
  }

  /** The removed interface was between the two networks. */
  ghost predicate SplitBy(n: Neutron, u: Pair, a: Id, b: Id) {
    (b == u.net && OnRouterNet(n, u.router, a)) || (a == u.net && OnRouterNet(n, u.router, b))
  }

  ghost function NewlyLinked(m: Neutron, n: Neutron): set<Sight> {
    set p, q | p in n.ports && q in n.ports && IsCompute(p) && IsCompute(q)
               && Linked(n, p.network, q.network) && !Linked(m, p.network, q.network) :: Sight(p.id, q.id)
  }

  ghost function NewlyApart(m: Neutron, n: Neutron): set<Sight> {
    set p, q | p in m.ports && q in m.ports && IsCompute(p) && IsCompute(q)
               && Linked(m, p.network, q.network) && !Linked(n, p.network, q.network) :: Sight(p.id, q.id)
  }

  ghost function RouterPairs(n: Neutron, r: Id): set<Sight> {
    set p, q | p in n.ports && q in n.ports && OnRouterNet(n, r, p.network) && OnRouterNet(n, r, q.network) ::
      Sight(p.id, q.id)
  }

  ghost function SidePairs(n: Neutron, u: Pair): set<Sight> {
    set p, q | p in n.ports && q in n.ports && SplitBy(n, u, p.network, q.network) :: Sight(p.id, q.id)
  }

  /** A delete batch built from these ports names the port, or its host's chassis. */
  ghost predicate Covers(ports: seq<Port>, q: Port) {
    exists z :: z in ports && (z.id == q.id || (IsProvider(z) && z.host == q.host))
  }

  /** One of the two deletes of a detachment goes to the VM and takes away what it knows. */
  ghost predicate Hit(n: Neutron, r: Router, net: Id, m: Vm, q: Port) {
    || (m in VmsOf(ConnectedPorts(n, r, net), []) && Covers(NetworkPorts(n, net), q))
    || (m in VmsOf(NetworkPorts(n, net), []) && Covers(ConnectedPorts(n, r, net), q))
  }

  ghost function Struck(n: Neutron, r: Router, net: Id): set<Sight> {
    set p, q | p in n.ports && q in n.ports && IsProvider(p) && IsProvider(q)
               && Linked(n, p.network, q.network) && Hit(n, r, net, p.mgntIp.value, q) :: Sight(p.id, q.id)
  }

  function Without(s: set<Sight>, id: Id): set<Sight> {
    set x | x in s && x.from != id && x.to != id
  }

  // ----- steps

  function Initial(n: Neutron): Cluster {
    Cluster(n, map[], set p | p in n.ports :: p.id, set g | g in n.sgs :: g.id, {}, {}, {}, {}, {}, {})
  }

  /** A log is processed after the change it reports, and there may be several of one object:
      an interface that was removed twice has left two. Enabling or disabling a router logs a
      router update, which is handled like an attachment. The server consumes the logs of a
      router that is disabled or not distributed, and does nothing. */
  ghost predicate Step(c: Cluster, e: Event, d: Cluster) {
    match e
    case ChangePort(p) =>
      PortChanged(c.n, d.n, p) && p.id !in c.gone && d == c.(n := d.n, dirty := c.dirty + {p.id})
    case DeletePort(id) =>
      && PortDeleted(c.n, d.n, id)
      && d == c.(n := d.n, gone := c.gone + {id}, untold := Without(c.untold, id),
                 struck := Without(c.struck, id), lost := Without(c.lost, id))
    case ChangeGroup(g) =>
      GroupChanged(c.n, d.n, g) && d == c.(n := d.n, dirtyGroups := c.dirtyGroups + {g.id})
    case DeleteGroup(id) =>
      GroupDeleted(c.n, d.n, id) && d == c.(n := d.n, dirtyGroups := c.dirtyGroups + {id})
    case AttachIface(iface) =>
      && IfaceAdded(c.n, d.n, iface)
      && d == c.(n := d.n, attaching := c.attaching + {iface.deviceId}, untold := c.untold + NewlyLinked(c.n, d.n))
    case DetachIface(r, net) =>
      && IfaceRemoved(c.n, d.n, r, net)
      && d == c.(n := d.n, detaching := c.detaching + {Pair(r, net)}, lost := c.lost + NewlyApart(c.n, d.n))
    case SetAdmin(r, up) =>
      AdminSet(c.n, d.n, r, up) && d == c.(n := d.n, attaching := c.attaching + {r})
    case ProcessPort(id, nets, answers) =>
      (match PortById(c.n.ports, id)
       case None => d == c.(dirty := c.dirty - {id})
       case Some(p) => p in c.n.ports && PortProcessed(c, p, nets, answers, d))
    case ProcessGroup(id) =>
      d == c.(dirtyGroups := c.dirtyGroups - {id},
              stores := match GroupById(c.n.sgs, id)
                        case Some(g) => GroupUpdated(c.n, g, c.stores)
                        case None => c.stores)
    case ProcessAttach(r) =>
      && WellFormed(c.n) && r in c.n.routers
      && AttachProcessed(c, c.n.routers[r], d)
    case ProcessDetach(r, net) =>
      && WellFormed(c.n) && r in c.n.routers && net in c.n.networks
      && DetachProcessed(c, c.n.routers[r], net, d)
  }

  /** The push tells all ports of the router of each other, and restores what was taken away. */
  ghost predicate AttachProcessed(c: Cluster, r: Router, d: Cluster)
    requires WellFormed(c.n)
  {
    var logged := c.(attaching := c.attaching - {r.id});
    if Serves(r) then
      d == logged.(stores := Attached(c.n, r, c.stores),
                   untold := c.untold - RouterPairs(c.n, r.id), struck := c.struck - RouterPairs(c.n, r.id))
    else d == logged
  }

  ghost predicate DetachProcessed(c: Cluster, r: Router, net: Id, d: Cluster)
    requires WellFormed(c.n)
  {
    var logged := c.(detaching := c.detaching - {Pair(r.id, net)});
    if Serves(r) then
      d == logged.(stores := Detached(c.n, r, net, c.stores),
                   struck := c.struck + Struck(c.n, r, net), lost := c.lost - SidePairs(c.n, Pair(r.id, net)))
    else d == logged
  }

  /** A port whose VM does not answer has only announced itself, and stays unprocessed. Once
      the VM has answered it has been given the port's whole view, and nothing else. */
  ghost predicate PortProcessed(c: Cluster, p: Port, nets: seq<Id>, answers: bool, d: Cluster)
    requires p in c.n.ports
  {
    if !IsProvider(p) then d == c.(dirty := c.dirty - {p.id})
    else
      && WellFormed(c.n) && Enumerates(nets, Domain(c.n, p.network))
      && if !answers then d == c.(stores := PortUpdated(c.n, p, nets, false, c.stores))
         else d == c.(stores := PortUpdated(c.n, p, nets, true, c.stores), dirty := c.dirty - {p.id},
                      untold := Without(c.untold, p.id), struck := Without(c.struck, p.id),
                      lost := set x | x in c.lost && x.from != p.id)
  }

  /** The steps in which the server does something. */
  predicate IsProcess(e: Event) {
    e.ProcessPort? || e.ProcessGroup? || e.ProcessAttach? || e.ProcessDetach?
  }

  ghost predicate IsRun(cs: seq<Cluster>, es: seq<Event>) {
    && |cs| == |es| + 1
    && cs[0] == Initial(cs[0].n)
    && (forall i :: 0 <= i < |cs| ==> Sane(cs[i].n))
    && forall i :: 0 <= i < |es| ==> Step(cs[i], es[i], cs[i + 1])
  }

  // ----- what the steps mean for one VM

  function VmStore(c: Cluster, p: Port): Store {
    if p.mgntIp.Some? then StoreOf(c.stores, p.mgntIp.value) else map[]
  }

  lemma VmsOfMembers(ports: seq<Port>, excluded: seq<Id>, m: Vm)
    ensures m in VmsOf(ports, excluded) <==> exists p :: p in ports && p.id !in excluded && p.mgntIp == Some(m)
  {
  }

  lemma UpdateLookup(s: Store, b: Batch, l: Loc)
    requires Consistent(b)
    ensures Lookup(StoreStep(s, Update(b)), l) == if l in MapOf(b) then Some(MapOf(b)[l]) else Lookup(s, l)
    ensures l in MapOf(b) <==> Mentions(b, l)
    ensures forall e :: e in b && e.At() == l ==> Lookup(StoreStep(s, Update(b)), l) == Some(e.value)
  {
    MapOfConsistent(b);
  }

  lemma ApplyLookup(s: Store, b: Batch, l: Loc)
    requires Consistent(b)
    ensures Lookup(StoreStep(s, Apply(b)), l).Some? <==> Mentions(b, l)
    ensures forall e :: e in b && e.At() == l ==> Lookup(StoreStep(s, Apply(b)), l) == Some(e.value)
  {
    MapOfConsistent(b);
  }

  lemma DeleteLookup(s: Store, b: Batch, l: Loc)
    ensures Lookup(StoreStep(s, Delete(Locs(b))), l) == if Mentions(b, l) then None else Lookup(s, l)
  {
    LocsMembers(b, l);
  }

  lemma LocsMembers(b: Batch, l: Loc)
    ensures l in Locs(b) <==> Mentions(b, l)
  {
    if e :| e in b && e.At() == l {
      var i :| 0 <= i < |b| && b[i] == e;
      assert Locs(b)[i] == l;
    }
  }
}
