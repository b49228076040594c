/** What each update action computes and sends, as functions of what it reads: the batch,
    the VMs it goes to, and the stores of all VMs afterwards. */
module Actions {
  import opened Records
  import opened Batches
  import opened Neutron
  import opened PortInfo
  import opened Drivers

  /** A VM is named by its management address. */
  type Vm = string

  type Stores = map<Vm, Store>

  function StoreOf(stores: Stores, m: Vm): Store {
    if m in stores then stores[m] else map[]
  }

  /** Executing one command on every VM of a set. */
  function Broadcast(stores: Stores, c: Command, vms: set<Vm>): Stores {
    map m | m in stores.Keys + vms :: if m in vms then StoreStep(StoreOf(stores, m), c) else stores[m]
  }

  lemma BroadcastAt(stores: Stores, c: Command, vms: set<Vm>, m: Vm)
    ensures StoreOf(Broadcast(stores, c, vms), m) ==
            if m in vms then StoreStep(StoreOf(stores, m), c) else StoreOf(stores, m)
  {
  }

  // ----- what an action reads

  function VmsOf(ports: seq<Port>, excluded: seq<Id>): set<Vm> {
    set p | p in ports && p.id !in excluded && p.mgntIp.Some? :: p.mgntIp.value
  }

  function TunnelsOf(ports: seq<Port>): seq<Tunnel> {
    if ports == [] then []
    else TunnelsOf(ports[..|ports| - 1])
         + if IsProvider(ports[|ports| - 1])
           then [Tunnel(ports[|ports| - 1].providerIp.value, ports[|ports| - 1].host)] else []
  }

  /** At most one endpoint, holding every tunnel. */
  function EndpointsOf(ports: seq<Port>): seq<Endpoint> {
    if TunnelsOf(ports) == [] then [] else [Endpoint(TunnelsOf(ports), VXLAN)]
  }

  lemma {:induction false} TunnelsAreChassis(ports: seq<Port>)
    ensures TunnelChassis(TunnelsOf(ports), VXLAN) == ChassisOfPorts(ports)
  {
    if ports == [] {
    } else {
      TunnelsAreChassis(ports[..|ports| - 1]);
    }
  }

  /** The chassis of a port info are those of the ports its endpoints were collected from. */
  lemma EndpointsAreChassis(ports: seq<Port>)
    ensures EndpointChassis(EndpointsOf(ports)) == ChassisOfPorts(ports)
  {
    TunnelsAreChassis(ports);
    var es := EndpointsOf(ports);
    if es != [] {
      assert es[..|es| - 1] == [];
    }
  }

  function RouterPorts(n: Neutron, router: Option<Router>): seq<Port> {
    if router.Some? && router.value.distributed then DevicePorts(n, router.value.id) else []
  }

  function NetsOf(ports: seq<Port>): seq<Id> {
    seq(|ports|, i requires 0 <= i < |ports| => ports[i].network)
  }

  lemma NetsOfMembers(ports: seq<Port>, x: Id)
    ensures x in NetsOf(ports) <==> exists p :: p in ports && p.network == x
  {
    if p :| p in ports && p.network == x {
      var i :| 0 <= i < |ports| && ports[i] == p;
      assert NetsOf(ports)[i] == x;
    }
  }

  function PortById(ports: seq<Port>, id: Id): Option<Port> {
    if ports == [] then None else if ports[0].id == id then Some(ports[0]) else PortById(ports[1..], id)
  }

  function GroupById(sgs: seq<Secgroup>, id: Id): Option<Secgroup> {
    if sgs == [] then None else if sgs[0].id == id then Some(sgs[0]) else GroupById(sgs[1..], id)
  }

  lemma {:induction false} PortByIdFinds(ports: seq<Port>, id: Id)
    ensures PortById(ports, id).Some? ==> PortById(ports, id).value in ports && PortById(ports, id).value.id == id
    ensures PortById(ports, id).None? ==> forall p :: p in ports ==> p.id != id
  {
    if ports == [] {
    } else {
      PortByIdFinds(ports[1..], id);
      assert ports == [ports[0]] + ports[1..];
    }
  }

  lemma {:induction false} GroupByIdFinds(sgs: seq<Secgroup>, id: Id)
    ensures GroupById(sgs, id).Some? ==> GroupById(sgs, id).value in sgs && GroupById(sgs, id).value.id == id
    ensures GroupById(sgs, id).None? ==> forall g :: g in sgs ==> g.id != id
  {
    if sgs == [] {
    } else {
      GroupByIdFinds(sgs[1..], id);
      assert sgs == [sgs[0]] + sgs[1..];
    }
  }

  /** `list.remove`: the first occurrence. */
  function RemoveFirst(ports: seq<Port>, p: Port): seq<Port> {
    if ports == [] then [] else if ports[0] == p then ports[1..] else [ports[0]] + RemoveFirst(ports[1..], p)
  }

  lemma {:induction false} RemoveFirstMembers(ports: seq<Port>, p: Port)
    requires NoDup(ports)
    ensures forall q :: q in RemoveFirst(ports, p) <==> q in ports && q != p
  {
    if ports == [] {
    } else {
      RemoveFirstMembers(ports[1..], p);
      assert ports == [ports[0]] + ports[1..];
      assert ports[0] !in ports[1..];
    }
  }

  lemma RouterNetsKnown(n: Neutron, own: Option<Port>, ports: seq<Port>)
    requires WellFormed(n) && (own.Some? ==> own.value in n.ports) && forall p :: p in ports ==> p in n.ports
    ensures NetsKnown(n, AddedNets(OwnNets(own), ports))
  {
    AddedNetsMembers(OwnNets(own), ports);
  }

  // ----- port update

  /** `nets` is the order in which the set of networks was listed. */
  function PortUpdateInfo(n: Neutron, r: Port, nets: seq<Id>): Info
    requires WellFormed(n) && r in n.ports
  {
    var all, router := PortsOn(n, nets), RouterOf(n, r.network);
    var routerPorts := RouterPorts(n, router);
    RouterPortsInN(n, router);
    RouterNetsKnown(n, Some(r), routerPorts);
    InfoOf(n, Some(r), RemoveFirst(all, r), EndpointsOf(all), router, routerPorts)
  }

  lemma RouterPortsInN(n: Neutron, router: Option<Router>)
    ensures forall p :: p in RouterPorts(n, router) <==>
              router.Some? && router.value.distributed && p in n.ports && p.deviceId == router.value.id
  {
    if router.Some? && router.value.distributed {
      DevicePortsMembers(n, router.value.id);
    }
  }

  function PortNeighbours(n: Neutron, r: Port, nets: seq<Id>): set<Vm> {
    VmsOf(RemoveFirst(PortsOn(n, nets), r), [r.id])
  }

  /** The other VMs learn of the port; then, if its own VM answers, that VM is given the
      whole view. */
  function PortUpdated(n: Neutron, r: Port, nets: seq<Id>, up: bool, stores: Stores): Stores
    requires WellFormed(n) && r in n.ports && IsProvider(r)
  {
    var info := PortUpdateInfo(n, r, nets);
    var told := Broadcast(stores, Update(Announcement(info)), PortNeighbours(n, r, nets));
    if up then Broadcast(told, Apply(ToDb(info)), {r.mgntIp.value}) else told
  }

  // ----- security group update

  function GroupUpdated(n: Neutron, sg: Secgroup, stores: Stores): Stores {
    Broadcast(stores, Update([SecgroupEntry(sg)]), VmsOf(GroupPorts(n, sg.id), []))
  }

  /** The server acts on the interface logs of a router only while it is enabled. */
  predicate Serves(r: Router) { r.distributed && r.adminUp }

  // ----- router interface attach

  function AttachedPorts(n: Neutron, r: Router): seq<Port> {
    PortsOn(n, NetsOf(DevicePorts(n, r.id)))
  }

  function AttachInfo(n: Neutron, r: Router): Info
    requires WellFormed(n)
  {
    DevicePortsMembers(n, r.id);
    RouterNetsKnown(n, None, DevicePorts(n, r.id));
    InfoOf(n, None, AttachedPorts(n, r), EndpointsOf(AttachedPorts(n, r)), Some(r), DevicePorts(n, r.id))
  }

  function Attached(n: Neutron, r: Router, stores: Stores): Stores
    requires WellFormed(n)
  {
    if Serves(r)
    then Broadcast(stores, Update(ToDb(AttachInfo(n, r))), VmsOf(AttachedPorts(n, r), []))
    else stores
  }

  // ----- router interface detach

  function NotOnNet(net: Id): Port -> bool { (p: Port) => p.network != net }

  /** The router's ports on its other networks, and everything connected there. */
  function RemainingIfaces(n: Neutron, r: Router, net: Id): seq<Port> {
    Where(DevicePorts(n, r.id), NotOnNet(net))
  }

  function ConnectedPorts(n: Neutron, r: Router, net: Id): seq<Port> {
    PortsOn(n, NetsOf(RemainingIfaces(n, r, net)))
  }

  lemma RemainingIfacesMembers(n: Neutron, r: Router, net: Id)
    ensures forall p :: p in RemainingIfaces(n, r, net) <==> p in n.ports && p.deviceId == r.id && p.network != net
  {
    DevicePortsMembers(n, r.id);
    WhereMembers(DevicePorts(n, r.id), NotOnNet(net));
  }

  /** What the connected side forgets: the ports and chassis of the detached network. */
  function DetachedInfo(n: Neutron, net: Id): Info {
    InfoOf(n, None, NetworkPorts(n, net), EndpointsOf(NetworkPorts(n, net)), None, [])
  }

  /** What the detached side forgets: everything behind the router, and the router. */
  function ConnectedInfo(n: Neutron, r: Router, net: Id): Info
    requires WellFormed(n)
  {
    RemainingIfacesMembers(n, r, net);
    RouterNetsKnown(n, None, RemainingIfaces(n, r, net));
    var connected := ConnectedPorts(n, r, net);
    InfoOf(n, None, connected, EndpointsOf(connected), Some(r), RemainingIfaces(n, r, net))
  }

  function Detached(n: Neutron, r: Router, net: Id, stores: Stores): Stores
    requires WellFormed(n)
  {
    if !Serves(r) then stores
    else
      var connected := ConnectedPorts(n, r, net);
      var first := if connected == [] then stores
                   else Broadcast(stores, Delete(Locs(ToDb(DetachedInfo(n, net)))), VmsOf(connected, []));
      Broadcast(first, Delete(Locs(ToDb(ConnectedInfo(n, r, net)))), VmsOf(NetworkPorts(n, net), []))
  }
}
