/** The update actions as the server runs them: loops that collect ports, endpoints and VMs,
    and a client that sends to one VM after the other. */
module UpdateActions {
  import opened Records
  import opened Batches
  import opened Neutron
  import opened PortInfo
  import opened Drivers
  import opened Actions
  import Builder = PortInfoBuilder

  /** The client, with the stores of the VMs it reaches. */
  class BambukAgentClient {
    var stores: Stores

    constructor ()
      ensures stores == map[]
    {
      stores := map[];
    }

    method SendToAll(c: Command, vms: set<Vm>)
      modifies this
      ensures stores == Broadcast(old(stores), c, vms)
    {
      var todo := vms;
      while todo != {}
        invariant todo <= vms
        invariant stores == Broadcast(old(stores), c, vms - todo)
        decreases |todo|
      {
        var vm :| vm in todo;
        BroadcastOneMore(old(stores), c, vms - todo, vm);
        assert vms - (todo - {vm}) == vms - todo + {vm};
        stores := stores[vm := StoreStep(StoreOf(stores, vm), c)];
        todo := todo - {vm};
      }
      assert vms - {} == vms;
    }

    method ApplyTo(connectDb: Batch, vm: Vm)
      modifies this
      ensures stores == Broadcast(old(stores), Apply(connectDb), {vm})
    {
      BroadcastOneMore(stores, Apply(connectDb), {}, vm);
      assert Broadcast(stores, Apply(connectDb), {}) == stores && {} + {vm} == {vm};
      stores := stores[vm := StoreStep(StoreOf(stores, vm), Apply(connectDb))];
    }
  }

  lemma BroadcastOneMore(stores: Stores, c: Command, vms: set<Vm>, vm: Vm)
    requires vm !in vms
    ensures Broadcast(stores, c, vms + {vm}) ==
            Broadcast(stores, c, vms)[vm := StoreStep(StoreOf(Broadcast(stores, c, vms), vm), c)]
  {
    var x, y := Broadcast(stores, c, vms + {vm}), Broadcast(stores, c, vms);
    assert StoreOf(y, vm) == StoreOf(stores, vm);
    assert x.Keys == y.Keys + {vm};
  }

  /** `list(set(...))`: the members in some order. */
  method ListOfSet(s: set<Id>) returns (l: seq<Id>)
    ensures Enumerates(l, s)
  {
    l := [];
    var todo := s;
    while todo != {}
      invariant todo <= s
      invariant Enumerates(l, s - todo)
      decreases |todo|
    {
      var x :| x in todo;
      l := l + [x];
      todo := todo - {x};
    }
  }

  method GetVms(ports: seq<Port>, excluded: seq<Id>) returns (vms: set<Vm>)
    ensures vms == VmsOf(ports, excluded)
  {
    vms := {};
    for i := 0 to |ports|
      invariant forall m :: m in vms <==> exists p :: p in ports[..i] && p.id !in excluded && p.mgntIp == Some(m)
    {
      var port := ports[i];
      assert ports[..i + 1] == ports[..i] + [port];
      if port.id in excluded {
        continue;
      }
      if port.mgntIp.Some? {
        vms := vms + {port.mgntIp.value};
      }
    }
    assert ports[..|ports|] == ports;
  }

  /** Collects the endpoints of the provider ports, and finds the special port among them. */
  method GetEndpoints(ports: seq<Port>, port: Option<Port>) returns (endpoints: seq<Endpoint>, portDb: Option<Port>)
    ensures endpoints == EndpointsOf(ports)
    ensures portDb.Some? ==> port.Some? && portDb.value in ports && portDb.value.id == port.value.id
    ensures portDb.None? && port.Some? ==> forall p :: p in ports ==> p.id != port.value.id
  {
    endpoints, portDb := [], None;
    for i := 0 to |ports|
      invariant endpoints == EndpointsOf(ports[..i])
      invariant portDb.Some? ==> port.Some? && portDb.value in ports[..i] && portDb.value.id == port.value.id
      invariant portDb.None? && port.Some? ==> forall p :: p in ports[..i] ==> p.id != port.value.id
    {
      var p := ports[i];
      assert ports[..i + 1] == ports[..i] + [p] && ports[..i + 1][..i] == ports[..i];
      if port.Some? && port.value.id == p.id {
        portDb := Some(p);
      }
      if IsProvider(p) {
        var tunnel := Tunnel(p.providerIp.value, p.host);
        var found := -1;
        for j := 0 to |endpoints|
          invariant -1 <= found < j
          invariant found == -1 ==> forall k :: 0 <= k < j ==> endpoints[k].tunnelType != VXLAN
          invariant found != -1 ==> endpoints[found].tunnelType == VXLAN
        {
          if endpoints[j].tunnelType == VXLAN {
            found := j;
          }
        }
        assert endpoints != [] ==> endpoints[0].tunnelType == VXLAN;
        assert TunnelsOf(ports[..i + 1]) == TunnelsOf(ports[..i]) + [tunnel];
        assert endpoints != [] ==> found == 0 && endpoints == [Endpoint(TunnelsOf(ports[..i]), VXLAN)];
        if found != -1 && endpoints[found].tunnels != [] {
          endpoints := endpoints[found := endpoints[found].(tunnels := endpoints[found].tunnels + [tunnel])];
        } else {
          assert TunnelsOf(ports[..i + 1]) == [tunnel];
          endpoints := endpoints + [Endpoint([tunnel], VXLAN)];
        }
      } else {
        assert TunnelsOf(ports[..i + 1]) == TunnelsOf(ports[..i]);
      }
    }
    assert ports[..|ports|] == ports;
  }

  method GetPort(n: Neutron, id: Id) returns (port: Option<Port>)
    ensures port == PortById(n.ports, id)
  {
    port := PortById(n.ports, id);
  }

  method GetRoutersForNet(n: Neutron, net: Id) returns (routers: seq<Router>)
    requires Interfaces(n)
    ensures RouterOf(n, net) == if routers == [] then None else Some(routers[0])
  {
    routers := [];
    var ports := NetworkPorts(n, net);
    NetworkPortsMembers(n, net);
    for i := 0 to |ports|
      invariant |routers| == |Where(ports[..i], IfaceOn(net))|
      invariant routers != [] ==> Where(ports[..i], IfaceOn(net))[0] in n.ports
      invariant routers != [] ==> IsIface(Where(ports[..i], IfaceOn(net))[0])
      invariant routers != [] ==> routers[0] == n.routers[Where(ports[..i], IfaceOn(net))[0].deviceId]
    {
      WhereAppend(ports, i, IfaceOn(net));
      assert ports[i] in ports;
      if IsIface(ports[i]) {
        routers := routers + [n.routers[ports[i].deviceId]];
      }
    }
    assert ports[..|ports|] == ports;
    IfacesOfNet(n.ports, net);
  }

  lemma {:induction false} IfacesOfNet(ports: seq<Port>, net: Id)
    ensures Where(Where(ports, OnNet(net)), IfaceOn(net)) == Where(ports, IfaceOn(net))
  {
    if ports == [] {
    } else {
      var init, last := ports[..|ports| - 1], ports[|ports| - 1];
      IfacesOfNet(init, net);
      var kept := Where(init, OnNet(net));
      if last.network == net {
        assert Where(ports, OnNet(net)) == kept + [last];
        assert (kept + [last])[..|kept|] == kept;
      } else {
        assert Where(ports, OnNet(net)) == kept;
      }
    }
  }

  method PortsOfNetworks(n: Neutron, networks: seq<Id>) returns (ports: seq<Port>)
    ensures ports == PortsOn(n, networks)
  {
    ports := [];
    for i := 0 to |networks|
      invariant ports == PortsOn(n, networks[..i])
    {
      assert networks[..i + 1][..i] == networks[..i];
      ports := ports + NetworkPorts(n, networks[i]);
    }
    assert networks[..|networks|] == networks;
  }

  /** The version a port update runs: the router's administrative state is not looked at. */
  method GetRouterAndPortsFromNet(n: Neutron, net: Id)
    returns (router: Option<Router>, routerPorts: seq<Port>, ports: seq<Port>, ghost nets: seq<Id>)
    requires WellFormed(n)
    ensures router == RouterOf(n, net) && routerPorts == RouterPorts(n, router)
    ensures Enumerates(nets, Domain(n, net)) && ports == PortsOn(n, nets)
    ensures NoDup(ports) && forall p :: p in ports <==> p in n.ports && p.network in Domain(n, net)
  {
    router, routerPorts := None, [];
    var routers := GetRoutersForNet(n, net);
    var networks: set<Id> := {};
    if |routers| > 0 {
      router := Some(routers[0]);
      if routers[0].distributed {
        routerPorts := DevicePorts(n, routers[0].id);
        DevicePortsMembers(n, routers[0].id);
        for i := 0 to |routerPorts|
          invariant forall x :: x in networks <==> exists p :: p in routerPorts[..i] && p.network == x
        {
          assert routerPorts[..i + 1] == routerPorts[..i] + [routerPorts[i]];
          networks := networks + {routerPorts[i].network};
        }
        assert routerPorts[..|routerPorts|] == routerPorts;
      }
    }
    networks := networks + {net};
    assert networks == Domain(n, net);
    var list := ListOfSet(networks);
    ports := PortsOfNetworks(n, list);
    nets := list;
    PortsOnMembers(n, nets);
    PortsOnNoDup(n, nets);
  }

  /** The inherited version: a router counts only if it is enabled and distributed. */
  method BaseGetRouterAndPortsFromNet(n: Neutron, net: Id)
    returns (router: Option<Router>, routerPorts: seq<Port>, ports: seq<Port>, ghost nets: seq<Id>)
    requires WellFormed(n)
    ensures router == BaseRouterOf(n, net) && routerPorts == RouterPorts(n, router)
    ensures Enumerates(nets, BaseDomain(n, net)) && ports == PortsOn(n, nets)
  {
    router, routerPorts := None, [];
    var routers := GetRoutersForNet(n, net);
    if |routers| > 0 {
      if routers[0].adminUp && routers[0].distributed {
        router := Some(routers[0]);
        routerPorts := DevicePorts(n, routers[0].id);
        DevicePortsMembers(n, routers[0].id);
      }
    }
    var networks := {net};
    for i := 0 to |routerPorts|
      invariant forall x :: x in networks <==> x == net || exists p :: p in routerPorts[..i] && p.network == x
    {
      assert routerPorts[..i + 1] == routerPorts[..i] + [routerPorts[i]];
      networks := networks + {routerPorts[i].network};
    }
    assert routerPorts[..|routerPorts|] == routerPorts;
    assert networks == BaseDomain(n, net);
    var list := ListOfSet(networks);
    ports := PortsOfNetworks(n, list);
    nets := list;
  }

  function BaseRouterOf(n: Neutron, net: Id): Option<Router>
    requires Interfaces(n)
  {
    var r := RouterOf(n, net);
    if r.Some? && r.value.adminUp && r.value.distributed then r else None
  }

  function BaseDomain(n: Neutron, net: Id): set<Id>
    requires Interfaces(n)
  {
    match BaseRouterOf(n, net)
    case None => {net}
    case Some(r) => {net} + (set p | p in n.ports && p.deviceId == r.id :: p.network)
  }

  /** The two versions reach the same networks exactly when the network has no distributed
      router, or an enabled one, or one that has no port on any other network. */
  lemma BaseReachesIff(n: Neutron, net: Id)
    requires Interfaces(n)
    ensures var r := RouterOf(n, net);
            BaseDomain(n, net) == Domain(n, net) <==>
            (r.None? || !r.value.distributed || r.value.adminUp
             || forall p :: p in n.ports && p.deviceId == r.value.id ==> p.network == net)
    ensures BaseDomain(n, net) <= Domain(n, net)
  {
    var r := RouterOf(n, net);
    if r.Some? && r.value.distributed && !r.value.adminUp {
      if p :| p in n.ports && p.deviceId == r.value.id && p.network != net {
        assert p.network in Domain(n, net) && p.network !in BaseDomain(n, net);
      } else {
        assert Domain(n, net) == {net};
      }
    }
  }

  /** The sends of a port update. */
  method SendPort(info: Builder.BambukPortInfo, vms: set<Vm>, own: Vm, up: bool, client: BambukAgentClient)
    requires info.lport.Some?
    modifies client
    ensures var told := Broadcast(old(client.stores), Update(Announcement(info.View())), vms);
            client.stores == if up then Broadcast(told, Apply(ToDb(info.View())), {own}) else told
  {
    var update := info.AnnouncementList();
    client.SendToAll(Update(update.items), vms);
    if !up {
      return;
    }
    var db := info.ToDbList();
    client.ApplyTo(db.items, own);
  }

  /** A port log: tell the neighbours, ask the port's VM for its state, give it the view.
      `up` says whether that VM answered and, with L2 population on, its agent is known. */
  method PortUpdate(n: Neutron, id: Id, up: bool, client: BambukAgentClient) returns (ghost nets: seq<Id>)
    requires WellFormed(n)
    modifies client
    ensures match PortById(n.ports, id)
            case None => client.stores == old(client.stores)
            case Some(r) =>
              r in n.ports &&
              if IsProvider(r)
              then Enumerates(nets, Domain(n, r.network)) &&
                   client.stores == PortUpdated(n, r, nets, up, old(client.stores))
              else client.stores == old(client.stores)
  {
    nets := [];
    var found := GetPort(n, id);
    PortByIdFinds(n.ports, id);
    if found.None? {
      return;
    }
    var port := found.value;
    if !IsProvider(port) {
      return;
    }
    var router, routerPorts, otherPorts;
    router, routerPorts, otherPorts, nets := GetRouterAndPortsFromNet(n, port.network);
    var endpoints, portDb := GetEndpoints(otherPorts, Some(port));
    assert port in otherPorts;
    assert portDb == Some(port);
    otherPorts := RemoveFirst(otherPorts, portDb.value);
    RouterPortsInN(n, router);
    RouterNetsKnown(n, Some(port), routerPorts);
    var info := new Builder.BambukPortInfo(n, portDb, otherPorts, endpoints, router, routerPorts);
    assert info.View() == PortUpdateInfo(n, port, nets);
    var vms := GetVms(otherPorts, [port.id]);
    SendPort(info, vms, port.mgntIp.value, up, client);
  }

  method SecurityGroupUpdate(n: Neutron, id: Id, client: BambukAgentClient)
    modifies client
    ensures client.stores == match GroupById(n.sgs, id)
                             case Some(sg) => GroupUpdated(n, sg, old(client.stores))
                             case None => old(client.stores)
  {
    var sg := GroupById(n.sgs, id);
    GroupByIdFinds(n.sgs, id);
    if sg.None? {
      return;
    }
    var ports := GroupPorts(n, sg.value.id);
    var vms := GetVms(ports, []);
    client.SendToAll(Update([SecgroupEntry(sg.value)]), vms);
  }

  /** Looking up a router that is gone raises before anything is sent. */
  method RouterIfaceAttach(n: Neutron, id: Id, client: BambukAgentClient)
    requires WellFormed(n)
    modifies client
    ensures client.stores ==
            if id in n.routers then Attached(n, n.routers[id], old(client.stores)) else old(client.stores)
  {
    if id !in n.routers {
      return;
    }
    var router := n.routers[id];
    if !router.distributed || !router.adminUp {
      return;
    }
    var ifaces := DevicePorts(n, router.id);
    var routerPorts: seq<Port> := [];
    var ports: seq<Port> := [];
    for i := 0 to |ifaces|
      invariant routerPorts == ifaces[..i]
      invariant ports == PortsOn(n, NetsOf(ifaces)[..i])
    {
      routerPorts := routerPorts + [ifaces[i]];
      assert NetsOf(ifaces)[..i + 1][..i] == NetsOf(ifaces)[..i];
      ports := ports + NetworkPorts(n, ifaces[i].network);
    }
    assert ifaces[..|ifaces|] == ifaces && NetsOf(ifaces)[..|ifaces|] == NetsOf(ifaces);
    var endpoints, _ := GetEndpoints(ports, None);
    DevicePortsMembers(n, router.id);
    RouterNetsKnown(n, None, routerPorts);
    var info := new Builder.BambukPortInfo(n, None, ports, endpoints, Some(router), routerPorts);
    var vms := GetVms(ports, []);
    var db := info.ToDbList();
    client.SendToAll(Update(db.items), vms);
  }

  /** The first port is on a subnet and the second is not on the same one. */
  predicate Crosses(subnetOf: Port -> Option<Id>, p: Port, q: Port) {
    subnetOf(p).Some? && subnetOf(q) != subnetOf(p)
  }

  /** A router log: an enabled router is handled as a fresh attachment, one that is not
      distributed is ignored. For a disabled one the code raises as soon as it finds two router
      ports on different subnets, before it has sent anything; otherwise it sends nothing. */
  method RouterUpdate(n: Neutron, id: Id, subnetOf: Port -> Option<Id>, client: BambukAgentClient)
    returns (raised: bool)
    requires WellFormed(n)
    modifies client
    ensures client.stores ==
            if id in n.routers then Attached(n, n.routers[id], old(client.stores)) else old(client.stores)
    ensures raised <==> id !in n.routers ||
                        (n.routers[id].distributed && !n.routers[id].adminUp &&
                         exists p, q :: p in DevicePorts(n, id) && q in DevicePorts(n, id) && Crosses(subnetOf, p, q))
  {
    if id !in n.routers {
      return true;
    }
    var router := n.routers[id];
    if !router.distributed {
      return false;
    }
    if router.adminUp {
      RouterIfaceAttach(n, id, client);
      return false;
    }
    var routerPorts := DevicePorts(n, router.id);
    for i := 0 to |routerPorts|
      invariant forall p, q :: p in routerPorts[..i] && q in routerPorts ==> !Crosses(subnetOf, p, q)
      invariant client.stores == old(client.stores)
    {
      var subnet := subnetOf(routerPorts[i]);
      if subnet.None? {
        continue;
      }
      for j := 0 to |routerPorts|
        invariant forall q :: q in routerPorts[..j] ==> !Crosses(subnetOf, routerPorts[i], q)
        invariant client.stores == old(client.stores)
      {
        if subnet == subnetOf(routerPorts[j]) {
          continue;
        }
        assert routerPorts[i] in routerPorts && routerPorts[j] in routerPorts;
        assert Crosses(subnetOf, routerPorts[i], routerPorts[j]);
        return true;
      }
      assert routerPorts[..|routerPorts|] == routerPorts;
    }
    assert routerPorts[..|routerPorts|] == routerPorts;
    return false;
  }

  method RouterIfaceDetach(n: Neutron, id: Id, net: Id, client: BambukAgentClient)
    requires WellFormed(n)
    modifies client
    ensures client.stores ==
            if id in n.routers && net in n.networks then Detached(n, n.routers[id], net, old(client.stores))
            else old(client.stores)
  {
    if id !in n.routers {
      return;
    }
    var router := n.routers[id];
    if !router.adminUp || !router.distributed || net !in n.networks {
      return;
    }
    var detachedPorts := NetworkPorts(n, net);
    var ifaces := DevicePorts(n, router.id);
    var remaining: seq<Port> := [];
    for i := 0 to |ifaces|
      invariant remaining == Where(ifaces[..i], NotOnNet(net))
    {
      assert ifaces[..i + 1][..i] == ifaces[..i];
      if ifaces[i].network == net {
        continue;
      }
      remaining := remaining + [ifaces[i]];
    }
    assert ifaces[..|ifaces|] == ifaces;
    assert remaining == RemainingIfaces(n, router, net);
    var connectedPorts := PortsOfNetworks(n, NetsOf(remaining));
    if |connectedPorts| > 0 {
      var vms := GetVms(connectedPorts, []);
      var endpoints, _ := GetEndpoints(detachedPorts, None);
      var info := new Builder.BambukPortInfo(n, None, detachedPorts, endpoints, None, []);
      var db := info.ToDbList();
      client.SendToAll(Delete(Locs(db.items)), vms);
    }
    var vms := GetVms(detachedPorts, []);
    var endpoints: seq<Endpoint> := [];
    if |connectedPorts| > 0 {
      var found, _ := GetEndpoints(connectedPorts, None);
      endpoints := found;
    }
    RemainingIfacesMembers(n, router, net);
    RouterNetsKnown(n, None, remaining);
    var info := new Builder.BambukPortInfo(n, None, connectedPorts, endpoints, Some(router), remaining);
    var db := info.ToDbList();
    client.SendToAll(Delete(Locs(db.items)), vms);
  }
}
