/** The object that builds a batch: it computes its records in its constructor, and writes
    them into lists that its callers hand on and append to in place. */
module PortInfoBuilder {
  import opened Records
  import opened Batches
  import opened Neutron
  import opened PortInfo

  /** A Python list of entries: an object, so appending is seen by everyone who holds it. */
  class EntryList {
    var items: Batch

    constructor ()
      ensures items == []
    {
      items := [];
    }

    method Append(e: Entry)
      modifies this
      ensures items == old(items) + [e]
    {
      items := items + [e];
    }
  }

  method ListNets(own: seq<Id>, routerPorts: seq<Port>) returns (nets: seq<Id>)
    ensures nets == AddedNets(own, routerPorts)
  {
    nets := own;
    for i := 0 to |routerPorts|
      invariant nets == AddedNets(own, routerPorts[..i])
    {
      assert routerPorts[..i + 1][..i] == routerPorts[..i];
      if routerPorts[i].network !in nets {
        nets := nets + [routerPorts[i].network];
      }
    }
    assert routerPorts[..|routerPorts|] == routerPorts;
  }

  method ListSwitches(n: Neutron, nets: seq<Id>) returns (switches: seq<Lswitch>)
    requires NetsKnown(n, nets)
    ensures switches == LswitchesOf(n, nets)
  {
    switches := [];
    for i := 0 to |nets|
      invariant switches == LswitchesOf(n, nets)[..i]
    {
      switches := switches + [LswitchOf(n, nets[i])];
    }
  }

  method ListRouterPorts(routerPorts: seq<Port>) returns (ports: seq<LrouterPort>)
    ensures ports == LrouterPorts(routerPorts)
  {
    ports := [];
    for i := 0 to |routerPorts|
      invariant ports == LrouterPorts(routerPorts)[..i]
    {
      ports := ports + [LrouterPort(routerPorts[i].id, routerPorts[i].network, routerPorts[i].info)];
    }
  }

  method ListLports(ports: seq<Port>) returns (lports: seq<Lport>)
    ensures lports == ComputeLports(ports)
  {
    lports := [];
    for i := 0 to |ports|
      invariant lports == ComputeLports(ports[..i])
    {
      assert ports[..i + 1][..i] == ports[..i];
      if IsCompute(ports[i]) {
        lports := lports + [LportOf(ports[i])];
      }
    }
    assert ports[..|ports|] == ports;
  }

  method ListChassis(endpoints: seq<Endpoint>) returns (all: seq<Chassis>)
    ensures all == EndpointChassis(endpoints)
  {
    all := [];
    for i := 0 to |endpoints|
      invariant all == EndpointChassis(endpoints[..i])
    {
      var entry := endpoints[i];
      assert endpoints[..i + 1][..i] == endpoints[..i];
      ghost var before := all;
      for j := 0 to |entry.tunnels|
        invariant all == before + TunnelChassis(entry.tunnels, entry.tunnelType)[..j]
      {
        all := all + [Chassis(entry.tunnels[j].host, entry.tunnels[j].ip, entry.tunnelType)];
      }
    }
    assert endpoints[..|endpoints|] == endpoints;
  }

  class BambukPortInfo {
    var lport: Option<Lport>
    var otherLports: seq<Lport>
    var secgroups: seq<Secgroup>
    var lswitches: seq<Lswitch>
    var chassis: seq<Chassis>
    var lrouter: Option<Lrouter>

    ghost function View(): Info
      reads this
    {
      Info(lport, otherLports, secgroups, lswitches, chassis, lrouter)
    }

    constructor (n: Neutron, port: Option<Port>, otherPorts: seq<Port>, endpoints: seq<Endpoint>,
                 router: Option<Router>, routerPorts: seq<Port>)
      requires NetsKnown(n, AddedNets(OwnNets(port), routerPorts))
      ensures View() == InfoOf(n, port, otherPorts, endpoints, router, routerPorts)
      ensures InfoSays(View(), n, port, otherPorts, endpoints, router, routerPorts)
    {
      var nets := ListNets(OwnNets(port), routerPorts);
      var switches := ListSwitches(n, nets);
      var others := ListLports(otherPorts);
      var all := ListChassis(endpoints);
      lswitches := switches;
      var ports := ListRouterPorts(routerPorts);
      InfoOfSays(n, port, otherPorts, endpoints, router, routerPorts);
      lport := if port.Some? then Some(LportOf(port.value)) else None;
      lrouter := if router.Some? then Some(Lrouter(router.value.id, router.value.info, ports)) else None;
      otherLports := others;
      secgroups := OwnGroups(n, port);
      chassis := all;
    }

    /** A list that was given and is not empty is appended to; any other is replaced by a new one. */
    method TakeList(given: EntryList?) returns (c: EntryList)
      ensures given != null && given.items != [] ==> c == given
      ensures given == null || given.items == [] ==> fresh(c) && c.items == []
    {
      if given != null && given.items != [] {
        c := given;
      } else {
        c := new EntryList();
      }
    }

    method PortDb(given: EntryList?) returns (c: EntryList)
      modifies given
      ensures given != null && old(given.items) != [] ==>
                c == given && c.items == old(given.items) + OptionEntries(lport, LportEntry)
      ensures given == null || old(given.items) == [] ==>
                fresh(c) && c.items == OptionEntries(lport, LportEntry) && (given != null ==> given.items == [])
    {
      c := TakeList(given);
      if lport.Some? {
        c.Append(LportEntry(lport.value));
      }
    }

    method ChassisDb(given: EntryList?, only: Option<string>) returns (c: EntryList)
      modifies given
      ensures var added := ChassisOf(chassis, only);
              && (given != null && old(given.items) != [] ==> c == given && c.items == old(given.items) + added)
              && (given == null || old(given.items) == [] ==>
                    fresh(c) && c.items == added && (given != null ==> given.items == []))
    {
      c := TakeList(given);
      ghost var start := c.items;
      for i := 0 to |chassis|
        invariant c == given || fresh(c)
        invariant given != null && c != given ==> given.items == old(given.items)
        invariant c.items == start + ChassisOf(chassis[..i], only)
      {
        ChassisOfAppend(chassis, i, only);
        if only.None? || chassis[i].id == only.value {
          c.Append(ChassisEntry(chassis[i]));
        }
      }
      assert chassis[..|chassis|] == chassis;
    }

    method LswitchDb(given: EntryList?) returns (c: EntryList)
      modifies given
      ensures given != null && old(given.items) != [] ==>
                c == given && c.items == old(given.items) + Entries(lswitches, LswitchEntry)
      ensures given == null || old(given.items) == [] ==>
                fresh(c) && c.items == Entries(lswitches, LswitchEntry) && (given != null ==> given.items == [])
    {
      c := TakeList(given);
      ghost var start := c.items;
      for i := 0 to |lswitches|
        invariant c == given || fresh(c)
        invariant given != null && c != given ==> given.items == old(given.items)
        invariant c.items == start + Entries(lswitches[..i], LswitchEntry)
      {
        EntriesOfAppend(lswitches, i, LswitchEntry);
        c.Append(LswitchEntry(lswitches[i]));
      }
      assert lswitches[..|lswitches|] == lswitches;
    }

    method LrouterDb(given: EntryList?) returns (c: EntryList)
      modifies given
      ensures given != null && old(given.items) != [] ==>
                c == given && c.items == old(given.items) + OptionEntries(lrouter, LrouterEntry)
      ensures given == null || old(given.items) == [] ==>
                fresh(c) && c.items == OptionEntries(lrouter, LrouterEntry) && (given != null ==> given.items == [])
    {
      c := TakeList(given);
      if lrouter.Some? {
        c.Append(LrouterEntry(lrouter.value));
      }
    }

    /** The first part of `to_db`: own port, reachable compute ports, security groups. */
    method HeadList() returns (c: EntryList)
      ensures fresh(c) && c.items == Head(View())
    {
      c := PortDb(null);
      for i := 0 to |otherLports|
        invariant fresh(c)
        invariant c.items == OptionEntries(lport, LportEntry) + Entries(otherLports[..i], LportEntry)
      {
        EntriesOfAppend(otherLports, i, LportEntry);
        c.Append(LportEntry(otherLports[i]));
      }
      assert otherLports[..|otherLports|] == otherLports;
      ghost var ports := c.items;
      for i := 0 to |secgroups|
        invariant fresh(c)
        invariant c.items == ports + Entries(secgroups[..i], SecgroupEntry)
      {
        EntriesOfAppend(secgroups, i, SecgroupEntry);
        c.Append(SecgroupEntry(secgroups[i]));
      }
      assert secgroups[..|secgroups|] == secgroups;
    }

    /** `to_db`. The lists returned by the last three calls are dropped: what they append
        counts only if the list they were given was not empty. */
    method ToDbList() returns (c: EntryList)
      ensures fresh(c) && c.items == ToDb(View())
    {
      c := HeadList();
      ghost var head := c.items;
      var _ := LswitchDb(c);
      var _ := ChassisDb(c, None);
      var _ := LrouterDb(c);
      if head != [] {
        assert c.items == head + Entries(lswitches, LswitchEntry) + Entries(chassis, ChassisEntry)
                          + OptionEntries(lrouter, LrouterEntry);
        assert c.items == head + Tail(View());
      }
    }

    /** The two calls by which a port update prepares its announcement. */
    method AnnouncementList() returns (c: EntryList)
      requires lport.Some?
      ensures fresh(c) && c.items == Announcement(View())
    {
      c := PortDb(null);
      c := ChassisDb(c, Some(lport.value.chassis));
    }
  }
}
