/** The two views of an action agree: run without interruption, the single reads and sends of
    an action do to the stores exactly what the whole action does. */
module Atomic {
  import opened Records
  import opened Batches
  import opened Drivers
  import opened Neutron
  import opened PortInfo
  import opened Actions
  import opened History

  /** Worlds joined by moves, from any world on. */
  ghost predicate IsPath(ws: seq<World>, moves: seq<Move>) {
    && |ws| == |moves| + 1
    && forall i :: 0 <= i < |moves| ==> Enabled(ws[i], moves[i]) && ws[i + 1] == Next(ws[i], moves[i])
  }

  /** No move of Neutron or of another action comes between. */
  ghost predicate Uninterrupted(w: World, w': World, j: nat) {
    exists ws, moves :: Path(ws, moves, w, w', j)
  }

  ghost predicate Path(ws: seq<World>, moves: seq<Move>, w: World, w': World, j: nat) {
    && IsPath(ws, moves) && ws[0] == w && ws[|moves|] == w'
    && forall i :: 0 <= i < |moves| ==> !moves[i].Change? && moves[i].j == j
  }

  lemma Stay(w: World, j: nat)
    ensures Uninterrupted(w, w, j)
  {
    assert Path([w], [], w, w, j);
  }

  lemma Then(w: World, w': World, j: nat, a: Move)
    requires Uninterrupted(w, w', j) && Enabled(w', a) && !a.Change? && a.j == j
    ensures Uninterrupted(w, Next(w', a), j)
  {
    var ws, moves :| Path(ws, moves, w, w', j);
    var ws', moves' := ws + [Next(w', a)], moves + [a];
    forall i | 0 <= i < |moves'|
      ensures Enabled(ws'[i], moves'[i]) && ws'[i + 1] == Next(ws'[i], moves'[i])
      ensures !moves'[i].Change? && moves'[i].j == j
    {
      if i < |moves| {
        assert ws'[i] == ws[i] && moves'[i] == moves[i] && ws'[i + 1] == ws[i + 1];
      }
    }
    assert Path(ws', moves', w, Next(w', a), j);
  }

  /** Reading networks one after the other collects their ports. */
  lemma {:induction false} ReadNetworks(w: World, w': World, j: nat, nets: seq<Id>)
    requires Uninterrupted(w, w', j) && j in w'.jobs
    ensures Uninterrupted(w, WithJob(w', j, w'.jobs[j].(ports := w'.jobs[j].ports + PortsOn(w'.n, nets))), j)
  {
    if nets == [] {
      assert w'.jobs[j].ports + PortsOn(w'.n, nets) == w'.jobs[j].ports;
      assert WithJob(w', j, w'.jobs[j]) == w';
    } else {
      var init, net := nets[..|nets| - 1], nets[|nets| - 1];
      ReadNetworks(w, w', j, init);
      var job := w'.jobs[j].(ports := w'.jobs[j].ports + PortsOn(w'.n, init));
      var w1 := WithJob(w', j, job);
      Then(w, w1, j, ReadNetwork(j, net));
      assert job.ports + NetworkPorts(w'.n, net) == w'.jobs[j].ports + PortsOn(w'.n, nets);
      assert Next(w1, ReadNetwork(j, net)) ==
             WithJob(w', j, w'.jobs[j].(ports := w'.jobs[j].ports + PortsOn(w'.n, nets)));
    }
  }

  /** An action that has read what it needs. */
  function Ready(w: World, j: nat, own: Option<Port>, ports: seq<Port>, info: Info): World {
    WithJob(w, j, Job(own, ports, info.secgroups, info.lswitches, info.lrouter))
  }

  /** The action has begun and has read the ports of the networks. */
  lemma PortsRead(w: World, j: nat, own: Option<Port>, nets: seq<Id>)
    requires j !in w.jobs && (own.Some? ==> own.value in w.n.ports)
    ensures Uninterrupted(w, WithJob(w, j, Job(own, PortsOn(w.n, nets), [], [], None)), j)
  {
    var begin := if own.Some? then BeginPort(j, own.value) else BeginOther(j);
    Stay(w, j);
    Then(w, w, j, begin);
    var w1 := Next(w, begin);
    ReadNetworks(w, w1, j, nets);
    assert [] + PortsOn(w.n, nets) == PortsOn(w.n, nets);
    assert WithJob(w1, j, w1.jobs[j].(ports := [] + PortsOn(w.n, nets))) ==
           WithJob(w, j, Job(own, PortsOn(w.n, nets), [], [], None));
  }

  lemma GroupsRead(w: World, j: nat, own: Option<Port>, ports: seq<Port>, groups: seq<Secgroup>)
    requires Uninterrupted(w, WithJob(w, j, Job(own, ports, [], [], None)), j)
    requires groups == if own.Some? then GroupsNamed(w.n.sgs, own.value.sgs) else []
    ensures Uninterrupted(w, WithJob(w, j, Job(own, ports, groups, [], None)), j)
  {
    if own.Some? {
      var w1, read := WithJob(w, j, Job(own, ports, [], [], None)), ReadGroups(j, own.value.sgs);
      Then(w, w1, j, read);
      assert Next(w1, read) == WithJob(w, j, Job(own, ports, groups, [], None));
    }
  }

  lemma Prepared(w: World, j: nat, own: Option<Port>, nets: seq<Id>, info: Info)
    requires j !in w.jobs && (own.Some? ==> own.value in w.n.ports)
    requires info.secgroups == if own.Some? then GroupsNamed(w.n.sgs, own.value.sgs) else []
    ensures Uninterrupted(w, Ready(w, j, own, PortsOn(w.n, nets), info), j)
  {
    PortsRead(w, j, own, nets);
    GroupsRead(w, j, own, PortsOn(w.n, nets), info.secgroups);
    var w1 := WithJob(w, j, Job(own, PortsOn(w.n, nets), info.secgroups, [], None));
    var read := ReadRest(j, info.lswitches, info.lrouter);
    Then(w, w1, j, read);
    assert Next(w1, read) == Ready(w, j, own, PortsOn(w.n, nets), info);
  }

  lemma Ended(w: World, w': World, j: nat, stores: Stores)
    requires Uninterrupted(w, w', j) && j !in w.jobs && j in w'.jobs
    requires w' == w.(jobs := w.jobs[j := w'.jobs[j]], stores := stores)
    ensures Uninterrupted(w, w.(stores := stores), j)
  {
    Then(w, w', j, End(j));
    assert w.jobs[j := w'.jobs[j]] - {j} == w.jobs;
    assert Next(w', End(j)) == w.(stores := stores);
  }

  /** A port update. */
  lemma PortUpdateIsUninterrupted(w: World, j: nat, r: Port, nets: seq<Id>, up: bool)
    requires WellFormed(w.n) && r in w.n.ports && IsProvider(r) && j !in w.jobs
    ensures Uninterrupted(w, w.(stores := PortUpdated(w.n, r, nets, up, w.stores)), j)
  {
    var info := PortUpdateInfo(w.n, r, nets);
    Prepared(w, j, Some(r), nets, info);
    var w1 := Ready(w, j, Some(r), PortsOn(w.n, nets), info);
    assert JobInfo(w1.jobs[j]) == info;
    var tell := Announce(j, PortNeighbours(w.n, r, nets));
    Then(w, w1, j, tell);
    var w2 := Next(w1, tell);
    if up {
      Then(w, w2, j, ApplyView(j, r.mgntIp.value));
      w2 := Next(w2, ApplyView(j, r.mgntIp.value));
    }
    Ended(w, w2, j, PortUpdated(w.n, r, nets, up, w.stores));
  }

  /** A security group update: the group is read and sent. */
  lemma GroupUpdateIsUninterrupted(w: World, j: nat, g: Secgroup)
    requires g in w.n.sgs && j !in w.jobs
    ensures Uninterrupted(w, w.(stores := GroupUpdated(w.n, g, w.stores)), j)
  {
    Stay(w, j);
    Then(w, w, j, BeginOther(j));
    var w1 := Next(w, BeginOther(j));
    Then(w, w1, j, ReadGroups(j, [g.id]));
    var w2 := Next(w1, ReadGroups(j, [g.id]));
    GroupsNamedMembers(w.n.sgs, [g.id]);
    var send := UpdateGroup(j, g, VmsOf(GroupPorts(w.n, g.id), []));
    Then(w, w2, j, send);
    Ended(w, Next(w2, send), j, GroupUpdated(w.n, g, w.stores));
  }

  /** An attachment. */
  lemma AttachIsUninterrupted(w: World, j: nat, r: Router)
    requires WellFormed(w.n) && j !in w.jobs
    ensures Uninterrupted(w, w.(stores := Attached(w.n, r, w.stores)), j)
  {
    if Serves(r) {
      var info, nets := AttachInfo(w.n, r), NetsOf(DevicePorts(w.n, r.id));
      Prepared(w, j, None, nets, info);
      var w1 := Ready(w, j, None, PortsOn(w.n, nets), info);
      assert JobInfo(w1.jobs[j]) == info;
      var send := UpdateView(j, VmsOf(AttachedPorts(w.n, r), []));
      Then(w, w1, j, send);
      Ended(w, Next(w1, send), j, Attached(w.n, r, w.stores));
    } else {
      Stay(w, j);
    }
  }

  lemma DeleteIsUninterrupted(w: World, j: nat, nets: seq<Id>, info: Info, vms: set<Vm>)
    requires j !in w.jobs && info.lport.None? && info.secgroups == []
    requires info.otherLports == ComputeLports(PortsOn(w.n, nets))
    requires info.chassis == EndpointChassis(EndpointsOf(PortsOn(w.n, nets)))
    ensures Uninterrupted(w, w.(stores := Broadcast(w.stores, Delete(Locs(ToDb(info))), vms)), j)
  {
    Prepared(w, j, None, nets, info);
    var w1 := Ready(w, j, None, PortsOn(w.n, nets), info);
    assert JobInfo(w1.jobs[j]) == info;
    Then(w, w1, j, DeleteView(j, vms));
    Ended(w, Next(w1, DeleteView(j, vms)), j, Broadcast(w.stores, Delete(Locs(ToDb(info))), vms));
  }

  lemma OneNetwork(n: Neutron, net: Id)
    ensures PortsOn(n, [net]) == NetworkPorts(n, net)
  {
    assert [net][..0] == [];
    assert PortsOn(n, []) + NetworkPorts(n, net) == NetworkPorts(n, net);
  }

  lemma Join(w: World, w1: World, w2: World, j: nat)
    requires Uninterrupted(w, w1, j) && Uninterrupted(w1, w2, j)
    ensures Uninterrupted(w, w2, j)
  {
    var us, xs :| Path(us, xs, w, w1, j);
    var vs, ys :| Path(vs, ys, w1, w2, j);
    var ws, moves: seq<Move> := us + vs[1..], xs + ys;
    forall i | 0 <= i < |moves|
      ensures Enabled(ws[i], moves[i]) && ws[i + 1] == Next(ws[i], moves[i])
      ensures !moves[i].Change? && moves[i].j == j
    {
      if i < |xs| {
        assert ws[i] == us[i] && moves[i] == xs[i] && ws[i + 1] == us[i + 1];
      } else {
        assert moves[i] == ys[i - |xs|] && ws[i] == vs[i - |xs|] && ws[i + 1] == vs[i - |xs| + 1];
      }
    }
    assert ws[|moves|] == w2;
    assert Path(ws, moves, w, w2, j);
  }

  /** A detachment: two deletes, each of what was read for it. */
  lemma DetachIsUninterrupted(w: World, j: nat, r: Router, net: Id)
    requires WellFormed(w.n) && j !in w.jobs
    ensures Uninterrupted(w, w.(stores := Detached(w.n, r, net, w.stores)), j)
  {
    Stay(w, j);
    if Serves(r) {
      var connected := ConnectedPorts(w.n, r, net);
      var w1 := w;
      if connected != [] {
        OneNetwork(w.n, net);
        DeleteIsUninterrupted(w, j, [net], DetachedInfo(w.n, net), VmsOf(connected, []));
        w1 := w.(stores := Broadcast(w.stores, Delete(Locs(ToDb(DetachedInfo(w.n, net)))), VmsOf(connected, [])));
      }
      DeleteIsUninterrupted(w1, j, NetsOf(RemainingIfaces(w.n, r, net)), ConnectedInfo(w.n, r, net),
                            VmsOf(NetworkPorts(w.n, net), []));
      Join(w, w1, w.(stores := Detached(w.n, r, net, w.stores)), j);
    }
  }
}
