/** Actions that are not atomic: every read, every send of an action is a step of its own,
    any number of actions interleave with each other and with Neutron, and still nothing a VM
    holds was made up. */
module History {
  import opened Records
  import opened Batches
  import opened Drivers
  import opened Neutron
  import opened PortInfo
  import opened Actions
  import opened ServerBatches

  /** An action under way. `own` is the port of a port update; `ports` and `groups` are what
      its queries have returned so far, each at its own moment; the switches and the router
      are whatever it read of them. */
  datatype Job = Job(own: Option<Port>, ports: seq<Port>, groups: seq<Secgroup>,
                     lswitches: seq<Lswitch>, lrouter: Option<Lrouter>)

  /** `past` holds every state Neutron has been in, the present one included. */
  datatype World = World(n: Neutron, past: seq<Neutron>, jobs: map<nat, Job>, stores: Stores)

  datatype Move =
    | Change(n: Neutron)
    | BeginPort(j: nat, p: Port)
    | BeginOther(j: nat)
    | ReadNetwork(j: nat, net: Id)
    | ReadDevice(j: nat, device: Id)
    | ReadOwn(j: nat)
    | ReadGroups(j: nat, ids: seq<Id>)
    | ReadRest(j: nat, lswitches: seq<Lswitch>, lrouter: Option<Lrouter>)
    | Announce(j: nat, vms: set<Vm>)
    | ApplyView(j: nat, vm: Vm)
    | UpdateView(j: nat, vms: set<Vm>)
    | UpdateGroup(j: nat, g: Secgroup, vms: set<Vm>)
    | DeleteView(j: nat, vms: set<Vm>)
    | End(j: nat)

  /** The port of a port update is taken off the list of the others. */
  function Others(job: Job): seq<Port> {
    if job.own.Some? then RemoveFirst(job.ports, job.own.value) else job.ports
  }

  /** The port info built from what has been read. */
  function JobInfo(job: Job): Info {
    Info(if job.own.Some? then Some(LportOf(job.own.value)) else None,
         ComputeLports(Others(job)), job.groups, job.lswitches,
         EndpointChassis(EndpointsOf(job.ports)), job.lrouter)
  }

  predicate Enabled(w: World, a: Move) {
    match a
    case Change(_) => true
    case BeginPort(j, p) => j !in w.jobs && p in w.n.ports
    case BeginOther(j) => j !in w.jobs
    case UpdateGroup(j, g, _) => j in w.jobs && g in w.jobs[j].groups
    case _ => a.j in w.jobs
  }

  function WithJob(w: World, j: nat, job: Job): World { w.(jobs := w.jobs[j := job]) }

  /** A second query for the own port replaces it by the version found then. */
  function Reread(own: Option<Port>, ports: seq<Port>): Option<Port> {
    match own
    case None => None
    case Some(p) => var q := PortById(ports, p.id); if q.Some? then q else own
  }

  function Next(w: World, a: Move): World
    requires Enabled(w, a)
  {
    match a
    case Change(n) => w.(n := n, past := w.past + [n])
    case BeginPort(j, p) => WithJob(w, j, Job(Some(p), [], [], [], None))
    case BeginOther(j) => WithJob(w, j, Job(None, [], [], [], None))
    case ReadNetwork(j, net) => WithJob(w, j, w.jobs[j].(ports := w.jobs[j].ports + NetworkPorts(w.n, net)))
    case ReadDevice(j, device) => WithJob(w, j, w.jobs[j].(ports := w.jobs[j].ports + DevicePorts(w.n, device)))
    case ReadOwn(j) => WithJob(w, j, w.jobs[j].(own := Reread(w.jobs[j].own, w.n.ports)))
    case ReadGroups(j, ids) => WithJob(w, j, w.jobs[j].(groups := GroupsNamed(w.n.sgs, ids)))
    case ReadRest(j, switches, router) => WithJob(w, j, w.jobs[j].(lswitches := switches, lrouter := router))
    case Announce(j, vms) => w.(stores := Broadcast(w.stores, Update(Announcement(JobInfo(w.jobs[j]))), vms))
    case ApplyView(j, vm) => w.(stores := Broadcast(w.stores, Apply(ToDb(JobInfo(w.jobs[j]))), {vm}))
    case UpdateView(j, vms) => w.(stores := Broadcast(w.stores, Update(ToDb(JobInfo(w.jobs[j]))), vms))
    case UpdateGroup(j, g, vms) => w.(stores := Broadcast(w.stores, Update([SecgroupEntry(g)]), vms))
    case DeleteView(j, vms) => w.(stores := Broadcast(w.stores, Delete(Locs(ToDb(JobInfo(w.jobs[j])))), vms))
    case End(j) => w.(jobs := w.jobs - {j})
  }

  // ----- what was true once

  ghost predicate PortWas(past: seq<Neutron>, p: Port) {
    exists i :: 0 <= i < |past| && p in past[i].ports
  }

  ghost predicate GroupWas(past: seq<Neutron>, g: Secgroup) {
    exists i :: 0 <= i < |past| && g in past[i].sgs
  }

  /** The tables of which a value is one Neutron object. Switches and routers are put together
      from several reads. */
  predicate Simple(t: Table) { t == LportTable || t == ChassisTable || t == SecgroupTable }

  /** Neutron held this entry in one of its states. */
  ghost predicate Was(past: seq<Neutron>, e: Entry) {
    exists i :: 0 <= i < |past| && IsCurrent(past[i], e)
  }

  ghost predicate JobHonest(past: seq<Neutron>, job: Job) {
    && (job.own.Some? ==> PortWas(past, job.own.value))
    && (forall p :: p in job.ports ==> PortWas(past, p))
    && (forall g :: g in job.groups ==> GroupWas(past, g))
  }

  ghost predicate StoreHonest(past: seq<Neutron>, s: Store) {
    forall l :: l in s && Simple(l.table) ==> Was(past, Entry(l.table, l.key, s[l]))
  }

  ghost predicate Honest(w: World) {
    && (exists i :: 0 <= i < |w.past| && w.past[i] == w.n)
    && (forall j :: j in w.jobs ==> JobHonest(w.past, w.jobs[j]))
    && (forall m :: m in w.stores ==> StoreHonest(w.past, w.stores[m]))
  }

  // ----- batches

  ghost predicate BatchHonest(past: seq<Neutron>, b: Batch) {
    forall e :: e in b && Simple(e.table) ==> Was(past, e)
  }

  lemma LportWas(past: seq<Neutron>, p: Port)
    requires PortWas(past, p)
    ensures Was(past, LportEntry(LportOf(p))) && (IsProvider(p) ==> Was(past, ChassisEntry(ChassisOfPort(p))))
  {
    var i :| 0 <= i < |past| && p in past[i].ports;
    assert IsCurrent(past[i], LportEntry(LportOf(p)));
    if IsProvider(p) {
      assert IsCurrent(past[i], ChassisEntry(ChassisOfPort(p)));
    }
  }

  lemma SecgroupWas(past: seq<Neutron>, g: Secgroup)
    requires GroupWas(past, g)
    ensures Was(past, SecgroupEntry(g))
  {
    var i :| 0 <= i < |past| && g in past[i].sgs;
    assert IsCurrent(past[i], SecgroupEntry(g));
  }

  lemma ChassisWas(past: seq<Neutron>, job: Job, c: Chassis)
    requires JobHonest(past, job) && c in JobInfo(job).chassis
    ensures Was(past, ChassisEntry(c))
  {
    EndpointsAreChassis(job.ports);
    ChassisOfPortsMembers(job.ports, c);
    var p :| p in job.ports && IsProvider(p) && ChassisOfPort(p) == c;
    LportWas(past, p);
  }

  lemma ViewWas(past: seq<Neutron>, job: Job)
    requires JobHonest(past, job)
    ensures BatchHonest(past, ToDb(JobInfo(job)))
  {
    var info := JobInfo(job);
    forall e | e in ToDb(info) && Simple(e.table) ensures Was(past, e) {
      ToDbMembers(info, e);
      match e.table
      case LportTable =>
        if job.own.Some? && e == LportEntry(info.lport.value) {
          LportWas(past, job.own.value);
        } else {
          var l :| l in info.otherLports && LportEntry(l) == e;
          ComputeLportsMembers(Others(job), l);
          if job.own.Some? {
            RemoveFirstWithin(job.ports, job.own.value);
          }
          assert LportOf(PortOf(l)) == l;
          LportWas(past, PortOf(l));
        }
      case SecgroupTable =>
        var g :| g in info.secgroups && SecgroupEntry(g) == e;
        SecgroupWas(past, g);
      case ChassisTable =>
        var c :| c in info.chassis && ChassisEntry(c) == e;
        ChassisWas(past, job, c);
    }
  }

  lemma AnnouncementWas(past: seq<Neutron>, job: Job)
    requires JobHonest(past, job)
    ensures BatchHonest(past, Announcement(JobInfo(job)))
  {
    var info := JobInfo(job);
    ViewWas(past, job);
    forall e | e in Announcement(info) ensures e in ToDb(info) {
      ToDbMembers(info, e);
      if e != LportEntry(info.lport.value) {
        ChassisAtMembers(info.chassis, info.lport.value.chassis, e);
      }
    }
  }

  lemma MapOfEntry(b: Batch, l: Loc)
    requires l in MapOf(b)
    ensures Entry(l.table, l.key, MapOf(b)[l]) in b
  {
    MapOfIsLast(b, l);
    LastIsAnEntry(b, l);
  }

  /** Whatever honest batch is applied, updated or deleted, an honest store stays honest;
      no consistency of the batch is needed. */
  lemma CommandKeepsHonest(past: seq<Neutron>, s: Store, c: Command)
    requires StoreHonest(past, s)
    requires c.Apply? ==> BatchHonest(past, c.batch)
    requires c.Update? ==> BatchHonest(past, c.batch)
    ensures StoreHonest(past, StoreStep(s, c))
  {
    var t := StoreStep(s, c);
    forall l | l in t && Simple(l.table) ensures Was(past, Entry(l.table, l.key, t[l])) {
      if !c.Delete? && l in MapOf(c.batch) {
        MapOfEntry(c.batch, l);
      }
    }
  }

  lemma BroadcastKeepsHonest(past: seq<Neutron>, stores: Stores, c: Command, vms: set<Vm>)
    requires forall m :: m in stores ==> StoreHonest(past, stores[m])
    requires c.Apply? ==> BatchHonest(past, c.batch)
    requires c.Update? ==> BatchHonest(past, c.batch)
    ensures forall m :: m in Broadcast(stores, c, vms) ==> StoreHonest(past, Broadcast(stores, c, vms)[m])
  {
    forall m | m in Broadcast(stores, c, vms) ensures StoreHonest(past, Broadcast(stores, c, vms)[m]) {
      if m in vms {
        CommandKeepsHonest(past, StoreOf(stores, m), c);
      }
    }
  }

  // ----- steps and runs

  lemma PastGrows(past: seq<Neutron>, n: Neutron)
    ensures forall p :: PortWas(past, p) ==> PortWas(past + [n], p)
    ensures forall g :: GroupWas(past, g) ==> GroupWas(past + [n], g)
    ensures forall e :: Was(past, e) ==> Was(past + [n], e)
  {
    var later := past + [n];
    forall p | PortWas(past, p) ensures PortWas(later, p) {
      var i :| 0 <= i < |past| && p in past[i].ports;
      assert later[i] == past[i];
    }
    forall g | GroupWas(past, g) ensures GroupWas(later, g) {
      var i :| 0 <= i < |past| && g in past[i].sgs;
      assert later[i] == past[i];
    }
    forall e | Was(past, e) ensures Was(later, e) {
      var i :| 0 <= i < |past| && IsCurrent(past[i], e);
      assert later[i] == past[i];
    }
  }

  lemma ReadsAreHonest(w: World, a: Move)
    requires Honest(w) && Enabled(w, a)
    requires a.ReadNetwork? || a.ReadDevice? || a.ReadOwn? || a.ReadGroups?
    ensures JobHonest(w.past, Next(w, a).jobs[a.j])
  {
    var i :| 0 <= i < |w.past| && w.past[i] == w.n;
    assert forall p :: p in w.n.ports ==> p in w.past[i].ports;
    assert forall g :: g in w.n.sgs ==> g in w.past[i].sgs;
    match a
    case ReadNetwork(j, net) => NetworkPortsMembers(w.n, net);
    case ReadDevice(j, device) => DevicePortsMembers(w.n, device);
    case ReadOwn(j) =>
      if w.jobs[j].own.Some? {
        PortByIdFinds(w.n.ports, w.jobs[j].own.value.id);
      }
    case ReadGroups(j, ids) => GroupsNamedMembers(w.n.sgs, ids);
  }

  lemma SendKeepsHonest(w: World, a: Move)
    requires Honest(w) && Enabled(w, a)
    requires a.Announce? || a.ApplyView? || a.UpdateView? || a.UpdateGroup? || a.DeleteView?
    ensures Honest(Next(w, a))
  {
    var job := w.jobs[a.j];
    ViewWas(w.past, job);
    AnnouncementWas(w.past, job);
    match a
    case Announce(j, vms) => BroadcastKeepsHonest(w.past, w.stores, Update(Announcement(JobInfo(job))), vms);
    case ApplyView(j, vm) => BroadcastKeepsHonest(w.past, w.stores, Apply(ToDb(JobInfo(job))), {vm});
    case UpdateView(j, vms) => BroadcastKeepsHonest(w.past, w.stores, Update(ToDb(JobInfo(job))), vms);
    case UpdateGroup(j, g, vms) =>
      SecgroupWas(w.past, g);
      BroadcastKeepsHonest(w.past, w.stores, Update([SecgroupEntry(g)]), vms);
    case DeleteView(j, vms) => BroadcastKeepsHonest(w.past, w.stores, Delete(Locs(ToDb(JobInfo(job)))), vms);
  }

  lemma StepKeepsHonest(w: World, a: Move)
    requires Honest(w) && Enabled(w, a)
    ensures Honest(Next(w, a))
  {
    var v := Next(w, a);
    match a
    case Change(n) =>
      PastGrows(w.past, n);
      assert v.past[|w.past|] == n;
    case BeginPort(j, p) =>
      var i :| 0 <= i < |w.past| && w.past[i] == w.n;
      assert p in w.past[i].ports;
    case BeginOther(j) =>
    case ReadNetwork(j, net) => ReadsAreHonest(w, a);
    case ReadDevice(j, device) => ReadsAreHonest(w, a);
    case ReadOwn(j) => ReadsAreHonest(w, a);
    case ReadGroups(j, ids) => ReadsAreHonest(w, a);
    case ReadRest(j, switches, router) =>
    case End(j) =>
    case _ => SendKeepsHonest(w, a);
  }

  ghost predicate IsRun(ws: seq<World>, moves: seq<Move>) {
    && |ws| == |moves| + 1
    && ws[0] == World(ws[0].n, [ws[0].n], map[], map[])
    && forall i :: 0 <= i < |moves| ==> Enabled(ws[i], moves[i]) && ws[i + 1] == Next(ws[i], moves[i])
  }

  lemma {:induction false} RunIsHonest(ws: seq<World>, moves: seq<Move>)
    requires IsRun(ws, moves)
    ensures Honest(ws[|moves|])
  {
    if moves == [] {
      assert ws[0].past[0] == ws[0].n;
    } else {
      var k := |moves| - 1;
      assert IsRun(ws[..|moves|], moves[..k]);
      RunIsHonest(ws[..|moves|], moves[..k]);
      StepKeepsHonest(ws[k], moves[k]);
    }
  }

  /** In every interleaving, every port, chassis and security group in any VM's store is one
      that Neutron held for that key at some moment of the run. */
  lemma NothingFabricated(ws: seq<World>, moves: seq<Move>, m: Vm, l: Loc)
    requires IsRun(ws, moves)
    requires m in ws[|moves|].stores && l in ws[|moves|].stores[m] && Simple(l.table)
    ensures exists i :: 0 <= i < |ws| && IsCurrent(ws[i].n, Entry(l.table, l.key, ws[|moves|].stores[m][l]))
  {
    RunIsHonest(ws, moves);
    var e := Entry(l.table, l.key, ws[|moves|].stores[m][l]);
    assert Was(ws[|moves|].past, e);
    var k :| 0 <= k < |ws[|moves|].past| && IsCurrent(ws[|moves|].past[k], e);
    PastWasReached(ws, moves, k);
  }

  lemma {:induction false} PastWasReached(ws: seq<World>, moves: seq<Move>, k: nat)
    requires IsRun(ws, moves) && k < |ws[|moves|].past|
    ensures exists i :: 0 <= i < |ws| && ws[i].n == ws[|moves|].past[k]
  {
    if moves == [] {
      assert ws[0].n == ws[0].past[k];
    } else {
      var t := |moves| - 1;
      assert IsRun(ws[..|moves|], moves[..t]);
      assert Enabled(ws[t], moves[t]) && ws[t + 1] == Next(ws[t], moves[t]);
      if k < |ws[t].past| {
        PastWasReached(ws[..|moves|], moves[..t], k);
        var i :| 0 <= i < |ws[..|moves|]| && ws[..|moves|][i].n == ws[t].past[k];
        assert ws[i].n == ws[|moves|].past[k];
      } else {
        assert ws[|moves|].n == ws[|moves|].past[k];
      }
    }
  }
}
