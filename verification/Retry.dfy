/** `call_method`: a send that raises is tried again, ten times at most, so a command may
    be executed more than once. */
module Retry {
  import opened Drivers
  import T = TinyDb
  import B = BsdDb

  const MAX_TRIES: nat := 10

  /** What one send comes to: it may raise before or after the agent executed the message. */
  datatype Outcome = Lost | ReplyLost | Answered

  predicate Executes(o: Outcome) { o != Lost }

  /** How many of the first `n` sends were executed by the agent. */
  function Executions(net: nat -> Outcome, n: nat): nat {
    if n == 0 then 0 else Executions(net, n - 1) + if Executes(net(n - 1)) then 1 else 0
  }

  // ----- the agent, on either driver

  datatype State = InTiny(db: T.Tables) | InBsd(s: B.Bsd) {
    ghost predicate Valid() { InBsd? ==> s.Valid() }
  }

  datatype Agent = TinyAgent(tiny: T.TinyDbDriver) | BsdAgent(bsd: B.BsdDbDriver)

  function Driver(agent: Agent): object {
    match agent
    case TinyAgent(driver) => driver
    case BsdAgent(driver) => driver
  }

  ghost function View(agent: Agent): State
    reads Driver(agent)
  {
    match agent
    case TinyAgent(driver) => InTiny(driver.tables)
    case BsdAgent(driver) => InBsd(driver.View())
  }

  function AgentStep(s: State, c: Command): State {
    match s
    case InTiny(db) => InTiny(TinyStep(db, c))
    case InBsd(bsd) => InBsd(BsdStep(bsd, c))
  }

  /** What the agent reports when it executes a command: only BSD ever reports a failure. */
  ghost predicate Reports(s: State, c: Command) {
    s.InBsd? && c.Delete? ==> B.DistinctAndPresent(s.s, c.locs)
  }

  method Execute(agent: Agent, c: Command) returns (response: bool)
    requires View(agent).Valid()
    modifies Driver(agent)
    ensures View(agent) == AgentStep(old(View(agent)), c) && View(agent).Valid()
    ensures response <==> Reports(old(View(agent)), c)
  {
    match agent
    case TinyAgent(driver) =>
      match c {
        case Apply(b) => response := driver.Apply(b);
        case Update(b) => response := driver.Update(b);
        case Delete(ls) => response := driver.Delete(ls);
      }
    case BsdAgent(driver) =>
      BsdStepKeepsValid(driver.View(), c);
      match c {
        case Apply(b) => response := driver.Apply(b);
        case Update(b) => response := driver.Update(b);
        case Delete(ls) => response := driver.Delete(ls);
      }
  }

  /** Executing a command again changes nothing on either driver. */
  lemma SecondChangesNothing(s: State, c: Command)
    requires s.Valid()
    ensures AgentStep(AgentStep(s, c), c) == AgentStep(s, c)
  {
    match s
    case InTiny(db) => TinyIdempotent(db, c);
    case InBsd(bsd) => BsdIdempotent(bsd, c);
  }

  /** A command that has been executed already finds nothing to delete, which only BSD reports. */
  lemma SecondReport(s: State, c: Command)
    requires s.Valid()
    ensures Reports(AgentStep(s, c), c) <==> !(s.InBsd? && c.Delete? && c.locs != [])
  {
    SecondChangesNothing(s, c);
    if s.InBsd? && c.Delete? {
      B.DeleteSucceedsIff(BsdStep(s.s, c), c.locs);
      BsdIdempotent(s.s, c);
    }
  }

  /** The state after `n` sends of a command: that of one execution, if any got through. */
  ghost function StateAfter(s: State, c: Command, net: nat -> Outcome, n: nat): State {
    if Executions(net, n) == 0 then s else AgentStep(s, c)
  }

  /** The report of the next execution after `n` sends. */
  ghost predicate ReportAfter(s: State, c: Command, net: nat -> Outcome, n: nat) {
    if Executions(net, n) == 0 then Reports(s, c) else !(s.InBsd? && c.Delete? && c.locs != [])
  }

  lemma OneMoreSend(s: State, c: Command, net: nat -> Outcome, n: nat)
    requires s.Valid()
    ensures AgentStep(StateAfter(s, c, net, n), c) == AgentStep(s, c)
    ensures Reports(StateAfter(s, c, net, n), c) <==> ReportAfter(s, c, net, n)
    ensures StateAfter(s, c, net, n + 1) ==
            if Executes(net(n)) then AgentStep(s, c) else StateAfter(s, c, net, n)
  {
    SecondChangesNothing(s, c);
    SecondReport(s, c);
  }

  /** The send number `n` of a command that was first sent in state `s`. */
  method SendOnce(agent: Agent, c: Command, net: nat -> Outcome, n: nat, ghost s: State)
    returns (sent: bool, response: bool)
    requires s.Valid() && View(agent).Valid() && View(agent) == StateAfter(s, c, net, n)
    modifies Driver(agent)
    ensures View(agent).Valid() && View(agent) == StateAfter(s, c, net, n + 1)
    ensures sent <==> net(n) == Answered
    ensures sent ==> View(agent) == AgentStep(s, c) && (response <==> ReportAfter(s, c, net, n))
  {
    OneMoreSend(s, c, net, n);
    var outcome := net(n);
    sent, response := outcome == Answered, false;
    if Executes(outcome) {
      response := Execute(agent, c);
    }
  }

  /** Sends at most ten times. A call that returns has executed the command, and the store is
      what one execution makes it; a call that raises has made ten attempts that all raised,
      and the store is either untouched or what one execution makes it. Only the report can
      tell: a delete that a lost attempt had executed on BSD reports failure. */
  method CallMethod(agent: Agent, c: Command, net: nat -> Outcome) returns (sent: bool, response: bool, nr: nat)
    requires View(agent).Valid()
    modifies Driver(agent)
    ensures View(agent).Valid()
    ensures sent <==> exists i :: 0 <= i < 10 && net(i) == Answered
    ensures forall i :: 0 <= i < nr ==> net(i) != Answered
    ensures sent ==> nr < 10 && net(nr) == Answered
    ensures !sent ==> nr == 10
    ensures sent ==> View(agent) == AgentStep(old(View(agent)), c)
    ensures !sent ==> View(agent) == StateAfter(old(View(agent)), c, net, nr)
    ensures sent ==> (response <==> ReportAfter(old(View(agent)), c, net, nr))
  {
    ghost var s := View(agent);
    nr, sent, response := 0, false, false;
    while !sent
      invariant s.Valid() && View(agent).Valid()
      invariant 0 <= nr < MAX_TRIES
      invariant forall i :: 0 <= i < nr ==> net(i) != Answered
      invariant sent ==> net(nr) == Answered && View(agent) == AgentStep(s, c)
      invariant sent ==> (response <==> ReportAfter(s, c, net, nr))
      invariant !sent ==> View(agent) == StateAfter(s, c, net, nr)
      decreases MAX_TRIES - nr, !sent
    {
      sent, response := SendOnce(agent, c, net, nr, s);
      if !sent {
        nr := nr + 1;
        if nr == MAX_TRIES {
          return;
        }
      }
    }
  }
}
