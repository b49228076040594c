/** One request over AsyncTCP: client and server as two machines joined by two byte
    streams, in every fragmentation and interleaving, with early closes. */
module TcpExchange {
  import opened Records
  import opened AsyncTcp

  /** `toServer` and `toClient` are in flight; `cut` says that the server went away early. */
  datatype Exchange = Exchange(client: Client, toServer: string, server: Server, toClient: string, cut: bool)

  datatype Action =
    | ClientSends(n: nat)
    | ServerReceives(n: nat)
    | ServerSends(n: nat)
    | ClientReceives(n: nat)
    | ServerSeesClose
    | ClientSeesClose
    | ServerDies(kept: nat)
    | ClientFails

  function Start(m: string): Exchange {
    Exchange(Client("", m + SEP, Running), "", FRESH_SERVER, "", false)
  }

  /** A socket is written to only when the event loop offers it. */
  predicate Enabled(x: Exchange, a: Action) {
    match a
    case ClientSends(n) => x.client.status.Running? && ClientWritable(x.client) && 0 < n <= |x.client.outBuffer|
    case ServerReceives(n) => x.server.connected && 0 < n <= |x.toServer| && n <= BUFF_SIZE
    case ServerSends(n) =>
      x.server.connected && ServerWritable(x.server) && 0 < n <= |x.server.outBuffer| && n <= BUFF_SIZE
    case ClientReceives(n) => x.client.status.Running? && 0 < n <= |x.toClient| && n <= BUFF_SIZE
    case ServerSeesClose => x.server.connected && !x.client.status.Running? && x.toServer == ""
    case ClientSeesClose => x.client.status.Running? && !x.server.connected && x.toClient == ""
    case ServerDies(kept) => x.server.connected && x.client.status.Running? && kept <= |x.toClient|
    case ClientFails => x.client.status.Running? && !x.server.connected && x.client.outBuffer != ""
  }

  function Next(x: Exchange, a: Action, agent: Agent): Exchange
    requires Enabled(x, a)
  {
    match a
    case ClientSends(n) =>
      x.(client := x.client.(outBuffer := x.client.outBuffer[n..]), toServer := x.toServer + x.client.outBuffer[..n])
    case ServerReceives(n) =>
      x.(server := ServerRead(x.server, x.toServer[..n], agent), toServer := x.toServer[n..])
    case ServerSends(n) =>
      x.(server := x.server.(outBuffer := x.server.outBuffer[n..]), toClient := x.toClient + x.server.outBuffer[..n])
    case ClientReceives(n) =>
      x.(client := ClientRead(x.client, x.toClient[..n]), toClient := x.toClient[n..])
    case ServerSeesClose => x.(server := x.server.(connected := false))
    case ClientSeesClose => x.(client := ClientClose(x.client))
    case ServerDies(kept) => x.(server := x.server.(connected := false), toClient := x.toClient[..kept], cut := true)
    case ClientFails => x.(client := x.client.(status := Raised))
  }

  // ----- the conservation invariant

  /** Before the call: every byte of the request is in exactly one of three places. */
  ghost predicate Requesting(x: Exchange, m: string) {
    && x.server.calls == []
    && x.server.inBuffer + x.toServer + x.client.outBuffer == m + SEP
    && |x.server.inBuffer| < |m| + 3
    && x.server.outBuffer == x.toClient == x.client.inBuffer == ""
    && x.server.connected == !x.cut
    && (!x.cut ==> x.client.status.Running?)
    && (x.client.status.Returned? ==> x.client.status.result == "")
  }

  /** After the call: every byte of the response is, unless the server went away. */
  ghost predicate Responding(x: Exchange, m: string, r: string) {
    && x.server.calls == [m]
    && x.server.inBuffer == x.toServer == x.client.outBuffer == ""
    && x.client.inBuffer + x.toClient <= r + SEP
    && (!x.cut ==> x.client.inBuffer + x.toClient + x.server.outBuffer == r + SEP)
    && !x.client.status.Raised?
    && (x.cut ==> !x.server.connected)
    && (x.client.status.Running? ==> |x.client.inBuffer| < |r| + 3)
    && (x.client.status.Running? && !x.cut ==> x.server.connected)
    && (x.client.status.Returned? ==> x.client.status.result == Chopped(x.client.inBuffer))
    && (x.client.status.Returned? && !x.cut ==> x.client.inBuffer == r + SEP)
  }

  /** After a call the agent had no handler for: the server has closed without answering. */
  ghost predicate Unanswered(x: Exchange, m: string) {
    && x.server.calls == [m]
    && !x.server.connected
    && x.toServer == x.toClient == x.client.outBuffer == x.client.inBuffer == ""
    && (x.client.status.Returned? ==> x.client.status.result == "")
    && !x.client.status.Raised?
  }

  ghost predicate Conserved(x: Exchange, m: string, agent: Agent) {
    || Requesting(x, m)
    || match agent(m)
       case Some(r) => Responding(x, m, r)
       case None => Unanswered(x, m)
  }

  lemma PrefixLooksComplete(r: string, p: string)
    requires Framed(r) && p <= r + SEP
    ensures EndsWithSep(p) <==> p == r + SEP
    ensures p == r + SEP ==> Chopped(p) == r
  {
    FramedIff(r);
    WholeFrameIsComplete(r);
    assert p == (r + SEP)[..|p|];
    if |p| < |r| + 3 {
      assert !SepAt(r, |p|);
    }
  }

  lemma ReceiveKeepsRequesting(x: Exchange, n: nat, m: string, agent: Agent)
    requires Requesting(x, m) && Framed(m) && Enabled(x, ServerReceives(n))
    ensures Conserved(Next(x, ServerReceives(n), agent), m, agent)
  {
    var got := x.server.inBuffer + x.toServer[..n];
    assert got + x.toServer[n..] + x.client.outBuffer == m + SEP;
    PrefixLooksComplete(m, got);
    if got == m + SEP {
      assert x.toServer[n..] == x.client.outBuffer == "";
      assert |(m + SEP)| == |m| + 3;
      match agent(m)
      case Some(r) =>
        assert x.client.inBuffer + x.toClient == "";
        assert "" + "" + (r + SEP) == r + SEP;
      case None =>
    }
  }

  lemma RequestingStep(x: Exchange, a: Action, m: string, agent: Agent)
    requires Requesting(x, m) && Framed(m) && Enabled(x, a)
    ensures Conserved(Next(x, a, agent), m, agent)
  {
    match a
    case ServerReceives(n) => ReceiveKeepsRequesting(x, n, m, agent);
    case ClientSends(n) =>
      var out := x.client.outBuffer;
      assert x.toServer + out[..n] + out[n..] == x.toServer + out;
      assert x.server.inBuffer + (x.toServer + out[..n]) + out[n..] == x.server.inBuffer + x.toServer + out;
    case _ =>
  }

  lemma SendKeepsResponding(x: Exchange, n: nat, m: string, r: string, agent: Agent)
    requires agent(m) == Some(r) && Responding(x, m, r) && Enabled(x, ServerSends(n))
    ensures Responding(Next(x, ServerSends(n), agent), m, r)
  {
    var out := x.server.outBuffer;
    assert x.toClient + out[..n] + out[n..] == x.toClient + out;
    assert x.client.inBuffer + (x.toClient + out[..n]) + out[n..] == x.client.inBuffer + x.toClient + out;
  }

  lemma ReceiveKeepsResponding(x: Exchange, n: nat, m: string, r: string, agent: Agent)
    requires agent(m) == Some(r) && Framed(r) && Responding(x, m, r) && Enabled(x, ClientReceives(n))
    ensures Responding(Next(x, ClientReceives(n), agent), m, r)
  {
    var got := x.client.inBuffer + x.toClient[..n];
    assert got + x.toClient[n..] == x.client.inBuffer + x.toClient;
    PrefixLooksComplete(r, got);
  }

  lemma RespondingStep(x: Exchange, a: Action, m: string, r: string, agent: Agent)
    requires agent(m) == Some(r) && Framed(r)
    requires Responding(x, m, r) && Enabled(x, a)
    ensures Responding(Next(x, a, agent), m, r)
  {
    match a
    case ServerSends(n) => SendKeepsResponding(x, n, m, r, agent);
    case ClientReceives(n) => ReceiveKeepsResponding(x, n, m, r, agent);
    case ServerDies(kept) =>
      assert x.client.inBuffer + x.toClient[..kept] <= x.client.inBuffer + x.toClient;
    case _ =>
  }

  /** Every step of either side keeps the request and the response whole. */
  lemma StepConserves(x: Exchange, a: Action, m: string, agent: Agent)
    requires Framed(m) && (agent(m).Some? ==> Framed(agent(m).value))
    requires Conserved(x, m, agent) && Enabled(x, a)
    ensures Conserved(Next(x, a, agent), m, agent)
  {
    if Requesting(x, m) {
      RequestingStep(x, a, m, agent);
    } else if agent(m).Some? {
      RespondingStep(x, a, m, agent(m).value, agent);
    }
  }

  // ----- whole runs

  /** A run of the exchange for `m`: states joined by enabled actions. */
  ghost predicate IsRun(xs: seq<Exchange>, acts: seq<Action>, m: string, agent: Agent) {
    && |xs| == |acts| + 1
    && xs[0] == Start(m)
    && forall i :: 0 <= i < |acts| ==> Enabled(xs[i], acts[i]) && xs[i + 1] == Next(xs[i], acts[i], agent)
  }

  lemma {:induction false} RunConserves(xs: seq<Exchange>, acts: seq<Action>, m: string, agent: Agent)
    requires Framed(m) && (agent(m).Some? ==> Framed(agent(m).value))
    requires IsRun(xs, acts, m, agent)
    ensures Conserved(xs[|acts|], m, agent)
  {
    if acts == [] {
      assert "" + "" + (m + SEP) == m + SEP;
    } else {
      var n := |acts| - 1;
      assert IsRun(xs[..|acts|], acts[..n], m, agent);
      RunConserves(xs[..|acts|], acts[..n], m, agent);
      StepConserves(xs[n], acts[n], m, agent);
    }
  }

  /** In every run the agent is called at most once, with the sent message; and a client
      that returns holds exactly the agent's response unless the server went away early. */
  lemma ExchangeIsExact(xs: seq<Exchange>, acts: seq<Action>, m: string, agent: Agent)
    requires Framed(m) && (agent(m).Some? ==> Framed(agent(m).value))
    requires IsRun(xs, acts, m, agent)
    ensures var x := xs[|acts|];
            && (x.server.calls == [] || x.server.calls == [m])
            && (x.client.status.Returned? && !x.cut && agent(m).Some? ==>
                  x.server.calls == [m] && x.client.status.result == agent(m).value)
  {
    RunConserves(xs, acts, m, agent);
    if agent(m).Some? {
      WholeFrameIsComplete(agent(m).value);
    }
  }

  /** What an early close leaves: a prefix of the response, which is the whole response only if
      every byte had arrived. The exceptions come from the negative slice bound: after two
      characters the result is one character, which is all of a response of one character and
      no part of an empty one; and before that the result is empty, as an empty response is. */
  lemma EarlyCloseTruncates(xs: seq<Exchange>, acts: seq<Action>, m: string, r: string, agent: Agent)
    requires Framed(m) && Framed(r) && agent(m) == Some(r)
    requires IsRun(xs, acts, m, agent) && xs[|acts|].client.status.Returned?
    ensures var c := xs[|acts|].client;
            && (c.status.result <= r <==> !(r == "" && |c.inBuffer| == 2))
            && (c.status.result == r <==>
                c.inBuffer == r + SEP || (|r| == 1 && |c.inBuffer| == 2) || (r == "" && |c.inBuffer| <= 1))
  {
    RunConserves(xs, acts, m, agent);
    var c := xs[|acts|].client;
    assert c.inBuffer == (r + SEP)[..|c.inBuffer|];
    assert c.status.result == Chopped(c.inBuffer);
    ChoppedPrefix(r, |c.inBuffer|);
    WholeFrameIsComplete(r);
  }

  lemma ChoppedPrefix(r: string, n: nat)
    requires n <= |r| + 3
    ensures var got := (r + SEP)[..n];
            && (Chopped(got) <= r <==> !(r == "" && n == 2))
            && (Chopped(got) == r <==> n == |r| + 3 || (|r| == 1 && n == 2) || (r == "" && n <= 1))
  {
    var got := (r + SEP)[..n];
    if n >= 3 {
      assert Chopped(got) == r[..n - 3];
    } else if n == 2 && r == "" {
      assert Chopped(got) == SEP[..1];
    } else if n == 2 {
      assert Chopped(got) == r[..1];
    } else {
      assert Chopped(got) == "";
    }
  }

  // ----- progress

  function Two(n: nat): nat { 2 * n }

  /** Bytes still to be moved, those of the response not yet produced included, and closes still to come. */
  function Measure(x: Exchange, m: string, agent: Agent): nat {
    Two(|x.client.outBuffer|) + |x.toServer| + Two(|x.server.outBuffer|) + |x.toClient|
    + (if x.server.calls == [] then (match agent(m) case Some(r) => Two(|r| + 3) case None => 0) else 0)
    + (if x.client.status.Running? then 1 else 0) + (if x.server.connected then 1 else 0)
  }

  lemma ReceiveDecreases(x: Exchange, n: nat, m: string, agent: Agent)
    requires Framed(m) && Conserved(x, m, agent) && Enabled(x, ServerReceives(n))
    ensures Measure(Next(x, ServerReceives(n), agent), m, agent) < Measure(x, m, agent)
  {
    if Requesting(x, m) {
      var got := x.server.inBuffer + x.toServer[..n];
      assert got + x.toServer[n..] + x.client.outBuffer == m + SEP;
      PrefixLooksComplete(m, got);
    }
  }

  lemma StepDecreases(x: Exchange, a: Action, m: string, agent: Agent)
    requires Framed(m) && Conserved(x, m, agent) && Enabled(x, a)
    ensures Measure(Next(x, a, agent), m, agent) < Measure(x, m, agent)
  {
    if a.ServerReceives? {
      ReceiveDecreases(x, a.n, m, agent);
    }
  }

  lemma {:induction false} RunsAreShort(xs: seq<Exchange>, acts: seq<Action>, m: string, agent: Agent)
    requires Framed(m) && (agent(m).Some? ==> Framed(agent(m).value))
    requires IsRun(xs, acts, m, agent)
    ensures |acts| + Measure(xs[|acts|], m, agent) <= Measure(Start(m), m, agent)
  {
    if acts == [] {
    } else {
      var n := |acts| - 1;
      assert IsRun(xs[..|acts|], acts[..n], m, agent);
      RunsAreShort(xs[..|acts|], acts[..n], m, agent);
      RunConserves(xs[..|acts|], acts[..n], m, agent);
      StepDecreases(xs[n], acts[n], m, agent);
    }
  }

  predicate Orderly(a: Action) { !a.ServerDies? && !a.ClientFails? }

  /** While the client still waits, some byte can be moved or a close observed. */
  lemma NeverStuck(x: Exchange, m: string, agent: Agent) returns (a: Action)
    requires Conserved(x, m, agent) && x.client.status.Running?
    ensures Orderly(a) && Enabled(x, a)
  {
    if x.client.outBuffer != "" {
      a := ClientSends(1);
    } else if x.toClient != "" {
      a := ClientReceives(1);
    } else if !x.server.connected {
      a := ClientSeesClose;
    } else if x.toServer != "" {
      a := ServerReceives(1);
    } else {
      assert x.server.outBuffer != "" by {
        if !Requesting(x, m) && agent(m).Some? {
          assert x.client.inBuffer + x.toClient + x.server.outBuffer == x.client.inBuffer + x.server.outBuffer;
        }
      }
      a := ServerSends(1);
    }
  }

  lemma {:induction false} OrderlyIsNotCut(xs: seq<Exchange>, acts: seq<Action>, m: string, agent: Agent)
    requires IsRun(xs, acts, m, agent)
    requires forall i :: 0 <= i < |acts| ==> Orderly(acts[i])
    ensures !xs[|acts|].cut && !xs[|acts|].client.status.Raised?
  {
    if acts == [] {
    } else {
      var n := |acts| - 1;
      assert IsRun(xs[..|acts|], acts[..n], m, agent);
      OrderlyIsNotCut(xs[..|acts|], acts[..n], m, agent);
      assert Orderly(acts[n]);
    }
  }

  /** A run in which nobody goes away early, and which cannot be continued, has called the
      agent exactly once and returned exactly its response; and no run is longer than the
      measure of its start. */
  lemma ExchangeCompletes(xs: seq<Exchange>, acts: seq<Action>, m: string, r: string, agent: Agent)
    requires Framed(m) && Framed(r) && agent(m) == Some(r)
    requires IsRun(xs, acts, m, agent)
    requires forall i :: 0 <= i < |acts| ==> Orderly(acts[i])
    requires forall a :: Orderly(a) ==> !Enabled(xs[|acts|], a)
    ensures xs[|acts|].client.status == Returned(r) && xs[|acts|].server.calls == [m]
    ensures |acts| <= Measure(Start(m), m, agent)
  {
    RunConserves(xs, acts, m, agent);
    RunsAreShort(xs, acts, m, agent);
    OrderlyIsNotCut(xs, acts, m, agent);
    if xs[|acts|].client.status.Running? {
      var a := NeverStuck(xs[|acts|], m, agent);
    }
    ExchangeIsExact(xs, acts, m, agent);
  }
}
