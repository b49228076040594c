/** The framed byte-stream transport: the two endpoints and what each callback does. */
module AsyncTcp {
  import opened Records

  const SEP: string := "\n.\n"
  const BUFF_SIZE: nat := 8192

  predicate EndsWithSep(s: string) {
    |s| >= 3 && s[|s| - 3..] == SEP
  }

  /** `s[0:len(s) - len(SEP)]` as Python slices it: a negative bound counts from the end. */
  function Chopped(s: string): string {
    if |s| >= 3 then s[..|s| - 3]
    else if 2 * |s| >= 3 then s[..2 * |s| - 3]
    else ""
  }

  // ----- the server side

  /** `calls` records the messages handed to the agent. */
  datatype Server = Server(inBuffer: string, outBuffer: string, connected: bool, calls: seq<string>)

  /** What the agent answers, or None when no handler exists and building the frame raises. */
  type Agent = string -> Option<string>

  function ServerRead(s: Server, data: string, agent: Agent): Server {
    var received := s.inBuffer + data;
    if EndsWithSep(received) then
      var message := Chopped(received);
      match agent(message)
      case Some(response) => Server("", response + SEP, s.connected, s.calls + [message])
      case None => Server(received, s.outBuffer, false, s.calls + [message])
    else
      s.(inBuffer := received)
  }

  predicate ServerWritable(s: Server) { !s.connected || |s.outBuffer| > 0 }

  class ReceiverHandler {
    const agent: Agent
    var inBuffer: string
    var outBuffer: string
    var connected: bool
    ghost var calls: seq<string>

    ghost function View(): Server
      reads this
    {
      Server(inBuffer, outBuffer, connected, calls)
    }

    constructor (agent: Agent)
      ensures this.agent == agent && View() == Server("", "", true, [])
    {
      this.agent := agent;
      inBuffer, outBuffer, connected, calls := "", "", true, [];
    }

    /** `data` is what `recv` returned; an empty string means the peer has closed. */
    method HandleRead(data: string)
      requires connected && |data| <= 8192
      modifies this
      ensures View() == ServerRead(old(View()).(connected := data != ""), data, agent)
    {
      if data == "" {
        HandleClose();
      }
      inBuffer := inBuffer + data;
      if inBuffer != "" {
        if EndsWithSep(inBuffer) {
          var message := inBuffer[0..|inBuffer| - |SEP|];
          calls := calls + [message];
          match agent(message)
          case Some(response) =>
            outBuffer := response + SEP;
            inBuffer := "";
          case None =>
            connected := false;
        }
      }
    }

    method HandleClose()
      modifies this
      ensures View() == old(View()).(connected := false)
    {
      connected := false;
    }

    /** The socket takes `numSent` of the first 8192 characters, which are offered to it. */
    method HandleWrite(numSent: nat)
      requires connected && numSent <= |outBuffer| && numSent <= 8192
      modifies this
      ensures View() == old(View()).(outBuffer := old(outBuffer)[numSent..])
    {
      outBuffer := outBuffer[numSent..];
    }

    /** Whether the event loop offers the socket for writing. */
    predicate Writable(): (w: bool)
      reads this
      ensures w <==> ServerWritable(View())
      ensures connected ==> (w <==> outBuffer != "")
    {
      !connected || |outBuffer| > 0
    }
  }

  // ----- the client side

  datatype Status = Running | Returned(result: string) | Raised

  datatype Client = Client(inBuffer: string, outBuffer: string, status: Status)

  function ClientRead(c: Client, data: string): Client {
    var received := c.inBuffer + data;
    if EndsWithSep(received)
    then Client(received, c.outBuffer, Returned(Chopped(received)))
    else c.(inBuffer := received)
  }

  function ClientClose(c: Client): Client {
    c.(status := Returned(Chopped(c.inBuffer)))
  }

  predicate ClientWritable(c: Client) { |c.outBuffer| > 0 }

  class TCPClient {
    var inBuffer: string
    var outBuffer: string
    var result: string
    var connected: bool

    ghost function View(): Client
      reads this
    {
      Client(inBuffer, outBuffer, if connected then Running else Returned(result))
    }

    constructor (message: string)
      ensures View() == Client("", message + SEP, Running)
    {
      inBuffer, outBuffer, result, connected := "", message + SEP, "", true;
    }

    method HandleClose()
      modifies this
      ensures View() == ClientClose(old(View()))
    {
      var stop: int := |inBuffer| - |SEP|;
      if stop < 0 {
        stop := if stop + |inBuffer| < 0 then 0 else stop + |inBuffer|;
      }
      result := inBuffer[..stop];
      connected := false;
    }

    /** `recv` itself closes the connection when the peer has closed, and then the callback goes on. */
    method HandleRead(data: string)
      requires connected && |data| <= 8192
      modifies this
      ensures data != "" ==> View() == ClientRead(old(View()), data)
      ensures data == "" ==> View() == ClientClose(old(View()))
    {
      if data == "" {
        HandleClose();
        assert inBuffer + data == inBuffer;
      }
      inBuffer := inBuffer + data;
      if inBuffer != "" {
        if EndsWithSep(inBuffer) {
          HandleClose();
        }
      }
    }

    method HandleWrite(sent: nat)
      requires connected && sent <= |outBuffer|
      modifies this
      ensures View() == old(View()).(outBuffer := old(outBuffer)[sent..])
    {
      outBuffer := outBuffer[sent..];
    }

    predicate Writable(): (w: bool)
      reads this
      ensures w <==> ClientWritable(View())
      ensures w <==> outBuffer != ""
    {
      |outBuffer| > 0
    }
  }

  // ----- framing

  predicate SepFrom(m: string, i: nat)
    requires i + 3 <= |m|
  {
    m[i..i + 3] == SEP
  }

  /** A message that does not contain the separator and does not run into it. */
  ghost predicate Framed(m: string) {
    (forall i: nat :: i + 3 <= |m| ==> !SepFrom(m, i)) &&
    !(|m| >= 2 && m[|m| - 2..] == "\n.")
  }

  ghost predicate NewlineFree(m: string) {
    forall i :: 0 <= i < |m| ==> m[i] != '\n'
  }

  lemma NewlineFreeIsFramed(m: string)
    requires NewlineFree(m)
    ensures Framed(m)
  {
    forall i: nat | i + 3 <= |m| ensures !SepFrom(m, i) {
      assert m[i..i + 3][0] == m[i];
    }
    if |m| >= 2 {
      assert m[|m| - 2..][0] == m[|m| - 2];
    }
  }

  ghost predicate SepAt(m: string, n: nat)
    requires n <= |m| + 3
  {
    EndsWithSep((m + SEP)[..n])
  }

  lemma SepSpelled(s: string, i: nat)
    requires i + 3 <= |s|
    ensures s[i..i + 3] == SEP <==> s[i] == '\n' && s[i + 1] == '.' && s[i + 2] == '\n'
  {
    var t := s[i..i + 3];
    assert t[0] == s[i] && t[1] == s[i + 1] && t[2] == s[i + 2];
    if s[i] == '\n' && s[i + 1] == '.' && s[i + 2] == '\n' {
      assert t == SEP;
    }
  }

  lemma EarlySepIsUnframed(m: string, n: nat)
    requires n < |m| + 3 && SepAt(m, n)
    ensures !Framed(m)
  {
    var f := m + SEP;
    assert f[..n][n - 3..] == f[n - 3..n];
    SepSpelled(f, n - 3);
    if n <= |m| {
      SepSpelled(m, n - 3);
      assert SepFrom(m, n - 3);
    } else if n == |m| + 1 {
      assert m[|m| - 2..] == "\n.";
    }
  }

  lemma UnframedHasEarlySep(m: string) returns (n: nat)
    requires !Framed(m)
    ensures n < |m| + 3 && SepAt(m, n)
  {
    var f := m + SEP;
    var i: nat;
    if |m| >= 2 && m[|m| - 2..] == "\n." {
      i := |m| - 2;
      assert m[i] == m[i..][0] && m[i + 1] == m[i..][1];
    } else {
      i :| i + 3 <= |m| && SepFrom(m, i);
      SepSpelled(m, i);
    }
    n := i + 3;
    SepSpelled(f, i);
    assert f[..n][i..] == f[i..n];
  }

  /** Framed says exactly that no proper prefix of the frame looks complete. */
  lemma FramedIff(m: string)
    ensures Framed(m) <==> forall n :: 0 <= n < |m| + 3 ==> !SepAt(m, n)
  {
    if Framed(m) {
      forall n | 0 <= n < |m| + 3 ensures !SepAt(m, n) {
        if SepAt(m, n) {
          EarlySepIsUnframed(m, n);
        }
      }
    } else {
      var n := UnframedHasEarlySep(m);
    }
  }

  lemma WholeFrameIsComplete(m: string)
    ensures EndsWithSep(m + SEP) && Chopped(m + SEP) == m
  {
    assert (m + SEP)[|m|..] == SEP;
    assert (m + SEP)[..|m|] == m;
  }

  // ----- the receiver under every fragmentation of one frame

  function Joined(fragments: seq<string>): string {
    if fragments == [] then "" else Joined(fragments[..|fragments| - 1]) + fragments[|fragments| - 1]
  }

  function Fed(s: Server, fragments: seq<string>, agent: Agent): Server {
    if fragments == [] then s
    else ServerRead(Fed(s, fragments[..|fragments| - 1], agent), fragments[|fragments| - 1], agent)
  }

  const FRESH_SERVER := Server("", "", true, [])

  ghost predicate Fragments(fs: seq<string>) {
    forall i :: 0 <= i < |fs| ==> 0 < |fs[i]| <= BUFF_SIZE
  }

  /** Until the frame is whole the receiver only collects it. */
  lemma {:induction false} FedCollects(m: string, fs: seq<string>, agent: Agent)
    requires Framed(m)
    requires Joined(fs) <= m + SEP && |Joined(fs)| < |m| + 3
    ensures Fed(FRESH_SERVER, fs, agent) == FRESH_SERVER.(inBuffer := Joined(fs))
  {
    if fs == [] {
    } else {
      FedCollects(m, fs[..|fs| - 1], agent);
      FramedIff(m);
      assert Joined(fs) == (m + SEP)[..|Joined(fs)|];
      assert !SepAt(m, |Joined(fs)|);
    }
  }

  function Singles(s: string): seq<string> {
    seq(|s|, i requires 0 <= i < |s| => [s[i]])
  }

  lemma SinglesInit(s: string)
    requires s != ""
    ensures Singles(s)[..|s| - 1] == Singles(s[..|s| - 1])
    ensures s[..|s| - 1] + [s[|s| - 1]] == s
  {
  }

  lemma {:induction false} JoinedSingles(s: string)
    ensures Joined(Singles(s)) == s
  {
    if s != "" {
      SinglesInit(s);
      JoinedSingles(s[..|s| - 1]);
    }
  }

  lemma {:induction false} FedOnlyAddsCalls(s: Server, fs: seq<string>, agent: Agent)
    ensures s.calls <= Fed(s, fs, agent).calls
  {
    if fs == [] {
    } else {
      FedOnlyAddsCalls(s, fs[..|fs| - 1], agent);
    }
  }

  lemma {:induction false} FedInTwo(s: Server, fs: seq<string>, gs: seq<string>, agent: Agent)
    ensures Fed(s, fs + gs, agent) == Fed(Fed(s, fs, agent), gs, agent)
  {
    if gs == [] {
      assert fs + gs == fs;
    } else {
      assert (fs + gs)[..|fs + gs| - 1] == fs + gs[..|gs| - 1];
      FedInTwo(s, fs, gs[..|gs| - 1], agent);
    }
  }

  lemma CollectsOne(s: string, c: char, agent: Agent)
    requires !EndsWithSep(s + [c])
    ensures ServerRead(FRESH_SERVER.(inBuffer := s), [c], agent) == FRESH_SERVER.(inBuffer := s + [c])
  {
  }

  /** Fed one character at a time, the receiver calls the agent at the first prefix that looks complete. */
  lemma {:induction false} FedSingles(s: string, agent: Agent)
    requires forall n :: 0 <= n <= |s| ==> !EndsWithSep(s[..n])
    ensures Fed(FRESH_SERVER, Singles(s), agent) == FRESH_SERVER.(inBuffer := s)
  {
    if s != "" {
      var init := s[..|s| - 1];
      forall n | 0 <= n <= |init| ensures !EndsWithSep(init[..n]) {
        assert init[..n] == s[..n];
      }
      FedSingles(init, agent);
      SinglesInit(s);
      assert s[..|s|] == s;
      CollectsOne(init, s[|s| - 1], agent);
    }
  }

  lemma FramedIsEnough(m: string, fs: seq<string>, agent: Agent)
    requires Framed(m) && Fragments(fs) && Joined(fs) == m + SEP
    ensures Fed(FRESH_SERVER, fs, agent).calls == [m]
  {
    var init := fs[..|fs| - 1];
    assert |fs[|fs| - 1]| > 0;
    FedCollects(m, init, agent);
    WholeFrameIsComplete(m);
  }

  lemma CallAtFirstSep(m: string, n: nat, agent: Agent)
    requires 0 < n < |m| + 3 && SepAt(m, n) && forall k :: 0 <= k < n ==> !SepAt(m, k)
    ensures Fed(FRESH_SERVER, Singles((m + SEP)[..n]), agent).calls == [Chopped((m + SEP)[..n])]
  {
    var f := m + SEP;
    var p, q := f[..n - 1], f[..n];
    forall k | 0 <= k <= |p| ensures !EndsWithSep(p[..k]) {
      assert p[..k] == f[..k];
      assert !SepAt(m, k);
    }
    FedSingles(p, agent);
    assert Singles(q)[..n - 1] == Singles(p);
    assert p + [q[n - 1]] == q;
  }

  /** Fed one character at a time, an unframed message reaches the agent truncated. */
  lemma UnframedBreaks(m: string, agent: Agent) returns (fs: seq<string>)
    requires !Framed(m)
    ensures Fragments(fs) && Joined(fs) == m + SEP
    ensures Fed(FRESH_SERVER, fs, agent).calls != [m]
  {
    FramedIff(m);
    var n := FirstSep(m);
    var f := m + SEP;
    CallAtFirstSep(m, n, agent);
    fs := Singles(f);
    JoinedSingles(f);
    var gs, hs := Singles(f[..n]), fs[n..];
    assert gs + hs == fs;
    FedInTwo(FRESH_SERVER, gs, hs, agent);
    var s := Fed(FRESH_SERVER, gs, agent);
    FedOnlyAddsCalls(s, hs, agent);
    assert |s.calls[0]| < |m|;
  }

  /** The receiver hands over exactly the message, once, under every fragmentation of its
      frame, if and only if the message is framed. */
  lemma FramingExact(m: string, agent: Agent)
    ensures Framed(m) <==>
            forall fs :: Fragments(fs) && Joined(fs) == m + SEP ==> Fed(FRESH_SERVER, fs, agent).calls == [m]
  {
    if Framed(m) {
      forall fs | Fragments(fs) && Joined(fs) == m + SEP ensures Fed(FRESH_SERVER, fs, agent).calls == [m] {
        FramedIsEnough(m, fs, agent);
      }
    } else {
      var fs := UnframedBreaks(m, agent);
    }
  }

  lemma FirstSep(m: string) returns (n: nat)
    requires exists k :: 0 <= k < |m| + 3 && SepAt(m, k)
    ensures 0 < n < |m| + 3 && SepAt(m, n)
    ensures forall k :: 0 <= k < n ==> !SepAt(m, k)
  {
    n := 0;
    while !SepAt(m, n)
      invariant n < |m| + 3
      invariant forall k :: 0 <= k < n ==> !SepAt(m, k)
      decreases |m| + 3 - n
    {
      n := n + 1;
    }
  }
}
