/** The JSON text of messages: what a transport that frames with newlines relies on. */
module Json {
  import opened Records
  import opened AsyncTcp
  import opened TcpExchange

  datatype Json =
    | Null
    | Bool(b: bool)
    | Num(n: int)
    | Str(s: string)
    | Arr(items: seq<Json>)
    | Obj(members: seq<Member>)

  datatype Member = Member(name: string, value: Json)

  /** Every character outside the printable ASCII range is written as an escape (section 7
      of RFC 8259); those above 0xFFFF as two. */
  function EscapedChar(c: char): string {
    if c in SHORT_ESCAPES then ['\\', SHORT_ESCAPES[c]]
    else if ' ' <= c <= '~' then [c]
    else CodeEscape(c as int)
  }

  const SHORT_ESCAPES: map<char, char> :=
    map['"' := '"', '\\' := '\\', '\n' := 'n', '\r' := 'r', '\t' := 't', 8 as char := 'b', 12 as char := 'f']

  function CodeEscape(code: nat): string {
    if code < 0x1_0000 then "\\u" + Hex4(code)
    else "\\u" + Hex4(0xD800 + ((code - 0x1_0000) / 0x400) % 0x400)
         + ("\\u" + Hex4(0xDC00 + (code - 0x1_0000) % 0x400))
  }

  const HEX: string := "0123456789abcdef"

  function Hex4(n: nat): string {
    [HEX[n / 0x1000 % 16], HEX[n / 0x100 % 16], HEX[n / 0x10 % 16], HEX[n % 16]]
  }

  function Escaped(s: string): string {
    if s == "" then "" else EscapedChar(s[0]) + Escaped(s[1..])
  }

  function Quoted(s: string): string { "\"" + Escaped(s) + "\"" }

  function Digits(n: nat): string {
    if n < 10 then [HEX[n]] else Digits(n / 10) + [HEX[n % 10]]
  }

  /** `json.dumps`. */
  function Printed(j: Json): string
    decreases j, 0
  {
    match j
    case Null => "null"
    case Bool(b) => if b then "true" else "false"
    case Num(n) => if n < 0 then "-" + Digits(-n) else Digits(n)
    case Str(s) => Quoted(s)
    case Arr(items) => "[" + PrintedItems(items) + "]"
    case Obj(members) => "{" + PrintedMembers(members) + "}"
  }

  function PrintedItems(items: seq<Json>): string
    decreases items, 1
  {
    if items == [] then ""
    else Printed(items[0]) + (if |items| > 1 then ", " else "") + PrintedItems(items[1..])
  }

  function PrintedMembers(members: seq<Member>): string
    decreases members, 1
  {
    if members == [] then ""
    else Quoted(members[0].name) + ": " + Printed(members[0].value)
         + (if |members| > 1 then ", " else "") + PrintedMembers(members[1..])
  }

  lemma Glue(a: string, b: string)
    requires NewlineFree(a) && NewlineFree(b)
    ensures NewlineFree(a + b)
  {
  }

  lemma HexIsPlain(n: nat)
    ensures HEX[n % 16] != '\n'
  {
    assert forall i :: 0 <= i < |HEX| ==> HEX[i] != '\n';
  }

  lemma Hex4IsPlain(n: nat)
    ensures NewlineFree(Hex4(n))
  {
    HexIsPlain(n / 0x1000);
    HexIsPlain(n / 0x100);
    HexIsPlain(n / 0x10);
    HexIsPlain(n);
  }

  lemma CodeEscapeIsPlain(code: nat)
    ensures NewlineFree(CodeEscape(code))
  {
    if code < 0x1_0000 {
      Hex4IsPlain(code);
      Glue("\\u", Hex4(code));
    } else {
      var hi, lo := 0xD800 + ((code - 0x1_0000) / 0x400) % 0x400, 0xDC00 + (code - 0x1_0000) % 0x400;
      Hex4IsPlain(hi);
      Hex4IsPlain(lo);
      Glue("\\u", Hex4(hi));
      Glue("\\u", Hex4(lo));
      Glue("\\u" + Hex4(hi), "\\u" + Hex4(lo));
    }
  }

  lemma EscapedCharIsPlain(c: char)
    ensures NewlineFree(EscapedChar(c))
  {
    if c in SHORT_ESCAPES {
      assert SHORT_ESCAPES[c] != '\n';
    } else if !(' ' <= c <= '~') {
      CodeEscapeIsPlain(c as int);
    }
  }

  lemma {:induction false} EscapedIsPlain(s: string)
    ensures NewlineFree(Escaped(s))
  {
    if s != "" {
      EscapedCharIsPlain(s[0]);
      EscapedIsPlain(s[1..]);
      Glue(EscapedChar(s[0]), Escaped(s[1..]));
    }
  }

  lemma QuotedIsPlain(s: string)
    ensures NewlineFree(Quoted(s))
  {
    EscapedIsPlain(s);
    Glue("\"", Escaped(s));
    Glue("\"" + Escaped(s), "\"");
  }

  lemma {:induction false} DigitsArePlain(n: nat)
    ensures NewlineFree(Digits(n))
  {
    assert forall i :: 0 <= i < |HEX| ==> HEX[i] != '\n';
    if n >= 10 {
      DigitsArePlain(n / 10);
      Glue(Digits(n / 10), [HEX[n % 10]]);
    }
  }

  /** No JSON text contains a newline, whatever its strings contain. */
  lemma {:induction false} PrintedIsPlain(j: Json)
    ensures NewlineFree(Printed(j))
    decreases j, 0
  {
    match j
    case Null =>
    case Bool(b) =>
    case Num(n) =>
      DigitsArePlain(if n < 0 then -n else n);
      Glue("-", Digits(if n < 0 then -n else n));
    case Str(s) => QuotedIsPlain(s);
    case Arr(items) =>
      ItemsArePlain(items);
      Glue("[", PrintedItems(items));
      Glue("[" + PrintedItems(items), "]");
    case Obj(members) =>
      MembersArePlain(members);
      Glue("{", PrintedMembers(members));
      Glue("{" + PrintedMembers(members), "}");
  }

  lemma {:induction false} ItemsArePlain(items: seq<Json>)
    ensures NewlineFree(PrintedItems(items))
    decreases items, 1
  {
    if items == [] {
    } else {
      PrintedIsPlain(items[0]);
      ItemsArePlain(items[1..]);
      var sep := if |items| > 1 then ", " else "";
      Glue(Printed(items[0]), sep);
      Glue(Printed(items[0]) + sep, PrintedItems(items[1..]));
    }
  }

  lemma {:induction false} MembersArePlain(members: seq<Member>)
    ensures NewlineFree(PrintedMembers(members))
    decreases members, 1
  {
    if members == [] {
    } else {
      var name, value := Quoted(members[0].name), Printed(members[0].value);
      QuotedIsPlain(members[0].name);
      PrintedIsPlain(members[0].value);
      MembersArePlain(members[1..]);
      var sep := if |members| > 1 then ", " else "";
      Glue(name, ": ");
      Glue(name + ": ", value);
      Glue(name + ": " + value, sep);
      Glue(name + ": " + value + sep, PrintedMembers(members[1..]));
    }
  }

  /** So an exchange of two JSON texts, in any fragmentation, calls the agent exactly once
      with the request and returns exactly the response, and always comes to an end. */
  lemma JsonExchangeCompletes(xs: seq<Exchange>, acts: seq<Action>, request: Json, response: Json, agent: Agent)
    requires agent(Printed(request)) == Some(Printed(response))
    requires IsRun(xs, acts, Printed(request), agent)
    requires forall i :: 0 <= i < |acts| ==> Orderly(acts[i])
    requires forall a :: Orderly(a) ==> !Enabled(xs[|acts|], a)
    ensures xs[|acts|].client.status == Returned(Printed(response))
    ensures xs[|acts|].server.calls == [Printed(request)]
    ensures |acts| <= Measure(Start(Printed(request)), Printed(request), agent)
  {
    PrintedIsPlain(request);
    PrintedIsPlain(response);
    NewlineFreeIsFramed(Printed(request));
    NewlineFreeIsFramed(Printed(response));
    ExchangeCompletes(xs, acts, Printed(request), Printed(response), agent);
  }
}
