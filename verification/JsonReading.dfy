/** A JSON text determines the value it was printed from, so that reading can undo writing:
    no two values have one text, even when other text follows. */
module JsonReading {
  import opened Json

  // ----- digits

  predicate IsDigit(c: char) { '0' <= c <= '9' }

  lemma HexIs(i: nat)
    requires i < 16
    ensures HEX[i] as int == if i < 10 then 48 + i else 87 + i
  {
    assert HEX[0] == '0' && HEX[1] == '1' && HEX[2] == '2' && HEX[3] == '3' && HEX[4] == '4' && HEX[5] == '5';
    assert HEX[6] == '6' && HEX[7] == '7' && HEX[8] == '8' && HEX[9] == '9' && HEX[10] == 'a' && HEX[11] == 'b';
    assert HEX[12] == 'c' && HEX[13] == 'd' && HEX[14] == 'e' && HEX[15] == 'f';
  }

  lemma HexInjective(i: nat, j: nat)
    requires i < 16 && j < 16 && HEX[i] == HEX[j]
    ensures i == j
  {
    HexIs(i);
    HexIs(j);
  }

  lemma {:induction false} DigitsAreDigits(n: nat)
    ensures Digits(n) != "" && forall i :: 0 <= i < |Digits(n)| ==> IsDigit(Digits(n)[i])
  {
    HexIs(n % 10);
    if n < 10 {
    } else {
      DigitsAreDigits(n / 10);
    }
  }

  lemma {:induction false} DigitsInjective(n: nat, m: nat)
    requires Digits(n) == Digits(m)
    ensures n == m
  {
    DigitsAreDigits(n / 10);
    DigitsAreDigits(m / 10);
    assert Digits(n)[|Digits(n)| - 1] == HEX[n % 10] && Digits(m)[|Digits(m)| - 1] == HEX[m % 10];
    HexInjective(n % 10, m % 10);
    if n < 10 || m < 10 {
    } else {
      assert Digits(n)[..|Digits(n)| - 1] == Digits(n / 10) && Digits(m)[..|Digits(m)| - 1] == Digits(m / 10);
      DigitsInjective(n / 10, m / 10);
    }
  }

  /** What may come after a value: the end, or a character that belongs to no value. */
  predicate Follows(x: string) { x == "" || x[0] == ',' || x[0] == ']' || x[0] == '}' }

  lemma Shorter(d: string, e: string, x: string, y: string)
    requires d + x == e + y && |d| < |e|
    ensures x != "" && x[0] == e[|d|]
  {
    assert (d + x)[|d|] == x[0] && (e + y)[|d|] == e[|d|];
  }

  lemma SameDigits(n: nat, m: nat, x: string, y: string)
    requires Digits(n) + x == Digits(m) + y && Follows(x) && Follows(y)
    ensures n == m && x == y
  {
    DigitsAreDigits(n);
    DigitsAreDigits(m);
    if |Digits(n)| < |Digits(m)| {
      Shorter(Digits(n), Digits(m), x, y);
    } else if |Digits(m)| < |Digits(n)| {
      Shorter(Digits(m), Digits(n), y, x);
    } else {
      SamePrefix(Digits(n), Digits(m), x, y);
      DigitsInjective(n, m);
    }
  }

  lemma SamePrefix(a: string, b: string, x: string, y: string)
    requires a + x == b + y && |a| == |b|
    ensures a == b && x == y
  {
    assert a == (a + x)[..|a|] && b == (b + y)[..|a|];
    assert x == (a + x)[|a|..] && y == (b + y)[|a|..];
  }

  lemma Regroup(a: string, b: string, c: string, x: string)
    ensures a + b + c + x == a + (b + (c + x))
  {
  }

  lemma SameTail(a: string, b: string, c: string, x: string, y: string)
    requires a + b + x == a + c + y
    ensures b + x == c + y
  {
    assert a + b + x == a + (b + x) && a + c + y == a + (c + y);
    SamePrefix(a, a, b + x, c + y);
  }

  lemma SameMiddle(a: string, b: string, c: string, d: string, x: string, y: string)
    requires a + b + c + x == a + d + c + y
    ensures b + (c + x) == d + (c + y)
  {
    Regroup(a, b, c, x);
    Regroup(a, d, c, y);
    SamePrefix(a, a, b + (c + x), d + (c + y));
  }

  // ----- strings

  lemma Hex4Injective(a: nat, b: nat)
    requires a < 0x1_0000 && b < 0x1_0000 && Hex4(a) == Hex4(b)
    ensures a == b
  {
    var s, t := Hex4(a), Hex4(b);
    assert s[0] == t[0] && s[1] == t[1] && s[2] == t[2] && s[3] == t[3];
    HexInjective(a / 0x1000 % 16, b / 0x1000 % 16);
    HexInjective(a / 0x100 % 16, b / 0x100 % 16);
    HexInjective(a / 0x10 % 16, b / 0x10 % 16);
    HexInjective(a % 16, b % 16);
    FourDigits(a);
    FourDigits(b);
  }

  lemma FourDigits(a: nat)
    requires a < 0x1_0000
    ensures a == a / 0x1000 % 16 * 0x1000 + a / 0x100 % 16 * 0x100 + a / 0x10 % 16 * 0x10 + a % 16
  {
    assert a / 0x10 == a / 0x100 * 16 + a / 0x10 % 16;
    assert a / 0x100 == a / 0x1000 * 16 + a / 0x100 % 16;
  }

  /** The code unit that an escape of more than one character starts with. */
  function FirstUnit(code: nat): nat {
    if code < 0x1_0000 then code else 0xD800 + ((code - 0x1_0000) / 0x400) % 0x400
  }

  lemma CodeStart(code: nat, u: string)
    ensures |CodeEscape(code)| == (if code < 0x1_0000 then 6 else 12)
    ensures (CodeEscape(code) + u)[2..6] == Hex4(FirstUnit(code))
    ensures code >= 0x1_0000 ==> (CodeEscape(code) + u)[8..12] == Hex4(SecondUnit(code))
  {
  }

  function SecondUnit(code: nat): nat
    requires code >= 0x1_0000
  {
    0xDC00 + (code - 0x1_0000) % 0x400
  }

  /** A character never is half of a pair, so its units tell it. */
  lemma UnitsDetermine(c: char, d: char)
    requires FirstUnit(c as int) == FirstUnit(d as int)
    ensures (c as int < 0x1_0000) == (d as int < 0x1_0000)
    ensures c as int < 0x1_0000 || SecondUnit(c as int) == SecondUnit(d as int) ==> c == d
  {
  }

  lemma SameUnits(a: nat, b: nat, u: string, v: string)
    requires a < 0x11_0000 && b < 0x11_0000 && CodeEscape(a) + u == CodeEscape(b) + v
    ensures FirstUnit(a) == FirstUnit(b)
    ensures a >= 0x1_0000 && b >= 0x1_0000 ==> SecondUnit(a) == SecondUnit(b)
  {
    CodeStart(a, u);
    CodeStart(b, v);
    Hex4Injective(FirstUnit(a), FirstUnit(b));
    if a >= 0x1_0000 && b >= 0x1_0000 {
      Hex4Injective(SecondUnit(a), SecondUnit(b));
    }
  }

  lemma SameCodes(c: char, d: char, u: string, v: string)
    requires CodeEscape(c as int) + u == CodeEscape(d as int) + v
    ensures c == d && u == v
  {
    SameUnits(c as int, d as int, u, v);
    UnitsDetermine(c, d);
    SamePrefix(CodeEscape(c as int), CodeEscape(c as int), u, v);
  }

  /** How an escaped character begins: with a backslash, or as itself. */
  lemma EscapedStart(c: char)
    ensures EscapedChar(c) != "" && EscapedChar(c)[0] != '"'
    ensures c in SHORT_ESCAPES ==> |EscapedChar(c)| == 2 && EscapedChar(c)[0] == '\\' && EscapedChar(c)[1] != 'u'
    ensures c !in SHORT_ESCAPES && ' ' <= c <= '~' ==> EscapedChar(c) == [c] && c != '\\'
    ensures c !in SHORT_ESCAPES && !(' ' <= c <= '~') ==>
              |EscapedChar(c)| >= 2 && EscapedChar(c)[0] == '\\' && EscapedChar(c)[1] == 'u'
  {
    assert '"' in SHORT_ESCAPES && '\\' in SHORT_ESCAPES;
  }

  lemma ShortInjective(c: char, d: char)
    requires c in SHORT_ESCAPES && d in SHORT_ESCAPES && SHORT_ESCAPES[c] == SHORT_ESCAPES[d]
    ensures c == d
  {
  }

  lemma SameChar(c: char, d: char, u: string, v: string)
    requires EscapedChar(c) + u == EscapedChar(d) + v
    ensures c == d && u == v
  {
    EscapedStart(c);
    EscapedStart(d);
    var s, t := EscapedChar(c) + u, EscapedChar(d) + v;
    assert s[0] == EscapedChar(c)[0] && t[0] == EscapedChar(d)[0];
    if s[0] != '\\' {
      SamePrefix([c], [d], u, v);
    } else {
      assert s[1] == EscapedChar(c)[1] && t[1] == EscapedChar(d)[1];
      if s[1] == 'u' {
        SameCodes(c, d, u, v);
      } else {
        ShortInjective(c, d);
        SamePrefix(EscapedChar(c), EscapedChar(d), u, v);
      }
    }
  }

  lemma EscapedSplit(s: string, x: string)
    ensures Escaped(s) + ("\"" + x) ==
            if s == "" then "\"" + x else EscapedChar(s[0]) + (Escaped(s[1..]) + ("\"" + x))
  {
  }

  lemma EndsFirst(s: string, x: string, y: string)
    requires Escaped(s) + ("\"" + x) == "\"" + y
    ensures s == "" && x == y
  {
    EscapedSplit(s, x);
    if s == "" {
      SamePrefix("\"", "\"", x, y);
    } else {
      EscapedStart(s[0]);
      FirstOf(EscapedChar(s[0]), Escaped(s[1..]) + ("\"" + x));
      FirstOf("\"", y);
    }
  }

  lemma FirstOf(a: string, x: string)
    requires a != ""
    ensures (a + x)[0] == a[0]
  {
  }

  lemma {:induction false} SameEscaped(s: string, t: string, x: string, y: string)
    requires Escaped(s) + ("\"" + x) == Escaped(t) + ("\"" + y)
    ensures s == t && x == y
  {
    EscapedSplit(s, x);
    EscapedSplit(t, y);
    if s == "" {
      EndsFirst(t, y, x);
    } else if t == "" {
      EndsFirst(s, x, y);
    } else {
      SameChar(s[0], t[0], Escaped(s[1..]) + ("\"" + x), Escaped(t[1..]) + ("\"" + y));
      SameEscaped(s[1..], t[1..], x, y);
      assert s == [s[0]] + s[1..] && t == [t[0]] + t[1..];
    }
  }

  lemma SameQuoted(s: string, t: string, x: string, y: string)
    requires Quoted(s) + x == Quoted(t) + y
    ensures s == t && x == y
  {
    SameMiddle("\"", Escaped(s), "\"", Escaped(t), x, y);
    SameEscaped(s, t, x, y);
  }

  // ----- values

  lemma PrintedStart(j: Json)
    ensures Printed(j) != ""
    ensures match j
            case Null => Printed(j)[0] == 'n'
            case Bool(b) => Printed(j)[0] == if b then 't' else 'f'
            case Num(n) => if n < 0 then Printed(j)[0] == '-' else IsDigit(Printed(j)[0])
            case Str(_) => Printed(j)[0] == '"'
            case Arr(_) => Printed(j)[0] == '['
            case Obj(_) => Printed(j)[0] == '{'
  {
    if j.Num? {
      DigitsAreDigits(if j.n < 0 then -j.n else j.n);
    }
  }

  lemma SameKind(j: Json, k: Json, x: string, y: string)
    requires Printed(j) + x == Printed(k) + y
    ensures match j
            case Null => k.Null?
            case Bool(b) => k == j
            case Num(n) => k.Num? && (n < 0 <==> k.n < 0)
            case Str(_) => k.Str?
            case Arr(_) => k.Arr?
            case Obj(_) => k.Obj?
  {
    PrintedStart(j);
    PrintedStart(k);
    assert (Printed(j) + x)[0] == Printed(j)[0] && (Printed(k) + y)[0] == Printed(k)[0];
  }

  lemma SameNegative(n: nat, m: nat, x: string, y: string)
    requires "-" + Digits(n) + x == "-" + Digits(m) + y && Follows(x) && Follows(y)
    ensures n == m && x == y
  {
    SameTail("-", Digits(n), Digits(m), x, y);
    SameDigits(n, m, x, y);
  }

  lemma SameNumber(n: int, m: int, x: string, y: string)
    requires Printed(Num(n)) + x == Printed(Num(m)) + y && (n < 0 <==> m < 0) && Follows(x) && Follows(y)
    ensures n == m && x == y
  {
    if n < 0 {
      SameNegative(-n, -m, x, y);
    } else {
      SameDigits(n, m, x, y);
    }
  }

  /** The value, and what follows it, can be told from the text. */
  lemma {:induction false} PrintedUniquely(j: Json, k: Json, x: string, y: string)
    requires Printed(j) + x == Printed(k) + y && Follows(x) && Follows(y)
    ensures j == k && x == y
    decreases j, 0
  {
    SameKind(j, k, x, y);
    match j
    case Null => SamePrefix("null", "null", x, y);
    case Bool(_) => SamePrefix(Printed(j), Printed(j), x, y);
    case Num(n) => SameNumber(n, k.n, x, y);
    case Str(s) => SameQuoted(s, k.s, x, y);
    case Arr(items) =>
      SameMiddle("[", PrintedItems(items), "]", PrintedItems(k.items), x, y);
      SameItems(items, k.items, x, y);
    case Obj(members) =>
      SameMiddle("{", PrintedMembers(members), "}", PrintedMembers(k.members), x, y);
      SameMembers(members, k.members, x, y);
  }

  // A list after its first item: the end of the list, or a separator and the rest.

  function Separator(more: bool): string { if more then ", " else "" }

  lemma AfterSeparator(more: bool, rest: string, end: string, x: string)
    requires (end == "]" || end == "}") && (!more ==> rest == "")
    ensures Follows(Separator(more) + (rest + (end + x)))
    ensures Separator(more) + (rest + (end + x)) == if more then ", " + (rest + (end + x)) else end + x
    ensures (Separator(more) + (rest + (end + x)))[0] == if more then ',' else end[0]
  {
    if more {
      FirstOf(", ", rest + (end + x));
    } else {
      FirstOf(end, x);
    }
  }

  lemma SameRest(a: bool, b: bool, r: string, q: string, end: string, x: string, y: string)
    requires (end == "]" || end == "}") && (!a ==> r == "") && (!b ==> q == "")
    requires Separator(a) + (r + (end + x)) == Separator(b) + (q + (end + y))
    ensures a == b && r + (end + x) == q + (end + y) && (!a ==> x == y)
  {
    AfterSeparator(a, r, end, x);
    AfterSeparator(b, q, end, y);
    if a {
      SamePrefix(", ", ", ", r + (end + x), q + (end + y));
    } else {
      SamePrefix(end, end, x, y);
    }
  }

  lemma {:induction false} SameItems(a: seq<Json>, b: seq<Json>, x: string, y: string)
    requires PrintedItems(a) + ("]" + x) == PrintedItems(b) + ("]" + y)
    ensures a == b && x == y
    decreases a, 1
  {
    if a == [] {
      NoItems(b, y, x);
    } else if b == [] {
      NoItems(a, x, y);
    } else {
      var r, q := PrintedItems(a[1..]), PrintedItems(b[1..]);
      Regroup(Printed(a[0]), Separator(|a| > 1), r, "]" + x);
      Regroup(Printed(b[0]), Separator(|b| > 1), q, "]" + y);
      AfterSeparator(|a| > 1, r, "]", x);
      AfterSeparator(|b| > 1, q, "]", y);
      PrintedUniquely(a[0], b[0], Separator(|a| > 1) + (r + ("]" + x)), Separator(|b| > 1) + (q + ("]" + y)));
      SameRest(|a| > 1, |b| > 1, r, q, "]", x, y);
      SameItems(a[1..], b[1..], x, y);
      assert a == [a[0]] + a[1..] && b == [b[0]] + b[1..];
    }
  }

  lemma NoItems(a: seq<Json>, x: string, y: string)
    requires PrintedItems(a) + ("]" + x) == "]" + y
    ensures a == [] && x == y
  {
    FirstOf("]", y);
    if a == [] {
      SamePrefix("]", "]", x, y);
    } else {
      PrintedStart(a[0]);
      Regroup(Printed(a[0]), Separator(|a| > 1), PrintedItems(a[1..]), "]" + x);
      FirstOf(Printed(a[0]), Separator(|a| > 1) + (PrintedItems(a[1..]) + ("]" + x)));
    }
  }

  lemma RegroupMember(name: string, value: string, sep: string, rest: string, x: string)
    ensures name + ": " + value + sep + rest + x == name + (": " + (value + (sep + (rest + x))))
  {
  }

  lemma {:induction false} SameMembers(a: seq<Member>, b: seq<Member>, x: string, y: string)
    requires PrintedMembers(a) + ("}" + x) == PrintedMembers(b) + ("}" + y)
    ensures a == b && x == y
    decreases a, 1
  {
    if a == [] {
      NoMembers(b, y, x);
    } else if b == [] {
      NoMembers(a, x, y);
    } else {
      var r, q := PrintedMembers(a[1..]), PrintedMembers(b[1..]);
      var s, t := Separator(|a| > 1) + (r + ("}" + x)), Separator(|b| > 1) + (q + ("}" + y));
      var v, w := Printed(a[0].value), Printed(b[0].value);
      RegroupMember(Quoted(a[0].name), v, Separator(|a| > 1), r, "}" + x);
      RegroupMember(Quoted(b[0].name), w, Separator(|b| > 1), q, "}" + y);
      SameQuoted(a[0].name, b[0].name, ": " + (v + s), ": " + (w + t));
      SamePrefix(": ", ": ", v + s, w + t);
      AfterSeparator(|a| > 1, r, "}", x);
      AfterSeparator(|b| > 1, q, "}", y);
      PrintedUniquely(a[0].value, b[0].value, s, t);
      SameRest(|a| > 1, |b| > 1, r, q, "}", x, y);
      SameMembers(a[1..], b[1..], x, y);
      assert a == [a[0]] + a[1..] && b == [b[0]] + b[1..];
    }
  }

  lemma NoMembers(a: seq<Member>, x: string, y: string)
    requires PrintedMembers(a) + ("}" + x) == "}" + y
    ensures a == [] && x == y
  {
    FirstOf("}", y);
    if a == [] {
      SamePrefix("}", "}", x, y);
    }
  }

  /** No two values have one text. */
  lemma PrintedInjective(j: Json, k: Json)
    ensures Printed(j) == Printed(k) <==> j == k
  {
    if Printed(j) == Printed(k) {
      assert Printed(j) + "" == Printed(k) + "";
      PrintedUniquely(j, k, "", "");
    }
  }
}
