/** JSON text as the profiler writes it, and a reader for it: strings and numbers exactly as
    sections 7 and 6 of RFC 8259 define them. */
module Json {
  import opened Wrappers

  // ---- strings ----

  function HexDigit(d: nat): (c: char)
    requires d < 16
  {
    if d < 10 then ('0' as int + d) as char else ('a' as int + (d - 10)) as char
  }

  /** Four lower-case hexadecimal digits. */
  function Hex4(v: nat): (r: string)
    requires v < 0x10000
    ensures |r| == 4
  {
    [HexDigit(v / 0x1000), HexDigit(v / 0x100 % 16), HexDigit(v / 0x10 % 16), HexDigit(v % 16)]
  }

  /** What `json_str` writes for one character. */
  function Escape(c: char): (r: string)
    ensures |r| > 0
  {
    if c == '"' then "\\\""
    else if c == '\\' then "\\\\"
    else if c == '\n' then "\\n"
    else if c == '\r' then "\\r"
    else if c == '\t' then "\\t"
    else if c as int < 0x20 then "\\u" + Hex4(c as int)
    else [c]
  }

  function Escapes(s: string): string {
    if s == [] then [] else Escape(s[0]) + Escapes(s[1..])
  }

  function Encode(s: string): string { ['"'] + Escapes(s) + ['"'] }

  function HexValue(c: char): (r: Option<nat>)
    ensures r.Some? ==> r.value < 16
  {
    if '0' <= c <= '9' then Some(c as int - '0' as int)
    else if 'a' <= c <= 'f' then Some(c as int - 'a' as int + 10)
    else if 'A' <= c <= 'F' then Some(c as int - 'A' as int + 10)
    else None
  }

  function ReadHex4(s: string): (r: Option<nat>)
    requires |s| >= 4
    ensures r.Some? ==> r.value < 0x10000
  {
    var a, b, c, d := HexValue(s[0]), HexValue(s[1]), HexValue(s[2]), HexValue(s[3]);
    if a.Some? && b.Some? && c.Some? && d.Some?
    then Some(a.value * 0x1000 + b.value * 0x100 + c.value * 0x10 + d.value)
    else None
  }

  /** The four digits after `\u`; a high surrogate needs its low one, escaped as well. */
  function ReadUnicode(s: string): (r: Option<(char, string)>)
    ensures r.Some? ==> |r.value.1| < |s|
  {
    if |s| < 4 then None
    else
      match ReadHex4(s[..4])
      case None => None
      case Some(v) =>
        if v < 0xD800 || 0xE000 <= v then Some((v as char, s[4..]))
        else if v < 0xDC00 && |s| >= 10 && s[4] == '\\' && s[5] == 'u' then
          match ReadHex4(s[6..10])
          case Some(l) =>
            if 0xDC00 <= l < 0xE000 then Some(((0x10000 + (v - 0xD800) * 0x400 + (l - 0xDC00)) as char, s[10..]))
            else None
          case None => None
        else None
  }

  /** What follows a backslash. */
  function ReadEscape(s: string): (r: Option<(char, string)>)
    ensures r.Some? ==> |r.value.1| < |s|
  {
    if s == [] then None
    else if s[0] == '"' || s[0] == '\\' || s[0] == '/' then Some((s[0], s[1..]))
    else if s[0] == 'b' then Some((8 as char, s[1..]))
    else if s[0] == 'f' then Some((12 as char, s[1..]))
    else if s[0] == 'n' then Some(('\n', s[1..]))
    else if s[0] == 'r' then Some(('\r', s[1..]))
    else if s[0] == 't' then Some(('\t', s[1..]))
    else if s[0] == 'u' then ReadUnicode(s[1..])
    else None
  }

  /** Read up to the closing quote: raw control characters are refused. */
  function ReadString(s: string): (r: Option<(string, string)>)
    ensures r.Some? ==> |r.value.1| < |s|
    decreases |s|
  {
    if s == [] then None
    else if s[0] == '"' then Some(([], s[1..]))
    else if s[0] == '\\' then
      match ReadEscape(s[1..])
      case None => None
      case Some((c, rest)) => Prepend(c, ReadString(rest))
    else if s[0] as int < 0x20 then None
    else Prepend(s[0], ReadString(s[1..]))
  }

  function Prepend(c: char, r: Option<(string, string)>): (o: Option<(string, string)>)
    ensures o.Some? <==> r.Some?
    ensures o.Some? ==> o.value.1 == r.value.1
  {
    match r
    case None => None
    case Some((s, rest)) => Some(([c] + s, rest))
  }

  /** A whole JSON text that is one string. */
  function Decode(s: string): Option<string> {
    if s == [] || s[0] != '"' then None
    else
      match ReadString(s[1..])
      case Some((text, rest)) => if rest == [] then Some(text) else None
      case None => None
  }

  lemma {:induction false} HexRound(v: nat)
    requires v < 0x20
    ensures ReadHex4(Hex4(v)) == Some(v)
  {
    assert v / 0x1000 == 0 && v / 0x100 % 16 == 0;
    assert v == v / 0x10 % 16 * 0x10 + v % 16;
  }

  lemma {:induction false} ReadControl(c: char, rest: string)
    requires c as int < 0x20
    ensures ReadEscape("u" + Hex4(c as int) + rest) == Some((c, rest))
  {
    var v := c as int;
    var s := "u" + Hex4(v) + rest;
    assert s[1..][..4] == Hex4(v) && s[1..][4..] == rest;
    HexRound(v);
  }

  predicate Named(c: char) { c == '"' || c == '\\' || c == '\n' || c == '\r' || c == '\t' }

  lemma {:induction false} ReadNamed(c: char, rest: string)
    requires Named(c)
    ensures |Escape(c)| == 2 && Escape(c)[0] == '\\'
    ensures ReadEscape([Escape(c)[1]] + rest) == Some((c, rest))
  {
    assert ([Escape(c)[1]] + rest)[1..] == rest;
  }

  /** A text that starts with a backslash is read on from what the escape stands for. */
  lemma {:induction false} ReadEscaped(tail: string, c: char, rest: string)
    requires ReadEscape(tail) == Some((c, rest))
    ensures ReadString(['\\'] + tail) == Prepend(c, ReadString(rest))
  {
    assert (['\\'] + tail)[0] == '\\' && (['\\'] + tail)[1..] == tail;
  }

  /** Any other character stands for itself. */
  lemma {:induction false} ReadPlain(c: char, rest: string)
    requires !Named(c) && c as int >= 0x20
    ensures ReadString([c] + rest) == Prepend(c, ReadString(rest))
  {
    assert ([c] + rest)[0] == c && ([c] + rest)[1..] == rest;
  }

  lemma {:induction false} EscapeTail(c: char, rest: string)
    ensures Named(c) ==> Escape(c) + rest == ['\\'] + ([Escape(c)[1]] + rest)
    ensures !Named(c) && c as int < 0x20 ==> Escape(c) + rest == ['\\'] + ("u" + Hex4(c as int) + rest)
  {
  }

  /** Reading the escape of `c` gives `c` back and goes on with what follows. */
  lemma {:induction false} ReadOne(c: char, rest: string)
    ensures ReadString(Escape(c) + rest) == Prepend(c, ReadString(rest))
  {
    EscapeTail(c, rest);
    if Named(c) {
      ReadNamed(c, rest);
      ReadEscaped([Escape(c)[1]] + rest, c, rest);
    } else if c as int < 0x20 {
      ReadControl(c, rest);
      ReadEscaped("u" + Hex4(c as int) + rest, c, rest);
    } else {
      ReadPlain(c, rest);
    }
  }

  /** Inside any larger text the reader stops exactly at the closing quote, with the string. */
  lemma {:induction false} ReadBack(s: string, rest: string)
    ensures ReadString(Escapes(s) + ['"'] + rest) == Some((s, rest))
  {
    if s == [] {
      assert (Escapes(s) + ['"'] + rest)[1..] == rest;
    } else {
      ReadBack(s[1..], rest);
      ReadOne(s[0], Escapes(s[1..]) + ['"'] + rest);
      assert Escapes(s) + ['"'] + rest == Escape(s[0]) + (Escapes(s[1..]) + ['"'] + rest);
      assert [s[0]] + s[1..] == s;
    }
  }

  /** Decoding what `json_str` wrote gives every input string back. */
  lemma {:induction false} DecodeEncode(s: string)
    ensures Decode(Encode(s)) == Some(s)
  {
    ReadBack(s, []);
    assert Encode(s)[1..] == Escapes(s) + ['"'] + [];
  }

  /** No control character is written raw. */
  lemma {:induction false} EncodeIsClean(s: string, k: nat)
    requires k < |Encode(s)|
    ensures Encode(s)[k] as int >= 0x20
  {
    if 0 < k < |Encode(s)| - 1 {
      EscapesClean(s, k - 1);
    }
  }

  lemma {:induction false} EscapesClean(s: string, k: nat)
    requires k < |Escapes(s)|
    ensures Escapes(s)[k] as int >= 0x20
  {
    if k >= |Escape(s[0])| {
      EscapesClean(s[1..], k - |Escape(s[0])|);
    }
  }

  /** The body of the loop: append one character's escape. */
  method PushEscaped(text: string, c: char) returns (out: string)
    ensures out == text + Escape(c)
  {
    if c == '"' {
      out := text + "\\\"";
    } else if c == '\\' {
      out := text + "\\\\";
    } else if c == '\n' {
      out := text + "\\n";
    } else if c == '\r' {
      out := text + "\\r";
    } else if c == '\t' {
      out := text + "\\t";
    } else if c as int < 0x20 {
      out := text + ("\\u" + Hex4(c as int));
    } else {
      out := text + [c];
    }
  }

  /** `json_str`: one pass over the characters, appending to the output. */
  method JsonStr(s: string) returns (out: string)
    ensures out == Encode(s)
    ensures Decode(out) == Some(s)
    ensures forall k :: 0 <= k < |out| ==> out[k] as int >= 0x20
  {
    out := ['"'];
    var i := 0;
    while i < |s|
      invariant i <= |s|
      invariant out == ['"'] + Escapes(s[..i])
    {
      EscapesNext(s, i);
      out := PushEscaped(out, s[i]);
      i := i + 1;
    }
    assert s[..i] == s;
    out := out + ['"'];
    DecodeEncode(s);
    EncodeAllClean(s);
  }

  lemma {:induction false} EncodeAllClean(s: string)
    ensures forall k :: 0 <= k < |Encode(s)| ==> Encode(s)[k] as int >= 0x20
  {
    forall k | 0 <= k < |Encode(s)| ensures Encode(s)[k] as int >= 0x20 { EncodeIsClean(s, k); }
  }

  lemma {:induction false} EscapesNext(s: string, i: nat)
    requires i < |s|
    ensures ['"'] + Escapes(s[..i]) + Escape(s[i]) == ['"'] + Escapes(s[..i + 1])
  {
    EscapesSnoc(s[..i], s[i]);
    assert s[..i + 1] == s[..i] + [s[i]];
    assert ['"'] + Escapes(s[..i]) + Escape(s[i]) == ['"'] + (Escapes(s[..i]) + Escape(s[i]));
  }

  lemma {:induction false} EscapesSnoc(s: string, c: char)
    ensures Escapes(s + [c]) == Escapes(s) + Escape(c)
  {
    var all := s + [c];
    if s == [] {
      assert all == [c] && all[1..] == [];
    } else {
      EscapesSnoc(s[1..], c);
      assert all[0] == s[0] && all[1..] == s[1..] + [c];
      Concat3(Escape(s[0]), Escapes(s[1..]), Escape(c));
    }
  }

  lemma {:induction false} Concat3(a: string, b: string, c: string)
    ensures a + (b + c) == a + b + c
  {
  }

  // ---- numbers ----

  function Digit(d: nat): char
    requires d < 10
  {
    ('0' as int + d) as char
  }

  function Decimal(n: nat): (r: string)
    ensures |r| > 0
  {
    if n < 10 then [Digit(n)] else Decimal(n / 10) + [Digit(n % 10)]
  }

  predicate IsDigit(c: char) { '0' as int <= c as int <= '9' as int }

  /** How many digits `s` starts with. */
  function DigitRun(s: string): (k: nat)
    ensures k <= |s| && forall i :: 0 <= i < k ==> IsDigit(s[i])
  {
    if s != [] && IsDigit(s[0]) then 1 + DigitRun(s[1..]) else 0
  }

  function ValueOf(s: string): nat
    requires AllDigits(s)
  {
    if s == [] then 0
    else
      assert IsDigit(s[|s| - 1]);
      ValueOf(s[..|s| - 1]) * 10 + (s[|s| - 1] as int - '0' as int)
  }

  /** A number without sign, fraction or exponent; leading zeros are refused. */
  function ReadNumber(s: string): (r: Option<(nat, string)>)
    ensures r.Some? ==> |r.value.1| < |s|
  {
    var k := DigitRun(s);
    if k == 0 || (k > 1 && s[0] == '0') then None else Some((ValueOf(s[..k]), s[k..]))
  }

  predicate AllDigits(s: string) { forall i :: 0 <= i < |s| ==> IsDigit(s[i]) }

  lemma {:induction false} ValueSnoc(s: string, d: nat)
    requires AllDigits(s) && d < 10
    ensures AllDigits(s + [Digit(d)]) && ValueOf(s + [Digit(d)]) == ValueOf(s) * 10 + d
  {
    assert (s + [Digit(d)])[..|s|] == s;
  }

  lemma {:induction false} DecimalDigits(n: nat)
    ensures AllDigits(Decimal(n)) && ValueOf(Decimal(n)) == n
  {
    if n < 10 {
      ValueSnoc([], n);
      assert [] + [Digit(n)] == Decimal(n);
    } else {
      var q, d := n / 10, n % 10;
      DecimalDigits(q);
      ValueSnoc(Decimal(q), d);
      assert Decimal(n) == Decimal(q) + [Digit(d)];
    }
  }

  /** No leading zeros. */
  lemma {:induction false} FirstDigit(n: nat)
    ensures n > 0 ==> Decimal(n)[0] as int > '0' as int
    ensures n == 0 ==> Decimal(n) == "0"
  {
    if n >= 10 {
      FirstDigit(n / 10);
      assert Decimal(n)[0] == Decimal(n / 10)[0];
    }
  }

  lemma {:induction false} RunOfDigits(s: string, rest: string)
    requires AllDigits(s)
    requires rest == [] || !IsDigit(rest[0])
    ensures DigitRun(s + rest) == |s|
  {
    if s == [] {
      assert s + rest == rest;
    } else {
      RunOfDigits(s[1..], rest);
      assert (s + rest)[1..] == s[1..] + rest;
    }
  }

  lemma {:induction false} ReadDecimal(n: nat, rest: string)
    requires rest == [] || !IsDigit(rest[0])
    ensures ReadNumber(Decimal(n) + rest) == Some((n, rest))
  {
    DecimalDigits(n);
    FirstDigit(n);
    RunOfDigits(Decimal(n), rest);
    assert (Decimal(n) + rest)[..|Decimal(n)|] == Decimal(n);
    assert (Decimal(n) + rest)[|Decimal(n)|..] == rest;
  }
}
