/** The trace document as JSON text: what is written for a list of flat objects, and a reader
    for exactly that shape. */
module TraceText {
  import opened Wrappers
  import opened Json

  datatype Scalar = Text(text: string) | Number(n: nat)
  datatype Field = Field(name: string, value: Scalar)
  type Object = seq<Field>

  // ---- writing ----

  function RenderScalar(v: Scalar): string {
    match v
    case Text(text) => Encode(text)
    case Number(n) => Decimal(n)
  }

  function RenderField(f: Field): string { Encode(f.name) + [':'] + RenderScalar(f.value) }

  function RenderFields(fs: Object): string
    decreases |fs|
  {
    if |fs| == 0 then []
    else if |fs| == 1 then RenderField(fs[0])
    else RenderField(fs[0]) + [','] + RenderFields(fs[1..])
  }

  function RenderObject(o: Object): string { ['{'] + RenderFields(o) + ['}'] }

  /** The comma-join of the objects. */
  function RenderObjects(os: seq<Object>): string
    decreases |os|
  {
    if |os| == 0 then []
    else if |os| == 1 then RenderObject(os[0])
    else RenderObject(os[0]) + [','] + RenderObjects(os[1..])
  }

  function Document(body: string): string { "{\"traceEvents\":[" + body + "]}" }

  // ---- reading ----

  function ReadScalar(s: string): (r: Option<(Scalar, string)>)
    ensures r.Some? ==> |r.value.1| < |s|
  {
    if s != [] && s[0] == '"' then
      match ReadString(s[1..])
      case Some((text, rest)) => Some((Text(text), rest))
      case None => None
    else
      match ReadNumber(s)
      case Some((n, rest)) => Some((Number(n), rest))
      case None => None
  }

  function ReadField(s: string): (r: Option<(Field, string)>)
    ensures r.Some? ==> |r.value.1| < |s|
  {
    if s == [] || s[0] != '"' then None
    else
      match ReadString(s[1..])
      case None => None
      case Some((name, rest)) =>
        if rest == [] || rest[0] != ':' then None
        else
          match ReadScalar(rest[1..])
          case Some((v, after)) => Some((Field(name, v), after))
          case None => None
  }

  /** One field or more, up to the closing brace. */
  function ReadFields(s: string): (r: Option<(Object, string)>)
    ensures r.Some? ==> |r.value.1| < |s|
    decreases |s|
  {
    match ReadField(s)
    case None => None
    case Some((f, rest)) =>
      if rest == [] then None
      else if rest[0] == '}' then Some(([f], rest[1..]))
      else if rest[0] != ',' then None
      else
        match ReadFields(rest[1..])
        case Some((fs, after)) => Some(([f] + fs, after))
        case None => None
  }

  function ReadObject(s: string): (r: Option<(Object, string)>)
    ensures r.Some? ==> |r.value.1| < |s|
  {
    if |s| < 2 || s[0] != '{' then None
    else if s[1] == '}' then Some(([], s[2..]))
    else ReadFields(s[1..])
  }

  /** One object or more, up to the closing bracket. */
  function ReadObjects(s: string): (r: Option<(seq<Object>, string)>)
    ensures r.Some? ==> |r.value.1| < |s|
    decreases |s|
  {
    match ReadObject(s)
    case None => None
    case Some((o, rest)) =>
      if rest == [] then None
      else if rest[0] == ']' then Some(([o], rest[1..]))
      else if rest[0] != ',' then None
      else
        match ReadObjects(rest[1..])
        case Some((os, after)) => Some(([o] + os, after))
        case None => None
  }

  const HEAD: string := "{\"traceEvents\":["

  /** A whole trace document. */
  function ReadDocument(s: string): Option<seq<Object>> {
    if !(HEAD <= s) then None
    else
      var body := s[|HEAD|..];
      if body == "]}" then Some([])
      else
        match ReadObjects(body)
        case Some((os, rest)) => if rest == "}" then Some(os) else None
        case None => None
  }

  // ---- what is written is read back ----

  predicate Delimited(rest: string) { rest == [] || !IsDigit(rest[0]) }

  /** Concatenation is associative, as it is needed below. */
  lemma {:induction false} Regroup(a: string, b: string, c: string, d: string)
    ensures a + b + c + d == a + (b + c + d)
    ensures a + b + c == a + (b + c)
  {
  }

  lemma {:induction false} Tail(c: char, rest: string)
    ensures ([c] + rest)[0] == c && ([c] + rest)[1..] == rest
  {
  }

  lemma {:induction false} EncodeTail(text: string, rest: string)
    ensures var s := Encode(text) + rest; s[0] == '"' && s[1..] == Escapes(text) + ['"'] + rest
  {
    Regroup(['"'], Escapes(text), ['"'], rest);
    Tail('"', Escapes(text) + ['"'] + rest);
  }

  lemma {:induction false} ReadTextBack(text: string, rest: string)
    ensures ReadScalar(Encode(text) + rest) == Some((Text(text), rest))
  {
    ReadBack(text, rest);
    EncodeTail(text, rest);
  }

  lemma {:induction false} ReadNumberBack(n: nat, rest: string)
    requires Delimited(rest)
    ensures ReadScalar(Decimal(n) + rest) == Some((Number(n), rest))
  {
    ReadDecimal(n, rest);
    DecimalDigits(n);
    assert IsDigit(Decimal(n)[0]) && (Decimal(n) + rest)[0] == Decimal(n)[0];
  }

  lemma {:induction false} ReadScalarBack(v: Scalar, rest: string)
    requires Delimited(rest)
    ensures ReadScalar(RenderScalar(v) + rest) == Some((v, rest))
  {
    match v
    case Text(text) => ReadTextBack(text, rest);
    case Number(n) => ReadNumberBack(n, rest);
  }

  lemma {:induction false} ReadNameBack(name: string, tail: string)
    ensures var s := Encode(name) + tail; s[0] == '"' && ReadString(s[1..]) == Some((name, tail))
  {
    ReadBack(name, tail);
    EncodeTail(name, tail);
  }

  lemma {:induction false} ReadFieldBack(f: Field, rest: string)
    requires Delimited(rest)
    ensures ReadField(RenderField(f) + rest) == Some((f, rest))
  {
    var tail := RenderScalar(f.value) + rest;
    Regroup(Encode(f.name), [':'], RenderScalar(f.value), rest);
    Regroup([':'], RenderScalar(f.value), rest, []);
    ReadNameBack(f.name, [':'] + tail);
    Tail(':', tail);
    ReadScalarBack(f.value, rest);
  }

  lemma {:induction false} ReadFieldsBack(fs: Object, rest: string)
    requires fs != []
    ensures ReadFields(RenderFields(fs) + ['}'] + rest) == Some((fs, rest))
    decreases |fs|
  {
    if |fs| == 1 {
      Regroup(RenderField(fs[0]), ['}'], rest, []);
      Tail('}', rest);
      ReadFieldBack(fs[0], ['}'] + rest);
      assert fs == [fs[0]];
    } else {
      var more := RenderFields(fs[1..]);
      FieldsTail(RenderField(fs[0]), more, '}', rest);
      ReadFieldsBack(fs[1..], rest);
      ReadFieldsCons(fs[0], more + ['}'] + rest);
      assert fs == [fs[0]] + fs[1..];
    }
  }

  lemma {:induction false} ReadFieldsCons(f: Field, more: string)
    requires ReadFields(more).Some?
    ensures var tail := ReadFields(more).value;
            ReadFields(RenderField(f) + ([','] + more)) == Some(([f] + tail.0, tail.1))
  {
    Tail(',', more);
    ReadFieldBack(f, [','] + more);
  }

  lemma {:induction false} FieldsTail(first: string, more: string, close: char, rest: string)
    ensures first + [','] + more + [close] + rest == first + ([','] + (more + [close] + rest))
  {
  }

  lemma {:induction false} FieldsStart(fs: Object)
    requires fs != []
    ensures RenderFields(fs) != [] && RenderFields(fs)[0] == '"'
  {
  }

  lemma {:induction false} ReadObjectBack(o: Object, rest: string)
    ensures ReadObject(RenderObject(o) + rest) == Some((o, rest))
  {
    var s := RenderObject(o) + rest;
    if o == [] {
      assert s[2..] == rest;
    } else {
      FieldsStart(o);
      Regroup(['{'], RenderFields(o), ['}'], rest);
      Tail('{', RenderFields(o) + ['}'] + rest);
      ReadFieldsBack(o, rest);
    }
  }

  lemma {:induction false} ReadObjectsCons(o: Object, more: string)
    ensures ReadObjects(RenderObject(o) + ([','] + more)) ==
            match ReadObjects(more) case None => None case Some(tail) => Some(([o] + tail.0, tail.1))
  {
    Tail(',', more);
    ReadObjectBack(o, [','] + more);
  }

  lemma {:induction false} ReadObjectsBack(os: seq<Object>, rest: string)
    requires os != []
    ensures ReadObjects(RenderObjects(os) + [']'] + rest) == Some((os, rest))
    decreases |os|
  {
    if |os| == 1 {
      Regroup(RenderObject(os[0]), [']'], rest, []);
      Tail(']', rest);
      ReadObjectBack(os[0], [']'] + rest);
      assert os == [os[0]];
    } else {
      var more := RenderObjects(os[1..]);
      FieldsTail(RenderObject(os[0]), more, ']', rest);
      ReadObjectsBack(os[1..], rest);
      ReadObjectsCons(os[0], more + [']'] + rest);
      assert os == [os[0]] + os[1..];
    }
  }

  /** A comma before the closing bracket is not read as anything. */
  lemma {:induction false} TrailingCommaRefused(os: seq<Object>, rest: string)
    requires os != []
    ensures ReadObjects(RenderObjects(os) + [','] + ([']'] + rest)) == None
    decreases |os|
  {
    if |os| == 1 {
      Regroup(RenderObject(os[0]), [','], [']'] + rest, []);
      ReadObjectsCons(os[0], [']'] + rest);
      assert ReadObject([']'] + rest).None?;
    } else {
      var more := RenderObjects(os[1..]);
      FieldsTail(RenderObject(os[0]), more, ',', [']'] + rest);
      ReadObjectsCons(os[0], more + [','] + ([']'] + rest));
      TrailingCommaRefused(os[1..], rest);
    }
  }

  lemma {:induction false} ObjectsStart(os: seq<Object>)
    requires os != []
    ensures RenderObjects(os) != [] && RenderObjects(os)[0] == '{'
  {
  }

  lemma {:induction false} DocumentBody(body: string)
    ensures HEAD <= Document(body) && Document(body)[|HEAD|..] == body + "]}"
  {
  }

  /** A document of any objects is read back as those objects. */
  lemma {:induction false} DocumentReadsBack(os: seq<Object>, text: string)
    requires text == Document(RenderObjects(os))
    ensures ReadDocument(text) == Some(os)
  {
    DocumentBody(RenderObjects(os));
    var body := RenderObjects(os) + "]}";
    if os == [] {
      assert body == "]}";
    } else {
      ObjectsStart(os);
      assert body[0] == '{';
      assert body == RenderObjects(os) + [']'] + "}";
      ReadObjectsBack(os, "}");
    }
  }

  /** With a comma after the last object it is not a document. */
  lemma {:induction false} TrailingCommaNoDocument(os: seq<Object>)
    requires os != []
    ensures ReadDocument(Document(RenderObjects(os) + [','])) == None
  {
    DocumentBody(RenderObjects(os) + [',']);
    var body := RenderObjects(os) + [','] + "]}";
    ObjectsStart(os);
    assert body[0] == '{';
    assert body == RenderObjects(os) + [','] + ([']'] + "}");
    TrailingCommaRefused(os, "}");
  }

  // ---- writing piece by piece ----

  lemma {:induction false} FieldsSnoc(fs: Object, f: Field)
    requires fs != []
    ensures RenderFields(fs + [f]) == RenderFields(fs) + [','] + RenderField(f)
    decreases |fs|
  {
    var all := fs + [f];
    assert all[0] == fs[0] && all[1..] == fs[1..] + [f];
    assert RenderFields(all) == RenderField(fs[0]) + [','] + RenderFields(fs[1..] + [f]);
    if |fs| == 1 {
      assert fs[1..] + [f] == [f];
    } else {
      FieldsSnoc(fs[1..], f);
      Regroup(RenderField(fs[0]) + [','], RenderFields(fs[1..]), [','], RenderField(f));
    }
  }

  lemma {:induction false} ObjectsSnoc(os: seq<Object>, o: Object)
    requires os != []
    ensures RenderObjects(os + [o]) == RenderObjects(os) + [','] + RenderObject(o)
    decreases |os|
  {
    var all := os + [o];
    assert all[0] == os[0] && all[1..] == os[1..] + [o];
    assert RenderObjects(all) == RenderObject(os[0]) + [','] + RenderObjects(os[1..] + [o]);
    if |os| == 1 {
      assert os[1..] + [o] == [o];
    } else {
      ObjectsSnoc(os[1..], o);
      Regroup(RenderObject(os[0]) + [','], RenderObjects(os[1..]), [','], RenderObject(o));
    }
  }

  predicate Plain(c: char) { c as int >= 0x20 && c != '"' && c != '\\' }

  /** A name without special characters is written as it is, in quotes. */
  lemma {:induction false} EncodePlain(s: string)
    requires forall k :: 0 <= k < |s| ==> Plain(s[k])
    ensures Encode(s) == ['"'] + s + ['"']
  {
    if s != [] {
      EncodePlain(s[1..]);
      assert Encode(s[1..])[1..|s|] == s[1..];
      assert Escapes(s[1..]) == s[1..];
      assert Plain(s[0]) && Escape(s[0]) == [s[0]];
      assert [s[0]] + s[1..] == s;
    }
  }
}
