/** The three line formats of the trace writer. */
module TraceWriter {
  import opened Wrappers
  import opened Json
  import opened TraceText
  import opened Spans
  import opened TraceBody
  import opened TraceMeaning

  lemma {:induction false} Assoc(a: string, b: string, c: string)
    ensures a + (b + c) == a + b + c
  {
  }

  /** Pulling a list of pieces out of its parentheses. */
  lemma {:induction false} Assoc4(x: string, a: string, b: string, c: string, d: string)
    ensures x + (a + b + c + d) == x + a + b + c + d
  {
  }

  /** `,` followed by a field whose text starts with `key`. */
  lemma {:induction false} NextField(text: string, key: string, value: string)
    ensures text + ([','] + key) + value == text + [','] + (key + value)
  {
  }

  /** From the name on: seven fields as the format strings lay them out. */
  lemma {:induction false} Layout(open: string, name: string, pid: string, tid: string, ts: string, last: string,
               json: string, id: string, at: string, end: string)
    ensures open + name + json + ([','] + pid + [','] + tid) + id + ([','] + ts) + at + ([','] + last) + end
            == open + (name + json) + [','] + pid + [','] + (tid + id) + [','] + (ts + at) + [','] + (last + end)
  {
    Assoc(open, name, json);
    var x := open + (name + json);
    Assoc4(x, [','], pid, [','], tid);
    Assoc(x + [','] + pid + [','], tid, id);
    NextField(x + [','] + pid + [','] + (tid + id), ts, at);
    NextField(x + [','] + pid + [','] + (tid + id) + [','] + (ts + at), last, end);
  }

  /** The fields of a line, given the texts of its first two and of its last. */
  function Line(ph: string, cat: string, name: string, pid: nat, tid: nat, ts: nat, last: Field): Object {
    [Field("ph", Text(ph)), Field("cat", Text(cat)), Field("name", Text(name)), Field("pid", Number(pid)),
     Field("tid", Number(tid)), Field("ts", Number(ts)), last]
  }

  lemma {:induction false} PlainKeys()
    ensures PlainName("ph") && PlainName("cat") && PlainName("name") && PlainName("pid")
    ensures PlainName("tid") && PlainName("ts") && PlainName("dur") && PlainName("s")
  {
  }

  lemma {:induction false} LineFields(ph: string, cat: string, name: string, pid: nat, tid: nat, ts: nat, last: Field)
    ensures RenderObject(Line(ph, cat, name, pid, tid, ts, last)) ==
            ['{'] + TextField("ph", ph) + [','] + TextField("cat", cat) + [','] + TextField("name", name)
            + [','] + NumberField("pid", pid) + [','] + NumberField("tid", tid) + [','] + NumberField("ts", ts)
            + [','] + RenderField(last) + ['}']
  {
    PlainKeys();
    FieldText("ph", Text(ph));
    FieldText("cat", Text(cat));
    FieldText("name", Text(name));
    FieldText("pid", Number(pid));
    FieldText("tid", Number(tid));
    FieldText("ts", Number(ts));
    var a, b, c, d := Field("ph", Text(ph)), Field("cat", Text(cat)), Field("name", Text(name)),
      Field("pid", Number(pid));
    Four(a, b, c, d);
    Seven([a, b, c, d], Field("tid", Number(tid)), Field("ts", Number(ts)), last);
    assert [a, b, c, d] + [Field("tid", Number(tid)), Field("ts", Number(ts)), last] ==
      Line(ph, cat, name, pid, tid, ts, last);
  }

  lemma {:induction false} PlainText(name: string, text: string)
    requires PlainName(text)
    ensures TextField(name, text) == ['"'] + name + ['"', ':', '"'] + text + ['"']
  {
    EncodePlain(text);
    assert ['"'] + name + ['"', ':'] + (['"'] + text + ['"']) == ['"'] + name + ['"', ':', '"'] + text + ['"'];
  }

  function Head(ph: string, cat: string): string {
    (['{'] + TextField("ph", ph) + [','] + TextField("cat", cat) + [',']) + "\"name\":"
  }

  lemma {:induction false} HeadText(ph: string, cat: string)
    requires PlainName(ph) && PlainName(cat)
    ensures Head(ph, cat) == "{\"ph\":\"" + ph + "\",\"cat\":\"" + cat + "\",\"name\":"
  {
    PlainText("ph", ph);
    PlainText("cat", cat);
    HeadShape(ph, cat);
  }

  lemma {:induction false} HeadShape(ph: string, cat: string)
    ensures (['{'] + (['"'] + "ph" + ['"', ':', '"'] + ph + ['"']) + [',']
            + (['"'] + "cat" + ['"', ':', '"'] + cat + ['"']) + [',']) + "\"name\":"
            == "{\"ph\":\"" + ph + "\",\"cat\":\"" + cat + "\",\"name\":"
  {
    var open := ['{'] + (['"'] + "ph" + ['"', ':', '"'] + ph + ['"']) + [','];
    assert open == "{\"ph\":\"" + ph + "\",";
    var second := open + (['"'] + "cat" + ['"', ':', '"'] + cat + ['"']);
    assert second == "{\"ph\":\"" + ph + "\",\"cat\":\"" + cat + "\"";
  }

  /** The line's text as the format strings lay it out. */
  lemma {:induction false} LineText(ph: string, cat: string, name: string, pid: nat, tid: nat, ts: nat, last: Field,
                                    key: string, end: string)
    requires RenderField(last) == key + end
    ensures RenderObject(Line(ph, cat, name, pid, tid, ts, last)) ==
            Head(ph, cat) + Encode(name)
            + ([','] + NumberField("pid", pid) + [','] + "\"tid\":") + Decimal(tid) + ([','] + "\"ts\":") + Decimal(ts)
            + ([','] + key) + end + ['}']
  {
    LineFields(ph, cat, name, pid, tid, ts, last);
    Layout(['{'] + TextField("ph", ph) + [','] + TextField("cat", cat) + [','], "\"name\":", NumberField("pid", pid),
           "\"tid\":", "\"ts\":", key, Encode(name), Decimal(tid), Decimal(ts), end);
    assert ['"'] + "name" + ['"', ':'] == "\"name\":";
    assert ['"'] + "tid" + ['"', ':'] == "\"tid\":";
    assert ['"'] + "ts" + ['"', ':'] == "\"ts\":";
  }

  lemma {:induction false} CpuHead()
    ensures Head("X", "cpu") == "{\"ph\":\"X\",\"cat\":\"cpu\",\"name\":"
  {
    HeadText("X", "cpu");
  }

  lemma {:induction false} GpuHead()
    ensures Head("X", "gpu") == "{\"ph\":\"X\",\"cat\":\"gpu\",\"name\":"
  {
    HeadText("X", "gpu");
  }

  lemma {:induction false} MarkOpen()
    ensures "{\"ph\":\"" + "i" + "\",\"cat\":\"" == "{\"ph\":\"i\",\"cat\":\""
  {
  }

  lemma {:induction false} MarkName()
    ensures "mark" + "\",\"name\":" == "mark\",\"name\":"
    ensures "{\"ph\":\"i\",\"cat\":\"" + "mark\",\"name\":" == "{\"ph\":\"i\",\"cat\":\"mark\",\"name\":"
  {
  }

  lemma {:induction false} MarkHead()
    ensures Head("i", "mark") == "{\"ph\":\"i\",\"cat\":\"mark\",\"name\":"
  {
    HeadText("i", "mark");
    MarkOpen();
    MarkName();
    Regroup("{\"ph\":\"i\",\"cat\":\"", "mark", "\",\"name\":", []);
  }

  lemma {:induction false} Middles()
    ensures [','] + NumberField("pid", 0) + [','] + "\"tid\":" == ",\"pid\":0,\"tid\":"
    ensures [','] + NumberField("pid", 1) + [','] + "\"tid\":" == ",\"pid\":1,\"tid\":"
    ensures [','] + "\"ts\":" == ",\"ts\":"
  {
  }

  /** What was appended is one object, and it says what the event was. */
  predicate Written(out: string, r: string, ev: Event) {
    && out <= r
    && match ReadObject(r[|out|..])
       case Some((o, rest)) => rest == [] && Tells(o, ev)
       case None => false
  }

  lemma {:induction false} WrittenTells(out: string, r: string, ev: Event)
    requires !ev.Pending? && Ordered(ev) && r == out + RenderObject(ObjectOf(ev))
    ensures Written(out, r, ev)
  {
    var text := RenderObject(ObjectOf(ev));
    assert r[|out|..] == text && text + [] == text;
    ReadObjectBack(ObjectOf(ev), []);
    ObjectTells(ev);
  }

  /** `{"ph":"X","cat":"cpu",...}`. */
  method WriteCpu(out: string, ev: Event) returns (r: string)
    requires ev.Cpu? && ev.start <= ev.end
    ensures r == out + RenderObject(ObjectOf(ev)) && Written(out, r, ev)
  {
    var dur := (ev.end - ev.start) / 1000;
    var ts := ev.start / 1000;
    var name := JsonStr(ev.name);
    r := out + ("{\"ph\":\"X\",\"cat\":\"cpu\",\"name\":" + name + ",\"pid\":0,\"tid\":" + Decimal(ev.tid)
                + ",\"ts\":" + Decimal(ts) + ",\"dur\":" + Decimal(dur) + "}");
    CpuText(ev.name, ev.tid, ts, dur);
    WrittenTells(out, r, ev);
  }

  lemma {:induction false} CpuText(name: string, tid: nat, ts: nat, dur: nat)
    ensures RenderObject(Line("X", "cpu", name, 0, tid, ts, Field("dur", Number(dur)))) ==
            "{\"ph\":\"X\",\"cat\":\"cpu\",\"name\":" + Encode(name) + ",\"pid\":0,\"tid\":" + Decimal(tid)
            + ",\"ts\":" + Decimal(ts) + ",\"dur\":" + Decimal(dur) + "}"
  {
    DurText(dur);
    LineText("X", "cpu", name, 0, tid, ts, Field("dur", Number(dur)), "\"dur\":", Decimal(dur));
    CpuHead();
    Middles();
  }

  lemma {:induction false} DurText(dur: nat)
    ensures RenderField(Field("dur", Number(dur))) == "\"dur\":" + Decimal(dur)
    ensures [','] + "\"dur\":" == ",\"dur\":"
  {
    PlainKeys();
    FieldText("dur", Number(dur));
  }

  /** `{"ph":"X","cat":"gpu",...}`. */
  method WriteGpu(out: string, ev: Event) returns (r: string)
    requires ev.Gpu? && ev.from <= ev.to
    ensures r == out + RenderObject(ObjectOf(ev)) && Written(out, r, ev)
  {
    var dur := ev.to - ev.from;
    var name := JsonStr(ev.name);
    r := out + ("{\"ph\":\"X\",\"cat\":\"gpu\",\"name\":" + name + ",\"pid\":1,\"tid\":0,\"ts\":" + Decimal(ev.from)
                + (",\"dur\":" + Decimal(dur) + "}"));
    GpuText(ev.name, ev.from, dur);
    WrittenTells(out, r, ev);
  }

  /** A line whose thread id the format string spells out. */
  lemma {:induction false} LineZero(ph: string, cat: string, name: string, pid: nat, ts: nat, last: Field,
                                    both: string, tail: string)
    requires both == ([','] + NumberField("pid", pid) + [','] + "\"tid\":") + Decimal(0) + ([','] + "\"ts\":")
    requires tail == [','] + RenderField(last) + ['}']
    ensures RenderObject(Line(ph, cat, name, pid, 0, ts, last)) ==
            Head(ph, cat) + Encode(name) + both + Decimal(ts) + tail
  {
    LineText(ph, cat, name, pid, 0, ts, last, RenderField(last), []);
    ZeroTid(Head(ph, cat) + Encode(name), [','] + NumberField("pid", pid) + [','] + "\"tid\":", Decimal(0),
      [','] + "\"ts\":");
    Closing(Head(ph, cat) + Encode(name) + both + Decimal(ts), [','], RenderField(last));
  }

  lemma {:induction false} ZeroTid(text: string, id: string, zero: string, ts: string)
    ensures text + id + zero + ts == text + (id + zero + ts)
  {
  }

  lemma {:induction false} Closing(text: string, comma: string, last: string)
    ensures text + (comma + last) + [] + ['}'] == text + (comma + last + ['}'])
  {
  }

  lemma {:induction false} BothText(pid: nat)
    requires pid < 10
    ensures ([','] + NumberField("pid", pid) + [','] + "\"tid\":") + Decimal(0) + ([','] + "\"ts\":")
            == ",\"pid\":" + [Digit(pid)] + ",\"tid\":0,\"ts\":"
  {
    assert [','] + (['"'] + "pid" + ['"', ':'] + [Digit(pid)]) == ",\"pid\":" + [Digit(pid)];
    assert [','] + "\"tid\":" + Decimal(0) + ([','] + "\"ts\":") == ",\"tid\":0,\"ts\":";
    Assoc5(",\"pid\":" + [Digit(pid)], [','], "\"tid\":", Decimal(0), [','] + "\"ts\":");
  }

  lemma {:induction false} Assoc5(x: string, a: string, b: string, c: string, d: string)
    ensures x + a + b + c + d == x + (a + b + c + d)
  {
  }

  lemma {:induction false} GpuIds()
    ensures ([','] + NumberField("pid", 1) + [','] + "\"tid\":") + Decimal(0) + ([','] + "\"ts\":") ==
            ",\"pid\":1,\"tid\":0,\"ts\":"
  {
    BothText(1);
  }

  lemma {:induction false} MarkIds()
    ensures ([','] + NumberField("pid", 0) + [','] + "\"tid\":") + Decimal(0) + ([','] + "\"ts\":") ==
            ",\"pid\":0,\"tid\":0,\"ts\":"
  {
    BothText(0);
  }

  lemma {:induction false} GpuText(name: string, from: nat, dur: nat)
    ensures RenderObject(Line("X", "gpu", name, 1, 0, from, Field("dur", Number(dur)))) ==
            "{\"ph\":\"X\",\"cat\":\"gpu\",\"name\":" + Encode(name) + ",\"pid\":1,\"tid\":0,\"ts\":" + Decimal(from)
            + (",\"dur\":" + Decimal(dur) + "}")
  {
    GpuIds();
    DurTail(dur);
    LineZero("X", "gpu", name, 1, from, Field("dur", Number(dur)), ",\"pid\":1,\"tid\":0,\"ts\":",
      ",\"dur\":" + Decimal(dur) + "}");
    GpuHead();
  }

  lemma {:induction false} DurTail(dur: nat)
    ensures [','] + RenderField(Field("dur", Number(dur))) + ['}'] == ",\"dur\":" + Decimal(dur) + "}"
  {
    DurText(dur);
    Assoc([','], "\"dur\":", Decimal(dur));
  }

  lemma {:induction false} MarkText(name: string, at: nat)
    ensures RenderObject(Line("i", "mark", name, 0, 0, at, Field("s", Text("g")))) ==
            "{\"ph\":\"i\",\"cat\":\"mark\",\"name\":" + Encode(name) + ",\"pid\":0,\"tid\":0,\"ts\":" + Decimal(at)
              + ",\"s\":\"g\"}"
  {
    ScopeText();
    MarkIds();
    LineZero("i", "mark", name, 0, at, Field("s", Text("g")), ",\"pid\":0,\"tid\":0,\"ts\":", ",\"s\":\"g\"}");
    MarkHead();
  }

  lemma {:induction false} ScopeText()
    ensures [','] + RenderField(Field("s", Text("g"))) + ['}'] == ",\"s\":\"g\"}"
  {
    PlainKeys();
    FieldText("s", Text("g"));
    PlainText("s", "g");
  }

  /** `{"ph":"i","cat":"mark",...}`. */
  method WriteMark(out: string, ev: Event) returns (r: string)
    requires ev.Mark?
    ensures r == out + RenderObject(ObjectOf(ev)) && Written(out, r, ev)
  {
    var ts := ev.at / 1000;
    var name := JsonStr(ev.name);
    r := out + ("{\"ph\":\"i\",\"cat\":\"mark\",\"name\":" + name + ",\"pid\":0,\"tid\":0,\"ts\":" + Decimal(ts)
      + ",\"s\":\"g\"}");
    MarkText(ev.name, ts);
    WrittenTells(out, r, ev);
  }
}
