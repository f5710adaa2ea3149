/** The array body that the trace writer produces, and when it is a JSON document. */
module TraceBody {
  import opened Wrappers
  import opened Json
  import opened TraceText
  import opened Spans

  /** The trace object of an event. */
  function ObjectOf(ev: Event): Object
    requires !ev.Pending?
  {
    match ev
    case Cpu(name, start, end, tid) =>
      [Field("ph", Text("X")), Field("cat", Text("cpu")), Field("name", Text(name)), Field("pid", Number(0)),
       Field("tid", Number(tid)), Field("ts", Number(start / 1000)),
         Field("dur", Number((if start <= end then end - start else 0) / 1000))]
    case Gpu(name, from, to) =>
      [Field("ph", Text("X")), Field("cat", Text("gpu")), Field("name", Text(name)), Field("pid", Number(1)),
       Field("tid", Number(0)), Field("ts", Number(from)), Field("dur", Number(Length(ev)))]
    case Mark(name, at) =>
      [Field("ph", Text("i")), Field("cat", Text("mark")), Field("name", Text(name)), Field("pid", Number(0)),
       Field("tid", Number(0)), Field("ts", Number(at / 1000)), Field("s", Text("g"))]
  }

  /** The objects of the events that are not pending, in buffer order. */
  function ObjectsOf(events: seq<Event>): seq<Object>
    decreases |events|
  {
    if events == [] then []
    else
      var rest := ObjectsOf(events[..|events| - 1]);
      var ev := events[|events| - 1];
      if ev.Pending? then rest else rest + [ObjectOf(ev)]
  }

  /** Something was written and the last event is pending. */
  predicate EndsPending(events: seq<Event>) {
    ObjectsOf(events) != [] && events[|events| - 1].Pending?
  }

  /** The comma-join of the objects, and one comma too many when the buffer ends pending. */
  function Body(events: seq<Event>): string {
    RenderObjects(ObjectsOf(events)) + if EndsPending(events) then [','] else []
  }

  lemma {:induction false} ObjectsSnocOf(events: seq<Event>, ev: Event)
    ensures ObjectsOf(events + [ev]) == if ev.Pending? then ObjectsOf(events) else ObjectsOf(events) + [ObjectOf(ev)]
  {
    assert (events + [ev])[..|events|] == events;
  }

  /** The writer's `first` flag after `events`: nothing yet, or the last one was pending. */
  predicate First(events: seq<Event>) { events == [] || events[|events| - 1].Pending? }

  lemma {:induction false} NotFirst(events: seq<Event>)
    requires !First(events)
    ensures ObjectsOf(events) != []
  {
  }

  lemma {:induction false} PendingAppends(events: seq<Event>, ev: Event)
    requires ev.Pending?
    ensures Body(events + [ev]) == Body(events) + if First(events) then [] else [',']
  {
    ObjectsSnocOf(events, ev);
    if !First(events) { NotFirst(events); }
  }

  lemma {:induction false} ObjectAppends(events: seq<Event>, ev: Event)
    requires !ev.Pending?
    ensures Body(events + [ev]) == Body(events) + (if First(events) then [] else [',']) + RenderObject(ObjectOf(ev))
  {
    ObjectsSnocOf(events, ev);
    var os, o := ObjectsOf(events), ObjectOf(ev);
    assert Body(events + [ev]) == RenderObjects(os + [o]);
    if os == [] {
      if !First(events) { NotFirst(events); }
      assert os + [o] == [o];
    } else {
      ObjectsSnoc(os, o);
    }
  }

  /** The trace is a JSON document, and then it reads back as exactly the events that are not
      pending, if and only if the buffer does not end pending after something was written. */
  lemma {:induction false} TraceReadsBack(events: seq<Event>, text: string)
    requires text == Document(Body(events))
    ensures ReadDocument(text) == if EndsPending(events) then None else Some(ObjectsOf(events))
  {
    var os := ObjectsOf(events);
    if EndsPending(events) {
      TrailingCommaNoDocument(os);
    } else {
      assert Body(events) == RenderObjects(os);
      DocumentReadsBack(os, text);
    }
  }

  // ---- the text of one event ----

  function TextField(name: string, text: string): string { ['"'] + name + ['"', ':'] + Encode(text) }

  function NumberField(name: string, n: nat): string { ['"'] + name + ['"', ':'] + Decimal(n) }

  predicate PlainName(name: string) { forall k :: 0 <= k < |name| ==> Plain(name[k]) }

  lemma {:induction false} FieldText(name: string, v: Scalar)
    requires PlainName(name)
    ensures RenderField(Field(name, v)) ==
            if v.Text? then TextField(name, v.text) else NumberField(name, v.n)
  {
    EncodePlain(name);
  }

  lemma {:induction false} Grow(text: string, fs: Object, f: Field)
    requires fs != [] && text == ['{'] + RenderFields(fs)
    ensures text + [','] + RenderField(f) == ['{'] + RenderFields(fs + [f])
  {
    FieldsSnoc(fs, f);
    Regroup(['{'], RenderFields(fs), [','], RenderField(f));
  }

  /** The first four fields, joined. */
  lemma {:induction false} Four(a: Field, b: Field, c: Field, d: Field)
    ensures ['{'] + RenderField(a) + [','] + RenderField(b) + [','] + RenderField(c) + [','] + RenderField(d)
            == ['{'] + RenderFields([a, b, c, d])
  {
    var text := ['{'] + RenderField(a);
    Grow(text, [a], b);
    assert [a] + [b] == [a, b];
    Grow(text + [','] + RenderField(b), [a, b], c);
    assert [a, b] + [c] == [a, b, c];
    Grow(text + [','] + RenderField(b) + [','] + RenderField(c), [a, b, c], d);
    assert [a, b, c] + [d] == [a, b, c, d];
  }

  /** Three more. */
  lemma {:induction false} Seven(fs: Object, e: Field, f: Field, g: Field)
    requires fs != []
    ensures ['{'] + RenderFields(fs) + [','] + RenderField(e) + [','] + RenderField(f) + [','] + RenderField(g) + ['}']
            == RenderObject(fs + [e, f, g])
  {
    var text := ['{'] + RenderFields(fs);
    Grow(text, fs, e);
    Grow(text + [','] + RenderField(e), fs + [e], f);
    Grow(text + [','] + RenderField(e) + [','] + RenderField(f), fs + [e] + [f], g);
    assert fs + [e] + [f] + [g] == fs + [e, f, g];
  }
}
