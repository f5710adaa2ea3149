/** What a reader of the trace learns: the meaning of each object, said without the writer. */
module TraceMeaning {
  import opened Wrappers
  import opened Json
  import opened TraceText
  import opened Spans
  import opened TraceBody

  /** The events that a trace shows, in buffer order. */
  function Shown(events: seq<Event>): seq<Event>
    decreases |events|
  {
    if events == [] then []
    else
      var rest, ev := Shown(events[..|events| - 1]), events[|events| - 1];
      if ev.Pending? then rest else rest + [ev]
  }

  /** The value under a key. */
  function Get(o: Object, key: string): Option<Scalar> {
    if o == [] then None else if o[0].name == key then Some(o[0].value) else Get(o[1..], key)
  }

  predicate SaysText(o: Object, key: string, text: string) { Get(o, key) == Some(Text(text)) }

  predicate SaysNumber(o: Object, key: string, n: nat) { Get(o, key) == Some(Number(n)) }

  /** The microsecond in which a time in nanoseconds falls. */
  predicate SaysMicros(o: Object, key: string, ns: nat) {
    match Get(o, key)
    case Some(Number(us)) => us * 1000 <= ns < (us + 1) * 1000
    case _ => false
  }

  /** A complete event of the CPU track: its thread, when it started, how long it took. */
  predicate TellsCpu(o: Object, name: string, start: nat, end: nat, tid: nat) {
    && SaysText(o, "ph", "X") && SaysText(o, "cat", "cpu") && SaysText(o, "name", name)
    && SaysNumber(o, "pid", 0) && SaysNumber(o, "tid", tid)
    && SaysMicros(o, "ts", start) && start <= end && SaysMicros(o, "dur", end - start)
  }

  /** A complete event of the GPU track, which is a process of its own. */
  predicate TellsGpu(o: Object, name: string, from: nat, to: nat) {
    && SaysText(o, "ph", "X") && SaysText(o, "cat", "gpu") && SaysText(o, "name", name)
    && SaysNumber(o, "pid", 1) && SaysNumber(o, "tid", 0)
    && SaysNumber(o, "ts", from) && from <= to && SaysNumber(o, "dur", to - from)
  }

  /** An instant event of global scope on the CPU track. */
  predicate TellsMark(o: Object, name: string, at: nat) {
    && SaysText(o, "ph", "i") && SaysText(o, "cat", "mark") && SaysText(o, "name", name)
    && SaysNumber(o, "pid", 0) && SaysNumber(o, "tid", 0)
    && SaysMicros(o, "ts", at) && SaysText(o, "s", "g")
  }

  /** The object has seven keys and says of the event what a trace viewer needs. */
  predicate Tells(o: Object, ev: Event) {
    && |o| == 7
    && match ev
       case Cpu(name, start, end, tid) => TellsCpu(o, name, start, end, tid)
       case Gpu(name, from, to) => TellsGpu(o, name, from, to)
       case Mark(name, at) => TellsMark(o, name, at)
       case Pending(_, _, _) => false
  }

  /** CPU spans end after they begin: the clock is monotonic. */
  predicate Ordered(ev: Event) { (ev.Cpu? ==> ev.start <= ev.end) && (ev.Gpu? ==> ev.from <= ev.to) }

  lemma {:induction false} GetAt(o: Object, i: nat)
    requires i < |o| && forall j :: 0 <= j < i ==> o[j].name != o[i].name
    ensures Get(o, o[i].name) == Some(o[i].value)
  {
    if i > 0 { GetAt(o[1..], i - 1); }
  }

  /** The keys of an event's object are pairwise different. */
  lemma {:induction false} KeysDiffer(o: Object, last: string)
    requires |o| == 7 && (last == "dur" || last == "s")
    requires o[0].name == "ph" && o[1].name == "cat" && o[2].name == "name" && o[3].name == "pid"
    requires o[4].name == "tid" && o[5].name == "ts" && o[6].name == last
    ensures forall i, j :: 0 <= j < i < 7 ==> o[j].name != o[i].name
  {
    assert forall i :: 0 <= i < 7 ==> (|o[i].name| == 2 <==> i == 0 || i == 5) && (|o[i].name| == 4 <==> i == 2);
    assert o[0].name[0] != o[5].name[0];
    assert o[1].name[0] == 'c' && o[3].name[0] == 'p' && o[4].name[0] == 't' && (last == "dur" ==> o[6].name[0] == 'd');
  }

  lemma {:induction false} Round(ns: nat)
    ensures ns / 1000 * 1000 <= ns < (ns / 1000 + 1) * 1000
  {
  }

  /** The writer's object says all of it. */
  lemma {:induction false} ObjectTells(ev: Event)
    requires !ev.Pending? && Ordered(ev)
    ensures Tells(ObjectOf(ev), ev)
  {
    var o := ObjectOf(ev);
    KeysDiffer(o, if ev.Mark? then "s" else "dur");
    forall i | 0 <= i < 7 ensures Get(o, o[i].name) == Some(o[i].value) {
      GetAt(o, i);
    }
    if ev.Cpu? {
      Round(ev.start);
      Round(ev.end - ev.start);
    } else if ev.Mark? {
      Round(ev.at);
    }
  }

  lemma {:induction false} ObjectsTell(events: seq<Event>)
    requires forall i :: 0 <= i < |events| ==> Ordered(events[i])
    ensures |ObjectsOf(events)| == |Shown(events)|
    ensures forall i :: 0 <= i < |Shown(events)| ==> Tells(ObjectsOf(events)[i], Shown(events)[i])
    decreases |events|
  {
    if events != [] {
      var ev := events[|events| - 1];
      ObjectsTell(events[..|events| - 1]);
      if !ev.Pending? { ObjectTells(ev); }
    }
  }

  /** Something is shown, and the last event is pending. */
  predicate EndsOpen(events: seq<Event>) { Shown(events) != [] && events[|events| - 1].Pending? }

  /** The document a buffer is written to says of each shown event, in order, what it was; it is
      no document exactly when the buffer ends pending after something was shown. */
  lemma {:induction false} TraceTells(events: seq<Event>, text: string)
    requires text == Document(Body(events)) && forall i :: 0 <= i < |events| ==> Ordered(events[i])
    ensures ReadDocument(text).None? <==> EndsOpen(events)
    ensures ReadDocument(text).Some? ==>
              && |ReadDocument(text).value| == |Shown(events)|
              && forall i :: 0 <= i < |Shown(events)| ==> Tells(ReadDocument(text).value[i], Shown(events)[i])
  {
    TraceReadsBack(events, text);
    ObjectsTell(events);
  }
}
