/** The profiler: a bounded event buffer that a flush rewrites in place and a trace is
    written from. */
module Profiler {
  import opened Wrappers
  import opened Json
  import opened TraceText
  import opened Spans
  import opened TraceBody
  import opened TraceMeaning
  import opened TraceWriter

  lemma {:induction false} Append(head: string, body: string, sep: string, text: string)
    ensures head + (body + sep + text) == head + body + sep + text
    ensures head + (body + sep) == head + body + sep
  {
  }

  lemma {:induction false} OneMore(events: seq<Event>, i: nat)
    requires i < |events|
    ensures events[..i + 1] == events[..i] + [events[i]]
  {
  }

  lemma {:induction false} Whole(events: seq<Event>)
    ensures events[..|events|] == events
  {
  }

  lemma {:induction false} NextSeparator(out: string, text: string, before: seq<Event>)
    requires out == HEAD + Body(before) && text == if First(before) then out else out + [',']
    ensures text == HEAD + Body(before) + if First(before) then [] else [',']
  {
  }

  /** One turn of the loop, on the text written so far. */
  lemma {:induction false} NextBody(out: string, text: string, before: seq<Event>, ev: Event)
    requires out == HEAD + Body(before) && text == if First(before) then out else out + [',']
    ensures (if ev.Pending? then text else text + RenderObject(ObjectOf(ev))) == HEAD + Body(before + [ev])
  {
    NextSeparator(out, text, before);
    if ev.Pending? {
      PendingAppends(before, ev);
      Append(HEAD, Body(before), if First(before) then [] else [','], []);
    } else {
      ObjectAppends(before, ev);
      Append(HEAD, Body(before), if First(before) then [] else [','], RenderObject(ObjectOf(ev)));
    }
  }

  class Profiler {
    var enabled: bool
    var capacity: nat
    var dropped: nat
    var events: seq<Event>
    ghost var pushed: nat     // events recorded since the last clear

    /** The resolved spans tile the GPU track, and every event recorded since the last clear is
        in the buffer or counted as dropped. */
    ghost predicate Valid()
      reads this
    {
      Tiled(events) && (forall i :: 0 <= i < |events| ==> Ordered(events[i])) && |events| + dropped == pushed
    }

    constructor ()
      ensures Valid() && !enabled && events == [] && dropped == 0 && capacity == 65536
    {
      enabled, capacity, dropped, events, pushed := false, 65536, 0, [], 0;
    }

    method Enable()
      requires Valid()
      modifies `enabled
      ensures Valid() && enabled
    {
      enabled := true;
    }

    method Disable()
      requires Valid()
      modifies `enabled
      ensures Valid() && !enabled
    {
      enabled := false;
    }

    method SetCapacity(n: nat)
      requires Valid()
      modifies `capacity
      ensures Valid() && capacity == n
    {
      capacity := n;
    }

    /** `clear`: nothing buffered, nothing dropped. */
    method Clear()
      requires Valid()
      modifies `events, `dropped, `pushed
      ensures Valid() && events == [] && dropped == 0 && pushed == 0
    {
      events, dropped, pushed := [], 0, 0;
    }

    /** The event has gone to the end of the buffer or, when that was full, was dropped. */
    twostate predicate Pushed(ev: Event)
      reads this
    {
      && pushed == old(pushed) + 1
      && if |old(events)| < old(capacity) then events == old(events) + [ev] && dropped == old(dropped)
         else events == old(events) && dropped == old(dropped) + 1
    }

    /** `push`: the buffer never grows past its capacity. */
    method Push(ev: Event)
      requires Valid() && !ev.Gpu? && Ordered(ev)
      modifies `events, `dropped, `pushed
      ensures Valid() && Pushed(ev)
    {
      pushed := pushed + 1;
      if |events| >= capacity {
        dropped := dropped + 1;
        return;
      }
      PushKeepsTiles(events, ev);
      events := events + [ev];
    }

    /** `mark`. */
    method MarkNow(name: string, at: nat)
      requires Valid()
      modifies `events, `dropped, `pushed
      ensures Valid()
      ensures !enabled ==> events == old(events) && dropped == old(dropped) && pushed == old(pushed)
      ensures enabled ==> Pushed(Mark(name, at))
    {
      if enabled {
        Push(Mark(name, at));
      }
    }

    /** A GPU span's drop: `stop` is its stop event, if one could be made and recorded. */
    method EndGpuSpan(name: string, begun: nat, stop: Option<nat>)
      requires Valid()
      modifies `events, `dropped, `pushed
      ensures Valid()
      ensures stop.None? ==> events == old(events) && dropped == old(dropped) && pushed == old(pushed)
      ensures stop.Some? ==> Pushed(Pending(name, begun, stop.value))
    {
      if stop.Some? {
        Push(Pending(name, begun, stop.value));
      }
    }

    /** The first pass: every pending span whose time is known becomes a span at zero. */
    method ResolvePending(elapsed: Elapsed)
      modifies `events
      ensures events == ResolvedAll(old(events), elapsed)
    {
      var i := 0;
      while i < |events|
        invariant i <= |events| == |old(events)|
        invariant forall k :: 0 <= k < i ==> events[k] == Resolved(old(events)[k], elapsed)
        invariant forall k :: i <= k < |events| ==> events[k] == old(events)[k]
      {
        var slot := events[i];
        if slot.Pending? {
          var us := elapsed(slot.begun, slot.stopped);
          if us.Some? {
            events := events[i := Gpu(slot.name, 0, us.value)];
          }
        }
        i := i + 1;
      }
    }

    /** One span moves up to where the earlier ones end. */
    method StitchOne(i: nat, cursor: nat) returns (next: nat)
      requires i < |events| && Ordered(events[i])
      modifies `events
      ensures events == old(events)[i := MovedTo(old(events)[i], cursor)]
      ensures next == cursor + Length(old(events)[i])
    {
      next := cursor;
      var slot := events[i];
      if slot.Gpu? {
        var dur := slot.to - slot.from;
        events := events[i := Gpu(slot.name, cursor, cursor + dur)];
        next := cursor + dur;
      }
    }

    /** The second pass: lay the spans end to end. */
    method Stitch()
      requires forall i :: 0 <= i < |events| ==> Ordered(events[i])
      modifies `events
      ensures events == Stitched(old(events))
    {
      var cursor := 0;
      var i := 0;
      while i < |events|
        invariant i <= |events| == |old(events)|
        invariant cursor == Busy(old(events)[..i])
        invariant forall k :: 0 <= k < i ==> events[k] == MovedTo(old(events)[k], Busy(old(events)[..k]))
        invariant forall k :: i <= k < |events| ==> events[k] == old(events)[k]
      {
        BusyNext(old(events), i);
        cursor := StitchOne(i, cursor);
        i := i + 1;
      }
    }

    /** `flush_gpu`: nothing when off; otherwise the two passes. */
    method FlushGpu(elapsed: Elapsed)
      requires Valid()
      modifies `events
      ensures Valid()
      ensures events == if enabled then Flushed(old(events), elapsed) else old(events)
    {
      if !enabled {
        return;
      }
      ResolvePending(elapsed);
      Stitch();
      FlushTiles(old(events), elapsed, events);
    }

    /** One event of the trace; a pending one writes nothing. */
    method WriteEvent(out: string, ev: Event) returns (r: string)
      requires Ordered(ev)
      ensures r == if ev.Pending? then out else out + RenderObject(ObjectOf(ev))
    {
      match ev
      case Cpu(_, _, _, _) => r := WriteCpu(out, ev);
      case Gpu(_, _, _) => r := WriteGpu(out, ev);
      case Mark(_, _) => r := WriteMark(out, ev);
      case Pending(_, _, _) => r := out;
    }

    /** One turn of the loop: the separator goes before every event unless the flag says it is
        the first, and a pending event sets the flag again. */
    method WriteNext(out: string, first: bool, ev: Event, ghost before: seq<Event>) returns (r: string, isFirst: bool)
      requires Ordered(ev) && out == HEAD + Body(before) && first == First(before)
      ensures r == HEAD + Body(before + [ev]) && isFirst == First(before + [ev])
    {
      r := out;
      if !first {
        r := r + [','];
      }
      ghost var text := r;
      r := WriteEvent(r, ev);
      isFirst := ev.Pending?;
      NextBody(out, text, before, ev);
    }

    /** `chrome_trace`: a JSON document from which a reader learns each event that is not pending,
        in order, unless the buffer ends pending after something was written. */
    method ChromeTrace() returns (out: string)
      requires Valid()
      ensures out == Document(Body(events))
      ensures ReadDocument(out).None? <==> EndsOpen(events)
      ensures ReadDocument(out).Some? ==> Recovered(ReadDocument(out).value)
    {
      out := "{\"traceEvents\":[";
      var first := true;
      var i := 0;
      assert Body(events[..0]) == [];
      while i < |events|
        invariant i <= |events|
        invariant first == First(events[..i])
        invariant out == HEAD + Body(events[..i])
      {
        out, first := WriteNext(out, first, events[i], events[..i]);
        OneMore(events, i);
        i := i + 1;
      }
      Whole(events);
      out := out + "]}";
      TraceTells(events, out);
    }

    /** One object per event that is not pending, in order, that says what it was. */
    predicate Recovered(os: seq<Object>)
      reads this
    {
      |os| == |Shown(events)| && forall i :: 0 <= i < |os| ==> Tells(os[i], Shown(events)[i])
    }
  }
}
