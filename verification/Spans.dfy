/** GPU spans on the profiler's track: what a flush makes of the event buffer. */
module Spans {
  import opened Wrappers

  /** Times of `Cpu` and `Mark` are in nanoseconds, of `Gpu` in microseconds; `start` and `stop`
      of a pending span are its two timing events. */
  datatype Event =
    | Cpu(name: string, start: nat, end: nat, tid: nat)
    | Pending(name: string, begun: nat, stopped: nat)
    | Gpu(name: string, from: nat, to: nat)
    | Mark(name: string, at: nat)

  /** Microseconds between two timing events, or a failure. */
  type Elapsed = (nat, nat) -> Option<nat>

  predicate Resolves(ev: Event, elapsed: Elapsed) {
    ev.Pending? && elapsed(ev.begun, ev.stopped).Some?
  }

  function Resolved(ev: Event, elapsed: Elapsed): Event {
    if Resolves(ev, elapsed) then Gpu(ev.name, 0, elapsed(ev.begun, ev.stopped).value) else ev
  }

  function Length(ev: Event): nat { if ev.Gpu? && ev.from <= ev.to then ev.to - ev.from else 0 }

  /** Total time of the resolved spans. */
  function Busy(events: seq<Event>): nat
    decreases |events|
  {
    if events == [] then 0 else Busy(events[..|events| - 1]) + Length(events[|events| - 1])
  }

  /** The event with its span moved so that it starts at `at`. */
  function MovedTo(ev: Event, at: nat): Event {
    if ev.Gpu? then Gpu(ev.name, at, at + Length(ev)) else ev
  }

  function ResolvedAll(events: seq<Event>, elapsed: Elapsed): (r: seq<Event>)
    ensures |r| == |events| && forall i :: 0 <= i < |r| ==> r[i] == Resolved(events[i], elapsed)
  {
    seq(|events|, i requires 0 <= i < |events| => Resolved(events[i], elapsed))
  }

  function Stitched(events: seq<Event>): (r: seq<Event>)
    ensures |r| == |events| && forall i :: 0 <= i < |r| ==> r[i] == MovedTo(events[i], Busy(events[..i]))
  {
    seq(|events|, i requires 0 <= i < |events| => MovedTo(events[i], Busy(events[..i])))
  }

  function Flushed(events: seq<Event>, elapsed: Elapsed): seq<Event> {
    Stitched(ResolvedAll(events, elapsed))
  }

  /** Each resolved span starts where the resolved spans before it end. */
  ghost predicate Tiled(events: seq<Event>) {
    forall i :: 0 <= i < |events| && events[i].Gpu? ==>
      events[i].from == Busy(events[..i]) && events[i].from <= events[i].to
  }

  lemma {:induction false} BusySnoc(events: seq<Event>, ev: Event)
    ensures Busy(events + [ev]) == Busy(events) + Length(ev)
  {
    assert (events + [ev])[..|events|] == events;
  }

  lemma {:induction false} BusyNext(events: seq<Event>, i: nat)
    requires i < |events|
    ensures Busy(events[..i + 1]) == Busy(events[..i]) + Length(events[i])
  {
    assert events[..i + 1] == events[..i] + [events[i]];
    BusySnoc(events[..i], events[i]);
  }

  lemma {:induction false} BusyMono(events: seq<Event>, i: nat, j: nat)
    requires i <= j <= |events|
    ensures Busy(events[..i]) <= Busy(events[..j])
    decreases j - i
  {
    if i < j {
      BusyNext(events, i);
      BusyMono(events, i + 1, j);
    }
  }

  /** Moving spans changes no length. */
  lemma {:induction false} SameBusy(a: seq<Event>, b: seq<Event>, i: nat)
    requires |a| == |b| && i <= |a| && forall k :: 0 <= k < i ==> Length(a[k]) == Length(b[k])
    ensures Busy(a[..i]) == Busy(b[..i])
  {
    if i > 0 {
      SameBusy(a, b, i - 1);
      BusyNext(a, i - 1);
      BusyNext(b, i - 1);
    }
  }

  // ---- tiling ----

  predicate Covers(ev: Event, x: nat) { ev.Gpu? && ev.from <= x < ev.to }

  /** Tiled spans are in buffer order and do not overlap. */
  lemma {:induction false} TilesApart(events: seq<Event>, i: nat, j: nat)
    requires Tiled(events) && i < j < |events| && events[i].Gpu? && events[j].Gpu?
    ensures events[i].to <= events[j].from
  {
    BusyNext(events, i);
    BusyMono(events, i + 1, j);
  }

  /** And none reaches beyond the total. */
  lemma {:induction false} TilesEnd(events: seq<Event>, i: nat)
    requires Tiled(events) && i < |events| && events[i].Gpu?
    ensures events[i].to <= Busy(events)
  {
    BusyNext(events, i);
    BusyMono(events, i + 1, |events|);
    assert events[..|events|] == events;
  }

  /** And they leave no gap: every instant of [0, total) is in exactly one span. */
  lemma {:induction false} TilesCover(events: seq<Event>, x: nat, n: nat) returns (i: nat)
    requires Tiled(events) && n <= |events| && x < Busy(events[..n])
    ensures i < n && Covers(events[i], x)
    ensures forall j :: 0 <= j < |events| && Covers(events[j], x) ==> j == i
  {
    BusyNext(events, n - 1);
    if x < Busy(events[..n - 1]) {
      i := TilesCover(events, x, n - 1);
    } else {
      i := n - 1;
      forall j | 0 <= j < |events| && Covers(events[j], x) ensures j == i {
        if j < i { TilesApart(events, j, i); } else if i < j { TilesApart(events, i, j); }
      }
    }
  }

  // ---- what a flush does ----

  /** The events of a flush, one by one: nothing but GPU spans changes, names stay, a span keeps
      its length, a resolved one gets the measured length. */
  lemma {:induction false} FlushEach(events: seq<Event>, elapsed: Elapsed, i: nat)
    requires i < |events|
    ensures |Flushed(events, elapsed)| == |events|
    ensures var was, now := events[i], Flushed(events, elapsed)[i];
            && (!was.Gpu? && !Resolves(was, elapsed) ==> now == was)
            && (was.Gpu? ==> now.Gpu? && now.name == was.name && Length(now) == Length(was))
            && (Resolves(was, elapsed) ==>
                now.Gpu? && now.name == was.name && Some(Length(now)) == elapsed(was.begun, was.stopped))
  {
  }

  lemma {:induction false} StitchedTiled(events: seq<Event>)
    ensures Tiled(Stitched(events))
  {
    var r := Stitched(events);
    forall i | 0 <= i < |r| && r[i].Gpu? ensures r[i].from == Busy(r[..i]) && r[i].from <= r[i].to {
      SameBusy(events, r, i);
    }
  }

  /** After a flush the resolved spans tile the track. */
  lemma {:induction false} FlushTiles(events: seq<Event>, elapsed: Elapsed, now: seq<Event>)
    requires now == Flushed(events, elapsed)
    ensures Tiled(now)
  {
    StitchedTiled(ResolvedAll(events, elapsed));
  }

  /** Time that newly resolved spans add. */
  function Gained(events: seq<Event>, elapsed: Elapsed): nat
    decreases |events|
  {
    if events == [] then 0
    else
      Gained(events[..|events| - 1], elapsed)
      + Length(Resolved(events[|events| - 1], elapsed)) - Length(events[|events| - 1])
  }

  lemma {:induction false} BusyResolved(events: seq<Event>, elapsed: Elapsed, i: nat)
    requires i <= |events|
    ensures Busy(ResolvedAll(events, elapsed)[..i]) == Busy(events[..i]) + Gained(events[..i], elapsed)
  {
    if i > 0 {
      BusyResolved(events, elapsed, i - 1);
      BusyNext(events, i - 1);
      BusyNext(ResolvedAll(events, elapsed), i - 1);
      assert events[..i][..i - 1] == events[..i - 1];
    }
  }

  /** A span already placed moves by exactly the time of the pending spans before it that
      resolve now. */
  lemma {:induction false} FlushMoves(events: seq<Event>, elapsed: Elapsed, i: nat)
    requires Tiled(events) && i < |events| && events[i].Gpu?
    ensures var shift := Gained(events[..i], elapsed);
            Flushed(events, elapsed)[i] == Gpu(events[i].name, events[i].from + shift, events[i].to + shift)
  {
    BusyResolved(events, elapsed, i);
  }

  lemma {:induction false} NothingGained(events: seq<Event>, elapsed: Elapsed)
    requires forall k :: 0 <= k < |events| ==> !Resolves(events[k], elapsed)
    ensures Gained(events, elapsed) == 0
    decreases |events|
  {
    if events != [] {
      var rest := events[..|events| - 1];
      assert forall k :: 0 <= k < |rest| ==> rest[k] == events[k];
      NothingGained(rest, elapsed);
    }
  }

  /** So it stays where it is when no pending span before it resolves. */
  lemma {:induction false} FlushStays(events: seq<Event>, elapsed: Elapsed, i: nat)
    requires Tiled(events) && i < |events| && events[i].Gpu?
    requires forall k :: 0 <= k < i ==> !Resolves(events[k], elapsed)
    ensures Flushed(events, elapsed)[i] == events[i]
  {
    var before := events[..i];
    assert forall k :: 0 <= k < |before| ==> before[k] == events[k];
    NothingGained(before, elapsed);
    FlushMoves(events, elapsed, i);
  }

  /** A flush that resolves nothing new changes nothing. */
  lemma {:induction false} FlushNothingNew(events: seq<Event>, elapsed: Elapsed)
    requires Tiled(events) && forall k :: 0 <= k < |events| ==> !Resolves(events[k], elapsed)
    ensures Flushed(events, elapsed) == events
  {
    forall i | 0 <= i < |events| ensures Flushed(events, elapsed)[i] == events[i] {
      if events[i].Gpu? { FlushStays(events, elapsed, i); } else { FlushEach(events, elapsed, i); }
    }
  }

  /** Flushing twice with the same measurements is flushing once. */
  lemma {:induction false} FlushTwice(events: seq<Event>, elapsed: Elapsed)
    ensures Flushed(Flushed(events, elapsed), elapsed) == Flushed(events, elapsed)
  {
    var once := Flushed(events, elapsed);
    FlushTiles(events, elapsed, once);
    forall k | 0 <= k < |once| ensures !Resolves(once[k], elapsed) {
      FlushEach(events, elapsed, k);
    }
    FlushNothingNew(once, elapsed);
  }

  /** Recording an event places no span. */
  lemma {:induction false} PushKeepsTiles(events: seq<Event>, ev: Event)
    requires Tiled(events) && !ev.Gpu?
    ensures Tiled(events + [ev])
  {
    var u := events + [ev];
    forall i | 0 <= i < |u| && u[i].Gpu? ensures u[i].from == Busy(u[..i]) && u[i].from <= u[i].to {
      assert u[..i] == events[..i];
    }
  }
}
