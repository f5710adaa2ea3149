/** A CUDA stream with its pinned staging ring, as a step system.

    The host thread runs `copy_from_host_staged` one driver call at a time; the GPU
    pops the stream's FIFO queue between any two host steps and reads a pinned slot
    only at the moment it executes the copy out of it. A run is a sequence of labels,
    so "every schedule" is "every sequence of labels". */
module StageModel {
  import opened Wrappers
  import opened Memory

  const STAGE_CHUNK: nat := 0x20_0000
  const STAGE_SLOTS: nat := 4
  const STAGE_THRESHOLD: nat := 2 * STAGE_CHUNK

  /** One entry of the stream's queue. `Direct` carries its bytes, because a pageable
      asynchronous copy snapshots its source at the call; `Staged` names a pinned slot. */
  datatype Op =
    | Direct(dst: nat, data: seq<byte>)
    | Staged(dst: nat, slot: nat, n: nat)
    | Record(slot: nat)

  /** Where one iteration of the staging loop stands. */
  datatype Stage = Top | Fill | Queued

  /** The one staged copy that can hold the ring's lock. `from` is the source address and
      `src` the bytes found there when the call was made. */
  datatype Phase =
    | Idle
    | Busy(dst: nat, from: nat, src: seq<byte>, off: nat, at: Stage)

  /** `wanted` and `dirty` are the reference: `wanted` is the memory a plain memcpy would
      leave for every chunk the driver accepted, and `dirty` holds the addresses of chunks
      whose event record failed and that nothing has rewritten since. */
  datatype State = State(
    device: seq<byte>,
    user: seq<byte>,
    slots: seq<seq<byte>>,
    armed: seq<bool>,
    cursor: nat,
    queue: seq<Op>,
    phase: Phase,
    freed: bool,
    wanted: seq<byte>,
    dirty: set<nat>)

  datatype Label =
    | Gpu                                      // the device executes the head of the queue
    | Scribble(mem: seq<byte>)                 // the caller rewrites its own memory
    | Begin(dst: nat, from: nat, n: nat)       // copy_from_host_staged is called
    | Wait(ok: bool)                           // wait for the slot's event if the slot is armed
    | FillPart(lo: nat, hi: nat)               // some thread of wide_copy writes part of the chunk
    | Submit(ok: bool)                         // cuMemcpyHtoDAsync out of the slot
    | Mark(ok: bool)                           // cuEventRecord on the slot's event
    | Finish                                   // the loop ends, the call returns Ok
    | Async(dst: nat, from: nat, n: nat)       // an accepted copy below the staging threshold
    | Blocking(dst: nat, from: nat, n: nat)    // cuMemcpyHtoD, once nothing queued writes its range
    | Drop(ok: bool)                           // Stream::drop; `ok` is cuStreamSynchronize's result

  predicate OpOk(op: Op, size: nat) {
    match op
    case Direct(dst, data) => dst + |data| <= size
    case Staged(dst, slot, n) => slot < STAGE_SLOTS && n <= STAGE_CHUNK && dst + n <= size
    case Record(slot) => slot < STAGE_SLOTS
  }

  predicate QueueOk(q: seq<Op>, size: nat) {
    forall k :: 0 <= k < |q| ==> OpOk(q[k], size)
  }

  predicate SlotsOk(slots: seq<seq<byte>>) {
    |slots| == STAGE_SLOTS && forall i :: 0 <= i < |slots| ==> |slots[i]| == STAGE_CHUNK
  }

  predicate Covers(op: Op, a: nat) {
    match op
    case Direct(dst, data) => dst <= a < dst + |data|
    case Staged(dst, _, n) => dst <= a < dst + n
    case Record(_) => false
  }

  /** `op` writes into `[dst, dst + n)`. */
  predicate Overlaps(op: Op, dst: nat, n: nat) {
    match op
    case Direct(d, data) => !Disjoint(d, |data|, dst, n)
    case Staged(d, _, m) => !Disjoint(d, m, dst, n)
    case Record(_) => false
  }

  predicate Reads(op: Op, i: nat) {
    op.Staged? && op.slot == i
  }

  /** The byte `op` stores at an address it covers, given what the slots hold now. */
  function ByteAt(op: Op, slots: seq<seq<byte>>, size: nat, a: nat): byte
    requires OpOk(op, size) && SlotsOk(slots) && Covers(op, a)
  {
    match op
    case Direct(dst, data) => data[a - dst]
    case Staged(dst, slot, _) => slots[slot][a - dst]
  }

  /** The device executes one operation, reading the slot as it is at that moment. */
  function Execute(device: seq<byte>, slots: seq<seq<byte>>, op: Op): (r: seq<byte>)
    requires OpOk(op, |device|) && SlotsOk(slots)
    ensures |r| == |device|
  {
    match op
    case Direct(dst, data) => Splice(device, dst, data)
    case Staged(dst, slot, n) => Splice(device, dst, slots[slot][..n])
    case Record(_) => device
  }

  /** Device memory once everything queued has run, if the slots stay as they are. */
  function Drain(device: seq<byte>, slots: seq<seq<byte>>, q: seq<Op>): (r: seq<byte>)
    requires QueueOk(q, |device|) && SlotsOk(slots)
    ensures |r| == |device|
    decreases |q|
  {
    if q == [] then device
    else Execute(Drain(device, slots, q[..|q| - 1]), slots, q[|q| - 1])
  }

  /** Index of the last queued operation that writes address `a`, or -1. */
  function LastWriter(q: seq<Op>, a: nat): (k: int)
    ensures -1 <= k < |q|
    ensures k >= 0 ==> Covers(q[k], a)
    ensures forall j :: k < j < |q| ==> !Covers(q[j], a)
    decreases |q|
  {
    if q == [] then -1
    else if Covers(q[|q| - 1], a) then |q| - 1
    else LastWriter(q[..|q| - 1], a)
  }

  // ---- the host loop ----

  function Cur(s: State): nat { s.cursor % STAGE_SLOTS }

  function ChunkLen(s: State): nat
    requires s.phase.Busy? && s.phase.off <= |s.phase.src|
  {
    Min(|s.phase.src| - s.phase.off, STAGE_CHUNK)
  }

  function Chunk(s: State): (c: seq<byte>)
    requires s.phase.Busy? && s.phase.off <= |s.phase.src|
    ensures |c| == ChunkLen(s)
  {
    s.phase.src[s.phase.off..s.phase.off + ChunkLen(s)]
  }

  predicate WellFormed(s: State) {
    && SlotsOk(s.slots)
    && |s.armed| == STAGE_SLOTS
    && QueueOk(s.queue, |s.device|)
    && |s.wanted| == |s.device|
    && (s.phase.Busy? ==>
          && s.phase.dst + |s.phase.src| <= |s.device|
          && s.phase.from + |s.phase.src| <= |s.user|
          && s.user[s.phase.from..s.phase.from + |s.phase.src|] == s.phase.src
          && s.phase.off <= |s.phase.src|
          && (s.phase.at != Top ==> s.phase.off < |s.phase.src|))
  }

  predicate Disjoint(a: nat, n: nat, b: nat, m: nat) {
    a + n <= b || b + m <= a
  }

  /** A write of `[dst, dst + n)` is in bounds, and does not touch the buffer a staged
      copy in progress has borrowed mutably. */
  predicate MayWrite(s: State, dst: nat, from: nat, n: nat) {
    && dst + n <= |s.device|
    && from + n <= |s.user|
    && (s.phase.Busy? ==> Disjoint(dst, n, s.phase.dst, |s.phase.src|))
  }

  /** When the host or the driver can take step `l`. A blocking driver call is enabled only
      once what it waits for has run; a failing one is enabled at any time. */
  predicate Enabled(s: State, l: Label)
    requires WellFormed(s)
  {
    match l
    case Gpu => s.queue != []
    case Scribble(mem) => s.phase.Idle? && |mem| == |s.user|
    case Begin(dst, from, n) => s.phase.Idle? && !s.freed && dst + n <= |s.device| && from + n <= |s.user|
    case Wait(ok) =>
      && s.phase.Busy? && s.phase.at == Top && s.phase.off < |s.phase.src|
      && if s.armed[Cur(s)] then ok ==> Record(Cur(s)) !in s.queue else ok
    case FillPart(lo, hi) => s.phase.Busy? && s.phase.at == Fill && lo <= hi <= ChunkLen(s)
    case Submit(_) =>
      && s.phase.Busy? && s.phase.at == Fill
      && s.slots[Cur(s)][..ChunkLen(s)] == Chunk(s)
    case Mark(_) => s.phase.Busy? && s.phase.at == Queued
    case Finish => s.phase.Busy? && s.phase.at == Top && s.phase.off == |s.phase.src|
    case Async(dst, from, n) => MayWrite(s, dst, from, n)
    case Blocking(dst, from, n) =>
      && MayWrite(s, dst, from, n)
      && forall k :: 0 <= k < |s.queue| ==> !Overlaps(s.queue[k], dst, n)
    case Drop(ok) => s.phase.Idle? && !s.freed && (ok ==> s.queue == [])
  }

  function Apply(s: State, l: Label): State
    requires WellFormed(s) && Enabled(s, l)
  {
    match l
    case Gpu => s.(device := Execute(s.device, s.slots, s.queue[0]), queue := s.queue[1..])
    case Scribble(mem) => s.(user := mem)
    case Begin(dst, from, n) => s.(phase := Busy(dst, from, s.user[from..from + n], 0, Top))
    case Wait(ok) =>
      if ok then s.(armed := s.armed[Cur(s) := false], phase := s.phase.(at := Fill))
      else s.(phase := Idle)
    case FillPart(lo, hi) =>
      s.(slots := s.slots[Cur(s) := Splice(s.slots[Cur(s)], lo,
        s.user[s.phase.from + s.phase.off + lo..s.phase.from + s.phase.off + hi])])
    case Submit(ok) =>
      if ok then
        var at := s.phase.dst + s.phase.off;
        s.(queue := s.queue + [Staged(at, Cur(s), ChunkLen(s))], phase := s.phase.(at := Queued),
        wanted := Splice(s.wanted, at, Chunk(s)), dirty := s.dirty - Range(at, ChunkLen(s)))
      else s.(phase := Idle)
    case Mark(ok) =>
      if ok then
        s.(queue := s.queue + [Record(Cur(s))], armed := s.armed[Cur(s) := true], cursor := s.cursor + 1,
        phase := s.phase.(off := s.phase.off + ChunkLen(s), at := Top))
      else
        s.(phase := Idle, dirty := s.dirty + Range(s.phase.dst + s.phase.off, ChunkLen(s)))
    case Finish => s.(phase := Idle)
    case Async(dst, from, n) =>
      var data := s.user[from..from + n];
      s.(queue := s.queue + [Direct(dst, data)], wanted := Splice(s.wanted, dst, data),
        dirty := s.dirty - Range(dst, n))
    case Blocking(dst, from, n) =>
      var data := s.user[from..from + n];
      s.(device := Splice(s.device, dst, data), wanted := Splice(s.wanted, dst, data), dirty := s.dirty - Range(dst, n))
    case Drop(_) => s.(freed := true)
  }

  /** A fresh stream over some device and user memory: ring empty, nothing queued. */
  ghost predicate Init(s: State) {
    && WellFormed(s)
    && s.queue == [] && s.phase.Idle? && !s.freed
    && s.wanted == s.device && s.dirty == {}
    && forall i :: 0 <= i < STAGE_SLOTS ==> !s.armed[i]
  }

  lemma {:induction false} FillWellFormed(s: State, lo: nat, hi: nat)
    requires WellFormed(s) && Enabled(s, FillPart(lo, hi))
    ensures WellFormed(Apply(s, FillPart(lo, hi)))
  {
  }

  lemma {:induction false} QueueWellFormed(s: State, l: Label)
    requires WellFormed(s) && Enabled(s, l) && (l.Gpu? || l.Submit? || l.Mark? || l.Async? || l.Blocking?)
    ensures WellFormed(Apply(s, l)) && |Apply(s, l).device| == |s.device|
  {
  }

  lemma {:induction false} ApplyWellFormed(s: State, l: Label)
    requires WellFormed(s) && Enabled(s, l)
    ensures WellFormed(Apply(s, l)) && |Apply(s, l).device| == |s.device|
  {
    if l.FillPart? {
      FillWellFormed(s, l.lo, l.hi);
    } else if l.Gpu? || l.Submit? || l.Mark? || l.Async? || l.Blocking? {
      QueueWellFormed(s, l);
    }
  }

  /** The state a sequence of steps leads to, or None when some step is not enabled. */
  function Run(s: State, ls: seq<Label>): (r: Option<State>)
    requires WellFormed(s)
    ensures r.Some? ==> WellFormed(r.value)
    decreases |ls|
  {
    if ls == [] then Some(s)
    else
      match Run(s, ls[..|ls| - 1])
      case None => None
      case Some(t) =>
        var l := ls[|ls| - 1];
        if Enabled(t, l) then ApplyWellFormed(t, l); Some(Apply(t, l)) else None
  }

  lemma {:induction false} RunOne(s: State, ls: seq<Label>, l: Label)
    requires WellFormed(s)
    ensures Run(s, ls + [l]) == match Run(s, ls)
                                case None => None
                                case Some(t) => if Enabled(t, l) then ApplyWellFormed(t, l); Some(Apply(t, l)) else None
  {
    assert (ls + [l])[..|ls + [l]| - 1] == ls;
  }
}
