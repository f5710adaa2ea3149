/** The pinned-memory pool: one bucket of slabs per power of two, everything above the last
    bucket's size clamped into it. Sizes are 64-bit words: a power of two that does not fit
    wraps to zero, as in a release build. Threads interleave at every lock and counter. */
module PinnedModel {
  import opened Wrappers
  import opened PoolSizes

  const MIN_LOG2: nat := 12
  const MAX_LOG2: nat := 34
  const BUCKETS: nat := 23
  const LAST: nat := 22
  const LAST_BYTES: nat := 0x4_0000_0000

  const WORD_BITS: nat := 64
  const WORD_LIMIT: nat := 0x1_0000_0000_0000_0000

  function NextPowerOfTwo(n: nat): nat { if n == 0 then 1 else Pow2(BitLen(n - 1)) }

  function TrailingZeros(n: nat): nat {
    if n == 0 then WORD_BITS else if n % 2 == 1 then 0 else 1 + TrailingZeros(n / 2)
  }

  function Cap(bytes: nat): nat {
    var p := NextPowerOfTwo(Max(bytes, 4096));
    if p < WORD_LIMIT then p else 0
  }

  function IdxOfCap(cap: nat): (i: nat)
    ensures i < BUCKETS
  {
    var log2 := TrailingZeros(cap);
    var idx := if log2 > MIN_LOG2 then log2 - MIN_LOG2 else 0;
    if idx < LAST then idx else LAST
  }

  function BucketOf(bytes: nat): (r: (nat, nat))
    ensures r.0 < BUCKETS
  {
    (IdxOfCap(Cap(bytes)), Cap(bytes))
  }

  /** A slab checked out: where it goes back to, its length, and what was asked for. */
  datatype Lease = Lease(bucket: nat, len: nat, requested: nat)

  datatype Phase =
    | Idle
    | Wants(idx: nat, cap: nat, requested: nat)       // the bucket was empty
    | Got(idx: nat, cap: nat, requested: nat)         // allocated, in neither counter yet
    | Counted(idx: nat, cap: nat, requested: nat)     // in the byte counter only

  /** `zeroOk` says whether the driver grants an allocation of zero bytes. */
  datatype State = State(
    zeroOk: bool,
    buckets: seq<seq<nat>>,
    out: seq<Lease>,
    phases: seq<Phase>,
    bytes: nat,
    slabs: nat)

  datatype Label =
    | Spawn
    | Pop(t: nat, requested: nat)
    | Alloc(t: nat, ok: bool)
    | AddBytes(t: nat)
    | AddSlab(t: nat)
    | Return(i: nat)

  predicate At(s: State, t: int) { 0 <= t < |s.phases| }

  predicate Shaped(s: State) {
    && |s.buckets| == BUCKETS
    && (forall i :: 0 <= i < |s.out| ==> s.out[i].bucket < BUCKETS)
    && (forall t :: 0 <= t < |s.phases| && !s.phases[t].Idle? ==> s.phases[t].idx < BUCKETS)
  }

  predicate Enabled(s: State, l: Label) {
    match l
    case Spawn => true
    case Pop(t, requested) => At(s, t) && s.phases[t].Idle? && requested < WORD_LIMIT
    case Alloc(t, ok) => At(s, t) && s.phases[t].Wants? && (ok ==> s.phases[t].cap > 0 || s.zeroOk)
    case AddBytes(t) => At(s, t) && s.phases[t].Got?
    case AddSlab(t) => At(s, t) && s.phases[t].Counted?
    case Return(i) => i < |s.out|
  }

  function SetPhase(s: State, t: nat, p: Phase): State
    requires At(s, t)
  {
    s.(phases := s.phases[t := p])
  }

  function SetBucket(s: State, i: nat, st: seq<nat>): State
    requires i < |s.buckets|
  {
    s.(buckets := s.buckets[i := st])
  }

  function PopBucket(s: State, t: nat, requested: nat): State
    requires Shaped(s) && At(s, t)
  {
    var (i, cap) := BucketOf(requested);
    var st := s.buckets[i];
    if st == [] then SetPhase(s, t, Wants(i, cap, requested))
    else SetBucket(s, i, st[..|st| - 1]).(out := s.out + [Lease(i, st[|st| - 1], requested)])
  }

  function Apply(s: State, l: Label): State
    requires Shaped(s) && Enabled(s, l)
  {
    match l
    case Spawn => s.(phases := s.phases + [Idle])
    case Pop(t, requested) => PopBucket(s, t, requested)
    case Alloc(t, ok) =>
      var p := s.phases[t];
      SetPhase(s, t, if ok then Got(p.idx, p.cap, p.requested) else Idle)
    case AddBytes(t) =>
      var p := s.phases[t];
      SetPhase(s.(bytes := s.bytes + p.cap), t, Counted(p.idx, p.cap, p.requested))
    case AddSlab(t) =>
      var p := s.phases[t];
      SetPhase(s.(slabs := s.slabs + 1, out := s.out + [Lease(p.idx, p.cap, p.requested)]), t, Idle)
    case Return(i) =>
      var e := s.out[i];
      SetBucket(s, e.bucket, s.buckets[e.bucket] + [e.len]).(out := s.out[..i] + s.out[i + 1..])
  }

  lemma {:induction false} ApplyShaped(s: State, l: Label)
    requires Shaped(s) && Enabled(s, l)
    ensures Shaped(Apply(s, l))
  {
  }

  function Run(s: State, ls: seq<Label>): (r: Option<State>)
    requires Shaped(s)
    ensures r.Some? ==> Shaped(r.value)
    decreases |ls|
  {
    if ls == [] then Some(s)
    else
      match Run(s, ls[..|ls| - 1])
      case None => None
      case Some(u) =>
        if Enabled(u, ls[|ls| - 1]) then ApplyShaped(u, ls[|ls| - 1]); Some(Apply(u, ls[|ls| - 1])) else None
  }

  lemma {:induction false} RunOne(s: State, ls: seq<Label>, l: Label)
    requires Shaped(s) && Run(s, ls).Some? && Enabled(Run(s, ls).value, l)
    ensures Run(s, ls + [l]) == Some(Apply(Run(s, ls).value, l))
  {
    assert (ls + [l])[..|ls + [l]| - 1] == ls;
  }

  lemma {:induction false} RunConcat(s: State, a: seq<Label>, b: seq<Label>)
    requires Shaped(s) && Run(s, a).Some? && Run(Run(s, a).value, b).Some?
    ensures Run(s, a + b) == Run(Run(s, a).value, b)
    decreases |b|
  {
    if b == [] {
      assert a + b == a;
    } else {
      RunConcat(s, a, b[..|b| - 1]);
      assert (a + b)[..|a + b| - 1] == a + b[..|b| - 1];
    }
  }

  function Empty(): (r: seq<seq<nat>>)
    ensures |r| == BUCKETS && forall i :: 0 <= i < BUCKETS ==> r[i] == []
  {
    seq(BUCKETS, (i: nat) => [])
  }

  /** A new pool. */
  predicate Fresh(s: State) {
    s.buckets == Empty() && s.out == [] && s.phases == [] && s.bytes == 0 && s.slabs == 0
  }
}
