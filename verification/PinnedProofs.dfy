/** Slab sizes, what a request gets, and the two counters. */
module PinnedProofs {
  import opened Wrappers
  import opened PoolSizes
  import opened PinnedModel

  // ---- size classes ----

  lemma {:induction false} ZerosOfPow2(k: nat)
    ensures TrailingZeros(Pow2(k)) == k
  {
    if k > 0 {
      ZerosOfPow2(k - 1);
      assert Pow2(k) == 2 * Pow2(k - 1);
    }
  }

  lemma {:induction false} Pow2AtLimits()
    ensures Pow2(12) == 4096 && Pow2(34) == LAST_BYTES && Pow2(64) == WORD_LIMIT
  {
    assert Pow2(12) == 4096;
    assert Pow2(22) == 1024 * Pow2(12);
    assert Pow2(34) == 4096 * Pow2(22);
    assert Pow2(44) == 1024 * Pow2(34);
    assert Pow2(54) == 1024 * Pow2(44);
    assert Pow2(64) == 1024 * Pow2(54);
  }

  /** The least power of two that holds both the request and 4 KiB is the capacity, unless it
      is 2^64, which no word holds; the bucket is its logarithm, clamped. */
  lemma {:induction false} CapIsLeast(bytes: nat) returns (k: nat)
    ensures k >= MIN_LOG2 && bytes <= Pow2(k) && Cap(bytes) == if k < WORD_BITS then Pow2(k) else 0
    ensures forall j: nat :: bytes <= Pow2(j) && j >= MIN_LOG2 ==> k <= j
    ensures IdxOfCap(Cap(bytes)) == if k - MIN_LOG2 < LAST then k - MIN_LOG2 else LAST
  {
    var n := Max(bytes, 4096);
    k := BitLen(n - 1);
    BitLenBounds(n - 1);
    Pow2AtLimits();
    if k < MIN_LOG2 { Pow2Mono(k, MIN_LOG2); }
    forall j: nat | bytes <= Pow2(j) && j >= MIN_LOG2 ensures k <= j {
      Pow2Mono(MIN_LOG2, j);
      if j < k { Pow2Mono(j, k - 1); }
    }
    WordHolds(k);
    ZerosOfPow2(k);
  }

  lemma {:induction false} WordHolds(k: nat)
    ensures Pow2(k) < WORD_LIMIT <==> k < WORD_BITS
  {
    Pow2AtLimits();
    var limit := WORD_BITS;
    if k < limit { Pow2Mono(k + 1, limit); } else { Pow2Mono(limit, k); }
  }

  /** A slab of this length belongs in bucket `i`. */
  predicate Fits(zeroOk: bool, i: nat, len: nat) {
    if i < LAST then len == Pow2(i + MIN_LOG2) else len >= LAST_BYTES || (zeroOk && len == 0)
  }

  /** Up to here a pooled slab always holds the request. */
  function AmpleBytes(zeroOk: bool): nat { if zeroOk then LAST_BYTES / 2 else LAST_BYTES }

  /** A bucket's slabs are big enough for every request up to that size. */
  lemma {:induction false} BucketServes(zeroOk: bool, requested: nat, len: nat)
    requires Fits(zeroOk, BucketOf(requested).0, len) && requested <= AmpleBytes(zeroOk)
    ensures requested <= len
  {
    var k := CapIsLeast(requested);
    Pow2AtLimits();
    var last: nat := 34;
    assert Pow2(last) == 2 * Pow2(last - 1);
    assert k <= if zeroOk then last - 1 else last;
  }

  /** A new slab has the size of the bucket it was made for. */
  lemma {:induction false} OwnCapFits(zeroOk: bool, requested: nat)
    requires BucketOf(requested).1 > 0 || zeroOk
    ensures Fits(zeroOk, BucketOf(requested).0, BucketOf(requested).1)
  {
    var k := CapIsLeast(requested);
    Pow2AtLimits();
    if k - MIN_LOG2 >= LAST { Pow2Mono(34, k); }
  }

  // ---- slab lengths ----

  ghost predicate StackFits(zeroOk: bool, i: nat, st: seq<nat>) {
    forall k :: 0 <= k < |st| ==> Fits(zeroOk, i, st[k])
  }

  /** A lease's slab belongs in the bucket it goes back to, which is where its request looks. */
  predicate LeaseFits(zeroOk: bool, e: Lease) { Fits(zeroOk, e.bucket, e.len) && e.bucket == BucketOf(e.requested).0 }

  predicate PhaseFits(zeroOk: bool, p: Phase) {
    && (!p.Idle? ==> p.idx == BucketOf(p.requested).0 && p.cap == BucketOf(p.requested).1)
    && (p.Got? || p.Counted? ==> p.cap > 0 || zeroOk)
  }

  ghost predicate Sized(s: State) {
    && Shaped(s)
    && (forall i :: 0 <= i < BUCKETS ==> StackFits(s.zeroOk, i, s.buckets[i]))
    && (forall i :: 0 <= i < |s.out| ==> LeaseFits(s.zeroOk, s.out[i]))
    && (forall t :: At(s, t) ==> PhaseFits(s.zeroOk, s.phases[t]))
  }

  lemma {:induction false} SizedPop(s: State, t: nat, requested: nat)
    requires Sized(s) && Enabled(s, Pop(t, requested))
    ensures Sized(Apply(s, Pop(t, requested)))
  {
    var i := BucketOf(requested).0;
    var st := s.buckets[i];
    assert StackFits(s.zeroOk, i, st);
    if st != [] {
      assert Fits(s.zeroOk, i, st[|st| - 1]);
    }
  }

  lemma {:induction false} SizedReturn(s: State, i: nat)
    requires Sized(s) && Enabled(s, Return(i))
    ensures Sized(Apply(s, Return(i)))
  {
    var e := s.out[i];
    assert LeaseFits(s.zeroOk, e) && StackFits(s.zeroOk, e.bucket, s.buckets[e.bucket]);
  }

  lemma {:induction false} SizedAddSlab(s: State, t: nat)
    requires Sized(s) && Enabled(s, AddSlab(t))
    ensures Sized(Apply(s, AddSlab(t)))
  {
    assert PhaseFits(s.zeroOk, s.phases[t]);
    OwnCapFits(s.zeroOk, s.phases[t].requested);
  }

  lemma {:induction false} SizedStep(s: State, l: Label)
    requires Sized(s) && Enabled(s, l)
    ensures Sized(Apply(s, l))
  {
    match l
    case Pop(t, requested) => SizedPop(s, t, requested);
    case Return(i) => SizedReturn(s, i);
    case AddSlab(t) => SizedAddSlab(s, t);
    case Spawn =>
    case Alloc(t, ok) => assert PhaseFits(s.zeroOk, s.phases[t]);
    case AddBytes(t) => assert PhaseFits(s.zeroOk, s.phases[t]);
  }

  // ---- the counters ----

  function Sum(st: seq<nat>): nat
    decreases |st|
  {
    if st == [] then 0 else Sum(st[..|st| - 1]) + st[|st| - 1]
  }

  function SumStacks(stacks: seq<seq<nat>>): nat {
    if stacks == [] then 0 else Sum(stacks[0]) + SumStacks(stacks[1..])
  }

  function CountStacks(stacks: seq<seq<nat>>): nat {
    if stacks == [] then 0 else |stacks[0]| + CountStacks(stacks[1..])
  }

  function SumOut(out: seq<Lease>): nat
    decreases |out|
  {
    if out == [] then 0 else SumOut(out[..|out| - 1]) + out[|out| - 1].len
  }

  /** Bytes allocated and counted whose slab is not yet in the slab counter. */
  function InFlight(phases: seq<Phase>): nat {
    if phases == [] then 0 else (if phases[0].Counted? then phases[0].cap else 0) + InFlight(phases[1..])
  }

  lemma {:induction false} StacksUpdate(stacks: seq<seq<nat>>, i: nat, st: seq<nat>)
    requires i < |stacks|
    ensures SumStacks(stacks[i := st]) + Sum(stacks[i]) == SumStacks(stacks) + Sum(st)
    ensures CountStacks(stacks[i := st]) + |stacks[i]| == CountStacks(stacks) + |st|
  {
    if i == 0 {
      assert stacks[i := st][1..] == stacks[1..];
    } else {
      StacksUpdate(stacks[1..], i - 1, st);
      assert stacks[i := st][1..] == stacks[1..][i - 1 := st];
    }
  }

  lemma {:induction false} FlightUpdate(phases: seq<Phase>, t: nat, p: Phase)
    requires t < |phases|
    ensures InFlight(phases[t := p]) + (if phases[t].Counted? then phases[t].cap else 0)
            == InFlight(phases) + if p.Counted? then p.cap else 0
  {
    if t == 0 {
      assert phases[t := p][1..] == phases[1..];
    } else {
      FlightUpdate(phases[1..], t - 1, p);
      assert phases[t := p][1..] == phases[1..][t - 1 := p];
    }
  }

  lemma {:induction false} FlightSnoc(phases: seq<Phase>)
    ensures InFlight(phases + [Idle]) == InFlight(phases)
  {
    if phases == [] {
      assert phases + [Idle] == [Idle] && [Idle][1..] == [];
    } else {
      FlightSnoc(phases[1..]);
      assert (phases + [Idle])[1..] == phases[1..] + [Idle];
    }
  }

  lemma {:induction false} OutSnoc(out: seq<Lease>, e: Lease)
    ensures SumOut(out + [e]) == SumOut(out) + e.len
  {
    assert (out + [e])[..|out|] == out;
  }

  lemma {:induction false} OutWithout(out: seq<Lease>, i: nat)
    requires i < |out|
    ensures SumOut(out[..i] + out[i + 1..]) + out[i].len == SumOut(out)
    decreases |out|
  {
    var n := |out| - 1;
    if i == n {
      assert out[..i] + out[i + 1..] == out[..n];
    } else {
      OutWithout(out[..n], i);
      assert out[..n][..i] + out[..n][i + 1..] + [out[n]] == out[..i] + out[i + 1..];
      OutSnoc(out[..n][..i] + out[..n][i + 1..], out[n]);
    }
  }

  /** The byte counter is the total length of pooled, outstanding and in-flight slabs, the slab
      counter the number of the first two. */
  predicate Conserved(s: State) {
    && s.bytes == SumStacks(s.buckets) + SumOut(s.out) + InFlight(s.phases)
    && s.slabs == CountStacks(s.buckets) + |s.out|
  }

  lemma {:induction false} ConservedPop(s: State, t: nat, requested: nat)
    requires Shaped(s) && Conserved(s) && Enabled(s, Pop(t, requested))
    ensures Conserved(Apply(s, Pop(t, requested)))
  {
    var (i, cap) := BucketOf(requested);
    var st := s.buckets[i];
    if st == [] {
      FlightUpdate(s.phases, t, Wants(i, cap, requested));
    } else {
      StacksUpdate(s.buckets, i, st[..|st| - 1]);
      OutSnoc(s.out, Lease(i, st[|st| - 1], requested));
    }
  }

  lemma {:induction false} ConservedReturn(s: State, i: nat)
    requires Shaped(s) && Conserved(s) && Enabled(s, Return(i))
    ensures Conserved(Apply(s, Return(i)))
  {
    var e := s.out[i];
    var st := s.buckets[e.bucket];
    OutWithout(s.out, i);
    StacksUpdate(s.buckets, e.bucket, st + [e.len]);
    assert (st + [e.len])[..|st|] == st;
  }

  lemma {:induction false} ConservedStep(s: State, l: Label)
    requires Shaped(s) && Conserved(s) && Enabled(s, l)
    ensures Conserved(Apply(s, l))
  {
    match l
    case Spawn => FlightSnoc(s.phases);
    case Pop(t, requested) => ConservedPop(s, t, requested);
    case Return(i) => ConservedReturn(s, i);
    case Alloc(t, ok) => FlightUpdate(s.phases, t, Apply(s, l).phases[t]);
    case AddBytes(t) => FlightUpdate(s.phases, t, Apply(s, l).phases[t]);
    case AddSlab(t) =>
      FlightUpdate(s.phases, t, Idle);
      OutSnoc(s.out, Lease(s.phases[t].idx, s.phases[t].cap, s.phases[t].requested));
  }

  // ---- all runs ----

  ghost predicate Inv(s: State) { Sized(s) && Conserved(s) }

  lemma {:induction false} EmptySums(stacks: seq<seq<nat>>)
    requires forall i :: 0 <= i < |stacks| ==> stacks[i] == []
    ensures SumStacks(stacks) == 0 && CountStacks(stacks) == 0
  {
    if stacks != [] { EmptySums(stacks[1..]); }
  }

  lemma {:induction false} FreshInv(s: State)
    requires Fresh(s)
    ensures Inv(s)
  {
    EmptySums(Empty());
  }

  lemma {:induction false} RunInv(s: State, ls: seq<Label>)
    requires Inv(s) && Run(s, ls).Some?
    ensures Inv(Run(s, ls).value)
    decreases |ls|
  {
    if ls != [] {
      RunInv(s, ls[..|ls| - 1]);
      SizedStep(Run(s, ls[..|ls| - 1]).value, ls[|ls| - 1]);
      ConservedStep(Run(s, ls[..|ls| - 1]).value, ls[|ls| - 1]);
    }
  }

  ghost predicate Reaches(s0: State, ls: seq<Label>, s: State) { Fresh(s0) && Run(s0, ls) == Some(s) }

  ghost predicate Reachable(s: State) { exists s0, ls :: Reaches(s0, ls, s) }

  lemma {:induction false} ReachableInv(s: State)
    requires Reachable(s)
    ensures Inv(s)
  {
    var s0, ls :| Reaches(s0, ls, s);
    FreshInv(s0);
    RunInv(s0, ls);
  }

  /** In every reachable state the slabs below the last bucket have exactly its size, and those
      in the last at least 2^34 bytes, or none where the driver grants that. */
  lemma {:induction false} SlabLengths(s: State, i: nat, k: nat)
    requires Reachable(s) && i < BUCKETS && |s.buckets| == BUCKETS && k < |s.buckets[i]|
    ensures if i < LAST then s.buckets[i][k] == Pow2(i + MIN_LOG2)
            else s.buckets[i][k] >= LAST_BYTES || (s.zeroOk && s.buckets[i][k] == 0)
  {
    ReachableInv(s);
    assert StackFits(s.zeroOk, i, s.buckets[i]);
  }

  /** With no acquisition in progress the counters are the length and number of all slabs,
      pooled and outstanding. */
  lemma {:induction false} CountersExact(s: State)
    requires Reachable(s) && forall t :: At(s, t) ==> s.phases[t].Idle?
    ensures s.bytes == SumStacks(s.buckets) + SumOut(s.out) && s.slabs == CountStacks(s.buckets) + |s.out|
  {
    ReachableInv(s);
    NoFlight(s.phases);
  }

  lemma {:induction false} NoFlight(phases: seq<Phase>)
    requires forall t :: 0 <= t < |phases| ==> phases[t].Idle?
    ensures InFlight(phases) == 0
  {
    if phases != [] { NoFlight(phases[1..]); }
  }

  predicate Handed(s: State, i: int, requested: nat) { 0 <= i < |s.out| && s.out[i].requested == requested }

  /** Every slab ever handed out for `requested` bytes holds them. */
  ghost predicate Ample(zeroOk: bool, requested: nat) {
    forall s, i :: Reachable(s) && s.zeroOk == zeroOk && Handed(s, i, requested) ==> requested <= s.out[i].len
  }

  lemma {:induction false} Served(s: State, i: nat)
    requires Reachable(s) && i < |s.out| && s.out[i].requested <= AmpleBytes(s.zeroOk)
    ensures s.out[i].requested <= s.out[i].len
  {
    ReachableInv(s);
    assert LeaseFits(s.zeroOk, s.out[i]);
    BucketServes(s.zeroOk, s.out[i].requested, s.out[i].len);
  }

  lemma {:induction false} HighExponent(requested: nat, k: nat)
    requires LAST_BYTES / 2 < requested <= Pow2(k)
    ensures k >= LAST + MIN_LOG2
  {
    var j: nat := 33;
    assert Pow2(j) == LAST_BYTES / 2 by {
      Pow2AtLimits();
      assert Pow2(j + 1) == 2 * Pow2(j);
    }
    if k <= j { Pow2Mono(k, j); }
  }

  /** Everything above 2^33 looks in the last bucket. */
  lemma {:induction false} LastBucket(requested: nat)
    requires requested > LAST_BYTES / 2
    ensures BucketOf(requested).0 == LAST
  {
    var k := CapIsLeast(requested);
    HighExponent(requested, k);
  }

  lemma {:induction false} LastCap()
    ensures BucketOf(LAST_BYTES).1 == LAST_BYTES
  {
    var k := CapIsLeast(LAST_BYTES);
    var j: nat := 34;
    Pow2AtLimits();
    if k < j { Pow2Mono(k, j - 1); }
  }

  /** Above 2^63 the capacity has wrapped. */
  lemma {:induction false} Wrapped(requested: nat)
    requires requested > WORD_LIMIT / 2
    ensures BucketOf(requested).1 == 0
  {
    var k := CapIsLeast(requested);
    var top: nat := WORD_BITS;
    Pow2AtLimits();
    assert Pow2(top) == 2 * Pow2(top - 1);
    if k < top { Pow2Mono(k, top - 1); }
  }

  /** A request whose slab is too small for others that look in its bucket. */
  function Culprit(zeroOk: bool): nat { if zeroOk then WORD_LIMIT - 1 else LAST_BYTES }

  function CulpritBytes(zeroOk: bool): nat { if zeroOk then 0 else LAST_BYTES }

  function New(zeroOk: bool): (s: State)
    ensures Fresh(s) && s.zeroOk == zeroOk
  {
    State(zeroOk, Empty(), [], [], 0, 0)
  }

  /** A pool with one thread, at `p`. */
  function Solo(zeroOk: bool, p: Phase): (s: State)
    ensures s.buckets == Empty() && s.zeroOk == zeroOk && s.phases == [p] && s.out == []
  {
    New(zeroOk).(phases := [p])
  }

  lemma {:induction false} SoloNext(zeroOk: bool, p: Phase, q: Phase)
    ensures SetPhase(Solo(zeroOk, p), 0, q) == Solo(zeroOk, q)
  {
    assert [p][0 := q] == [q];
  }

  /** One thread asks for that much. */
  lemma {:induction false} OneAsks(zeroOk: bool) returns (ls: seq<Label>)
    ensures Run(New(zeroOk), ls) == Some(Solo(zeroOk, Wants(LAST, CulpritBytes(zeroOk), Culprit(zeroOk))))
  {
    var none: seq<Phase> := [];
    assert none + [Idle] == [Idle];
    RunOne(New(zeroOk), [], Spawn);
    ls := [Spawn];
    assert Run(New(zeroOk), ls).value == Solo(zeroOk, Idle);
    LastBucket(Culprit(zeroOk));
    if zeroOk { Wrapped(Culprit(zeroOk)); } else { LastCap(); }
    SoloNext(zeroOk, Idle, Wants(LAST, CulpritBytes(zeroOk), Culprit(zeroOk)));
    RunOne(New(zeroOk), ls, Pop(0, Culprit(zeroOk)));
    ls := ls + [Pop(0, Culprit(zeroOk))];
  }

  /** The driver provides it. */
  lemma {:induction false} OneSlab(zeroOk: bool) returns (ls: seq<Label>)
    ensures Run(New(zeroOk), ls) == Some(Solo(zeroOk, Got(LAST, CulpritBytes(zeroOk), Culprit(zeroOk))))
  {
    ls := OneAsks(zeroOk);
    var p := Wants(LAST, CulpritBytes(zeroOk), Culprit(zeroOk));
    SoloNext(zeroOk, p, Got(p.idx, p.cap, p.requested));
    RunOne(New(zeroOk), ls, Alloc(0, true));
    ls := ls + [Alloc(0, true)];
  }

  /** It is counted, used, and given back. */
  lemma {:induction false} OneSlabBack(zeroOk: bool) returns (ls: seq<Label>)
    ensures var u := Run(New(zeroOk), ls);
            && u.Some? && u.value.phases == [Idle] && u.value.out == [] && u.value.zeroOk == zeroOk
            && u.value.buckets[LAST] == [CulpritBytes(zeroOk)]
  {
    var s0 := New(zeroOk);
    ls := OneSlab(zeroOk);
    RunOne(s0, ls, AddBytes(0));
    ls := ls + [AddBytes(0)];
    RunOne(s0, ls, AddSlab(0));
    ls := ls + [AddSlab(0)];
    RunOne(s0, ls, Return(0));
    ls := ls + [Return(0)];
  }

  /** A request above the limit is then served by it, too small. */
  lemma {:induction false} TooSmall(zeroOk: bool, requested: nat) returns (s: State)
    requires AmpleBytes(zeroOk) < requested < WORD_LIMIT
    ensures Reachable(s) && s.zeroOk == zeroOk && s.out == [Lease(LAST, CulpritBytes(zeroOk), requested)]
    ensures CulpritBytes(zeroOk) < requested
  {
    var ls := OneSlabBack(zeroOk);
    LastBucket(requested);
    RunOne(New(zeroOk), ls, Pop(0, requested));
    s := Run(New(zeroOk), ls + [Pop(0, requested)]).value;
    assert Reaches(New(zeroOk), ls + [Pop(0, requested)], s);
  }

  /** `acquire(b)` gives room for `b` bytes in every run, larger requests mixed in or not, if
      and only if `b` is at most 2^34, or 2^33 where the driver grants zero bytes: a request
      above 2^63 wraps to such a slab, and it lands in the last bucket. */
  lemma {:induction false} AcquireIsAmple(zeroOk: bool, requested: nat)
    requires requested < WORD_LIMIT
    ensures Ample(zeroOk, requested) <==> requested <= if zeroOk then LAST_BYTES / 2 else LAST_BYTES
  {
    if requested <= AmpleBytes(zeroOk) {
      forall s, i | Reachable(s) && s.zeroOk == zeroOk && Handed(s, i, requested) ensures requested <= s.out[i].len {
        Served(s, i);
      }
    } else {
      var s := TooSmall(zeroOk, requested);
      assert Handed(s, 0, requested);
    }
  }
}
