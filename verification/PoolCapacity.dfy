/** Whether a recycled block holds the request it serves: exactly when do element sizes mix? */
module PoolCapacity {
  import opened Wrappers
  import opened Arithmetic
  import opened PoolSizes
  import opened PoolModel
  import opened PoolProofs
  import opened PoolInvariant
  import opened PoolRuns

  /** Every buffer in a client's hands has a live block with room for its elements. */
  ghost predicate AllFit(s: State) {
    forall p :: p in s.clients ==> s.clients[p].ptr == p && Fits(s.driver.live, s.clients[p])
  }

  predicate Fits(live: map<nat, nat>, b: Buf) {
    b.ptr in live && b.len * b.size <= live[b.ptr]
  }

  lemma {:induction false} ClientFits(s: State, p: nat, g: Rule)
    requires Inv(s) && Sized(s, g) && g.fits && p in s.clients
    ensures s.clients[p].ptr == p && Fits(s.driver.live, s.clients[p])
  {
    ClientOwned(s, p);
    assert BufSized(s.driver.live, s.clients[p], g);
  }

  lemma {:induction false} RunFits(s0: State, ls: seq<Label>, g: Rule)
    requires Fresh(s0) && Run(s0, ls).Some? && Sound(g) && g.fits && forall l :: l in ls ==> Allowed(l, g)
    ensures AllFit(Run(s0, ls).value)
  {
    FreshInv(s0);
    FreshSized(s0, g);
    RunSized(s0, ls, g);
    var s := Run(s0, ls).value;
    forall p | p in s.clients ensures s.clients[p].ptr == p && Fits(s.driver.live, s.clients[p]) {
      ClientFits(s, p, g);
    }
  }

  // ---- power-of-two sizes ----

  /** The element sizes of the built-in types. */
  ghost function Pow2Sizes(): Rule { Rule((iset size: nat | IsPow2(size)), Caps(), Caps(), true) }

  lemma {:induction false} Pow2SizesSound()
    ensures Sound(Pow2Sizes())
  {
    forall size: nat, len: nat, b: nat | IsPow2(size) && b < NUM_BUCKETS && Served(size, len, b)
      ensures Bounded(Pow2Sizes(), b, DriverBytes(b, size)) && len * size <= BucketBytes(b)
    {
      BucketIsLeast(len * size, 0);
      Pow2Exact(len, size, b);
    }
  }

  /** Every block of a stack is live and has exactly bucket `i`'s size. */
  ghost predicate StackExact(live: map<nat, nat>, st: seq<nat>, i: nat) {
    forall p :: p in st ==> p in live && live[p] == BucketBytes(i)
  }

  lemma {:induction false} FrontExact(s: State, t: nat, i: nat)
    requires Inv(s) && Sized(s, Pow2Sizes()) && t < |s.fronts| && i < NUM_BUCKETS
    ensures StackExact(s.driver.live, s.fronts[t][i], i)
  {
    assert StackSized(s.driver.live, s.fronts[t][i], Pow2Sizes(), i);
    forall p | p in s.fronts[t][i] ensures p in s.driver.live && s.driver.live[p] == BucketBytes(i) {
      CachedOwned(s, t, i, p);
      assert Bounded(Pow2Sizes(), i, s.driver.live[p]);
    }
  }

  lemma {:induction false} BackExact(s: State, i: nat)
    requires Inv(s) && Sized(s, Pow2Sizes()) && i < NUM_BUCKETS
    ensures StackExact(s.driver.live, s.back[i], i)
  {
    assert StackSized(s.driver.live, s.back[i], Pow2Sizes(), i);
    forall p | p in s.back[i] ensures p in s.driver.live && s.driver.live[p] == BucketBytes(i) {
      CachedOwned(s, |s.fronts|, i, p);
      assert Bounded(Pow2Sizes(), i, s.driver.live[p]);
    }
  }

  /** With power-of-two element sizes, a block cached in bucket `i` has exactly that bucket's
      size and every buffer a client holds has room for its elements, whatever type and
      whichever thread had the block before. */
  lemma {:induction false} Capacity(s0: State, ls: seq<Label>)
    requires Fresh(s0) && Run(s0, ls).Some? && forall l :: l in ls ==> Allowed(l, Pow2Sizes())
    ensures var s := Run(s0, ls).value;
            && (forall t, i :: 0 <= t < |s.fronts| && 0 <= i < NUM_BUCKETS ==>
                StackExact(s.driver.live, s.fronts[t][i], i))
            && (forall i :: 0 <= i < NUM_BUCKETS ==> StackExact(s.driver.live, s.back[i], i))
            && AllFit(s)
  {
    FreshInv(s0);
    FreshSized(s0, Pow2Sizes());
    Pow2SizesSound();
    RunSized(s0, ls, Pow2Sizes());
    RunFits(s0, ls, Pow2Sizes());
    var s := Run(s0, ls).value;
    forall t, i | 0 <= t < |s.fronts| && 0 <= i < NUM_BUCKETS ensures StackExact(s.driver.live, s.fronts[t][i], i) {
      FrontExact(s, t, i);
    }
    forall i | 0 <= i < NUM_BUCKETS ensures StackExact(s.driver.live, s.back[i], i) {
      BackExact(s, i);
    }
  }

  // ---- exactly which sizes mix ----

  /** Any two sizes in use that can share a bucket get driver blocks of one size for it. */
  ghost predicate Agreeing(sizes: iset<nat>) {
    forall x, y, l, m, b: nat :: x in sizes && y in sizes && b < NUM_BUCKETS && Served(x, l, b) && Served(y, m, b) ==>
                                   DriverBytes(b, x) == DriverBytes(b, y)
  }

  ghost predicate Uses(sizes: iset<nat>, b: nat, bytes: nat) {
    exists x, l :: x in sizes && Served(x, l, b) && DriverBytes(b, x) == bytes
  }

  /** The size of the blocks that the sizes in use get for a bucket. */
  ghost function BlockOf(sizes: iset<nat>, b: nat): nat {
    if exists bytes: nat :: Uses(sizes, b, bytes) then
      var bytes: nat :| Uses(sizes, b, bytes);
      bytes
    else 0
  }

  ghost function Blocks(sizes: iset<nat>): (r: seq<nat>)
    ensures |r| == NUM_BUCKETS && forall i :: 0 <= i < NUM_BUCKETS ==> r[i] == BlockOf(sizes, i)
  {
    seq(NUM_BUCKETS, (i: nat) => BlockOf(sizes, i))
  }

  /** A request served from a bucket fits as many whole elements as the bucket holds. */
  lemma {:induction false} RequestFits(size: nat, len: nat, b: nat)
    requires b < NUM_BUCKETS && Served(size, len, b)
    ensures len * size <= DriverBytes(b, size)
  {
    BucketIsLeast(len * size, 0);
    MostMultiples(len, size, BucketBytes(b));
  }

  ghost function Agreed(sizes: iset<nat>): Rule { Rule(sizes, Blocks(sizes), Blocks(sizes), true) }

  lemma {:induction false} AgreedSound(sizes: iset<nat>)
    requires Agreeing(sizes)
    ensures Sound(Agreed(sizes))
  {
    forall x: nat, l: nat, b: nat | x in sizes && b < NUM_BUCKETS && Served(x, l, b)
      ensures BlockOf(sizes, b) == DriverBytes(b, x) && l * x <= BlockOf(sizes, b)
    {
      assert Uses(sizes, b, DriverBytes(b, x));
      RequestFits(x, l, b);
    }
  }

  /** The largest request of `size` that bucket `b` serves. */
  lemma {:induction false} LargestServed(size: nat, len: nat, b: nat)
    requires b < NUM_BUCKETS && Served(size, len, b)
    ensures Served(size, BucketBytes(b) / size, b) && BucketBytes(b) / size * size == DriverBytes(b, size)
  {
    var most := BucketBytes(b) / size;
    BucketIsLeast(len * size, 0);
    MostMultiples(len, size, BucketBytes(b));
    WholeMultiples(BucketBytes(b), size);
    BetweenBuckets(len * size, most * size, b);
  }

  /** Sizes between a request of bucket `b` and the bucket's own size are served from `b`. */
  lemma {:induction false} BetweenBuckets(small: nat, bytes: nat, b: nat)
    requires b < NUM_BUCKETS && BucketForBytes(small) == Some(b) && small <= bytes <= BucketBytes(b)
    ensures BucketForBytes(bytes) == Some(b)
  {
    BucketRoundTrip(b);
    SameLength(small, bytes, BucketBytes(b), b);
  }

  lemma {:induction false} SameLength(small: nat, bytes: nat, large: nat, b: nat)
    requires 0 < small <= bytes <= large && BucketForBytes(small) == Some(b) == BucketForBytes(large)
    ensures BucketForBytes(bytes) == Some(b)
  {
    var p, q, r := small - 1, bytes - 1, large - 1;
    BitLenMono(p, q);
    BitLenMono(q, r);
    SameLog(BitLen(p), BitLen(q), BitLen(r), b);
  }

  lemma {:induction false} SameLog(p: nat, q: nat, r: nat, b: nat)
    requires p <= q <= r && BucketOfLog(p) == Some(b) == BucketOfLog(r)
    ensures BucketOfLog(q) == Some(b)
  {
  }

  lemma {:induction false} BitLenMono(a: nat, b: nat)
    requires a <= b
    ensures BitLen(a) <= BitLen(b)
  {
    if a > 0 { BitLenMono(a / 2, b / 2); }
  }

  // ---- the run that mixes two sizes ----

  /** Ask for the smaller block, drop it, and have it recycled for the larger request. */
  function Mixing(x: nat, l: nat, y: nat, m: nat): seq<Label> {
    [Spawn, AllocMiss(0, l, x), AllocBack(0), AllocDriver(0, Some(1)), DropFront(0, 1), AllocFront(0, m, y)]
  }

  /** One thread, bucket `b` holding `st` in front and nothing behind. */
  ghost predicate Looks(s: State, b: nat, st: seq<nat>, ph: Phase, c: map<nat, Buf>, live: map<nat, nat>) {
    && b < NUM_BUCKETS && Shaped(s) && |s.fronts| == 1 && !s.closed
    && s.fronts[0][b] == st && s.back[b] == [] && s.phases == [ph]
    && s.clients == c && s.driver.live == live
  }

  lemma {:induction false} MixSpawn(s0: State, b: nat)
    requires Fresh(s0) && b < NUM_BUCKETS
    ensures Looks(Apply(s0, Spawn), b, [], Idle, map[], map[])
  {
    assert Apply(s0, Spawn).phases == [Idle];
  }

  /** Neither stack has a block of the bucket. */
  lemma {:induction false} MixStep(s: State, b: nat, x: nat, l: nat, ph: Phase)
    requires Served(x, l, b) && (ph == Idle || ph == WantBack(b, l, x)) && Looks(s, b, [], ph, map[], map[])
    ensures var next, step := if ph.Idle? then WantBack(b, l, x) else WantDriver(b, l, x),
                              if ph.Idle? then AllocMiss(0, l, x) else AllocBack(0);
            Enabled(s, step) && Looks(Apply(s, step), b, [], next, map[], map[])
  {
    var step := if ph.Idle? then AllocMiss(0, l, x) else AllocBack(0);
    ApplyShaped(s, step);
    assert Apply(s, step).phases == [if ph.Idle? then WantBack(b, l, x) else WantDriver(b, l, x)];
  }

  lemma {:induction false} MixMiss(s0: State, x: nat, l: nat, y: nat, m: nat, b: nat) returns (s: State)
    requires Fresh(s0) && b < NUM_BUCKETS && Served(x, l, b)
    ensures Run(s0, Mixing(x, l, y, m)[..3]) == Some(s) && Looks(s, b, [], WantDriver(b, l, x), map[], map[])
  {
    var ls := Mixing(x, l, y, m);
    assert [] + [Spawn] == ls[..1] && ls[..1] + [AllocMiss(0, l, x)] == ls[..2] && ls[..2] + [AllocBack(0)] == ls[..3];
    RunOne(s0, [], Spawn);
    MixSpawn(s0, b);
    s := Apply(s0, Spawn);
    MixStep(s, b, x, l, Idle);
    RunOne(s0, ls[..1], AllocMiss(0, l, x));
    s := Apply(s, AllocMiss(0, l, x));
    MixStep(s, b, x, l, WantBack(b, l, x));
    RunOne(s0, ls[..2], AllocBack(0));
    s := Apply(s, AllocBack(0));
  }

  lemma {:induction false} MixFirst(s0: State, x: nat, l: nat, y: nat, m: nat, b: nat) returns (s: State)
    requires Fresh(s0) && b < NUM_BUCKETS && Served(x, l, b)
    ensures Run(s0, Mixing(x, l, y, m)[..4]) == Some(s)
    ensures Looks(s, b, [], Idle, map[1 := Buf(1, l, x, b)], map[1 := DriverBytes(b, x)])
  {
    var ls := Mixing(x, l, y, m);
    var s3 := MixMiss(s0, x, l, y, m, b);
    assert ls[..3] + [AllocDriver(0, Some(1))] == ls[..4];
    RunOne(s0, ls[..3], AllocDriver(0, Some(1)));
    s := Apply(s3, AllocDriver(0, Some(1)));
  }

  /** Two sizes that share a bucket but not a block size: the second client's elements do not
      fit. */
  lemma {:induction false} MixedSizesOverflow(s0: State, x: nat, l: nat, y: nat, m: nat, b: nat)
    requires Fresh(s0) && b < NUM_BUCKETS && Served(x, l, b) && Served(y, m, b)
    requires m * y > DriverBytes(b, x)
    ensures Run(s0, Mixing(x, l, y, m)).Some?
    ensures !AllFit(Run(s0, Mixing(x, l, y, m)).value)
  {
    var ls := Mixing(x, l, y, m);
    var s4 := MixFirst(s0, x, l, y, m, b);
    assert ls[..4] + [DropFront(0, 1)] == ls[..5] && ls[..5] + [AllocFront(0, m, y)] == ls;
    RunOne(s0, ls[..4], DropFront(0, 1));
    var s5 := Apply(s4, DropFront(0, 1));
    assert Looks(s5, b, [1], Idle, map[], map[1 := DriverBytes(b, x)]);
    RunOne(s0, ls[..5], AllocFront(0, m, y));
    var s := Apply(s5, AllocFront(0, m, y));
    assert s.clients[1] == Buf(1, m, y, b) && s.driver.live[1] == DriverBytes(b, x);
    assert !Fits(s.driver.live, s.clients[1]);
  }

  /** A run from a new pool that asks only for elements of these sizes leads to `s`. */
  ghost predicate Arrives(s0: State, ls: seq<Label>, s: State, sizes: iset<nat>) {
    Fresh(s0) && Run(s0, ls) == Some(s) && forall l :: l in ls ==> Allowed(l, Agreed(sizes))
  }

  ghost predicate FitsAlways(sizes: iset<nat>) {
    forall s0, ls, s :: Arrives(s0, ls, s, sizes) ==> AllFit(s)
  }

  /** Every buffer of every run has room for its elements if and only if any two element sizes
      in use that can share a bucket get driver blocks of one size for it. */
  lemma {:induction false} CapacityExact(sizes: iset<nat>)
    ensures FitsAlways(sizes) <==> Agreeing(sizes)
  {
    if Agreeing(sizes) {
      AgreedSound(sizes);
      forall s0, ls, s | Arrives(s0, ls, s, sizes) ensures AllFit(s) {
        RunFits(s0, ls, Agreed(sizes));
      }
    } else {
      var x, y, l, m, b: nat :|
        x in sizes && y in sizes && b < NUM_BUCKETS && Served(x, l, b) && Served(y, m, b)
          && DriverBytes(b, x) != DriverBytes(b, y);
      if DriverBytes(b, x) < DriverBytes(b, y) {
        Disagreement(sizes, x, l, y, m, b);
      } else {
        Disagreement(sizes, y, m, x, l, b);
      }
    }
  }

  lemma {:induction false} Disagreement(sizes: iset<nat>, x: nat, l: nat, y: nat, m: nat, b: nat)
    requires x in sizes && y in sizes && b < NUM_BUCKETS && Served(x, l, b) && Served(y, m, b)
             && DriverBytes(b, x) < DriverBytes(b, y)
    ensures !FitsAlways(sizes)
  {
    var s0 := State(0, [], EmptyFront(), [], Driver(map[], 0, 0, false), map[], map[], 0, 1, false);
    LargestServed(y, m, b);
    var most := BucketBytes(b) / y;
    MixedSizesOverflow(s0, x, l, y, most, b);
    assert Arrives(s0, Mixing(x, l, y, most), Run(s0, Mixing(x, l, y, most)).value, sizes);
  }

  /** Three 32-bit words and bytes do not mix: a block first asked for with 12-byte elements is
      1020 bytes, not the bucket's 1024, and the next client of the bucket needs all of them. */
  lemma {:induction false} OddSizesOverflow(s0: State)
    requires Fresh(s0)
    ensures Run(s0, Mixing(12, 85, 1, 1024)).Some?
    ensures !AllFit(Run(s0, Mixing(12, 85, 1, 1024)).value)
  {
    SmallBucket(85, 12);
    SmallBucket(1024, 1);
    MixedSizesOverflow(s0, 12, 85, 1, 1024, 0);
  }

  lemma {:induction false} SmallBucket(len: nat, size: nat)
    requires 0 < len * size <= 1024 && size > 0
    ensures Served(size, len, 0) && BucketBytes(0) == 1024
  {
    Pow2At10And28();
    BucketNone(len * size);
    BucketIsLeast(len * size, 10);
    var b := BucketForBytes(len * size).value;
    if b > 0 {
      Pow2Mono(10, b + MIN_BUCKET_LOG2);
    }
  }
}
