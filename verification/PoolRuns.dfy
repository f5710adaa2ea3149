/** The pool's promises, over every run of any number of threads. */
module PoolRuns {
  import opened Wrappers
  import opened Arithmetic
  import opened Counting
  import opened PoolSizes
  import opened PoolModel
  import opened PoolProofs
  import opened PoolInvariant

  lemma {:induction false} FreshInv(s: State)
    requires Fresh(s)
    ensures Inv(s)
  {
    forall p: nat ensures Owners(s, p) == 0 {
      CountEmptyStacks(s.back, p);
    }
  }

  lemma {:induction false} RunInv(s: State, ls: seq<Label>)
    requires Inv(s) && Run(s, ls).Some?
    ensures Inv(Run(s, ls).value)
    decreases |ls|
  {
    if ls != [] {
      RunInv(s, ls[..|ls| - 1]);
      StepInv(Run(s, ls[..|ls| - 1]).value, ls[|ls| - 1]);
    }
  }

  /** In every reachable state each live driver block is in exactly one place, nothing that is
      not live is anywhere, no block has been freed twice, and the stream's strong count is
      one plus the buffers in existence (without the one once the pool is gone). */
  lemma {:induction false} Conservation(s0: State, ls: seq<Label>, s: State)
    requires Fresh(s0) && Run(s0, ls) == Some(s)
    ensures forall p: nat :: Owners(s, p) == if p in s.driver.live then 1 else 0
    ensures !s.driver.bad && s.driver.allocs == s.driver.frees + |s.driver.live|
    ensures s.rc == (if s.closed then 0 else 1) + |s.clients| + |s.moved| + s.hollow
  {
    FreshInv(s0);
    RunInv(s0, ls);
  }

  /** After `shrink`, and after the pool is dropped, exactly the blocks taken out by
      `into_inner` are live: every other one ever allocated has been freed, once. */
  lemma {:induction false} EmptiedPoolKeepsNothing(s0: State, ls: seq<Label>, s: State, l: Label, t: State)
    requires Fresh(s0) && Run(s0, ls) == Some(s) && (l == Shrink || l == Close) && Enabled(s, l) && t == Apply(s, l)
    ensures t.driver.live.Keys == t.moved.Keys
    ensures !t.driver.bad && t.driver.allocs == t.driver.frees + |t.moved|
  {
    FreshInv(s0);
    RunInv(s0, ls);
    EmptiedLive(s);
  }

  /** Emptying a pool that no client uses leaves live exactly what was taken out. */
  lemma {:induction false} EmptiedLive(s: State)
    requires Inv(s) && s.clients == map[]
    ensures var d := Emptied(s).driver;
            d.live.Keys == s.moved.Keys && !d.bad && d.allocs == d.frees + |s.moved|
  {
    EmptiedExact(s);
    assert forall p: nat :: p in Emptied(s).driver.live <==> p in s.moved;
    assert Emptied(s).driver.live.Keys == s.moved.Keys;
  }

  // ---- block sizes ----

  lemma {:induction false} FreshSized(s: State, g: Rule)
    requires Fresh(s)
    ensures Sized(s, g)
  {
  }

  lemma {:induction false} RunSized(s: State, ls: seq<Label>, g: Rule)
    requires Inv(s) && Sized(s, g) && Sound(g) && Run(s, ls).Some? && forall l :: l in ls ==> Allowed(l, g)
    ensures Inv(Run(s, ls).value) && Sized(Run(s, ls).value, g)
    decreases |ls|
  {
    if ls != [] {
      var n := |ls| - 1;
      RunSized(s, ls[..n], g);
      var t := Run(s, ls[..n]).value;
      assert Allowed(ls[n], g);
      SizedStep(t, ls[n], g);
      StepInv(t, ls[n]);
    }
  }

  /** The buckets' sizes. */
  function Caps(): (r: seq<nat>)
    ensures |r| == NUM_BUCKETS && forall i :: 0 <= i < NUM_BUCKETS ==> r[i] == BucketBytes(i)
  {
    seq(NUM_BUCKETS, (i: nat) => BucketBytes(i))
  }

  function Zeros(): (r: seq<nat>)
    ensures |r| == NUM_BUCKETS && forall i :: 0 <= i < NUM_BUCKETS ==> r[i] == 0
  {
    seq(NUM_BUCKETS, (i: nat) => 0)
  }

  /** Whatever the element sizes, a bucket's blocks are no larger than the bucket. */
  ghost function AnySizes(): Rule { Rule((iset size: nat | Whole(size)), Zeros(), Caps(), false) }

  predicate Whole(size: nat) { size >= 0 }

  lemma {:induction false} AnySizesSound()
    ensures Sound(AnySizes())
  {
    forall size: nat, len: nat, b: nat | b < NUM_BUCKETS && Served(size, len, b)
      ensures Bounded(AnySizes(), b, DriverBytes(b, size))
    {
      WholeMultiples(BucketBytes(b), size);
    }
  }

  // ---- footprint ----

  function Bytes(live: map<nat, nat>, ps: seq<nat>): nat {
    if ps == [] then 0 else (if ps[0] in live then live[ps[0]] else 0) + Bytes(live, ps[1..])
  }

  lemma {:induction false} BytesConcat(live: map<nat, nat>, a: seq<nat>, b: seq<nat>)
    ensures Bytes(live, a + b) == Bytes(live, a) + Bytes(live, b)
  {
    if a == [] {
      assert a + b == b;
    } else {
      BytesConcat(live, a[1..], b);
      assert (a + b)[1..] == a[1..] + b;
    }
  }

  /** No block of the stack is larger than bucket `i`. */
  ghost predicate StackAtMost(live: map<nat, nat>, st: seq<nat>, i: nat) {
    forall p :: p in st && p in live ==> live[p] <= BucketBytes(i)
  }

  lemma {:induction false} StackBytes(live: map<nat, nat>, st: seq<nat>, i: nat)
    requires StackAtMost(live, st, i)
    ensures Bytes(live, st) <= |st| * BucketBytes(i)
  {
    if st != [] {
      assert forall p :: p in st[1..] ==> p in st;
      StackBytes(live, st[1..], i);
      assert |st| * BucketBytes(i) == BucketBytes(i) + |st[1..]| * BucketBytes(i);
    }
  }

  /** Total size of `n` consecutive buckets from bucket `i`. */
  function BucketSum(i: nat, n: nat): nat
    decreases n
  {
    if n == 0 then 0 else BucketBytes(i) + BucketSum(i + 1, n - 1)
  }

  lemma {:induction false} BucketSumClosed(i: nat, n: nat)
    ensures BucketSum(i, n) + Pow2(i + MIN_BUCKET_LOG2) == Pow2(i + n + MIN_BUCKET_LOG2)
    decreases n
  {
    if n > 0 {
      BucketSumClosed(i + 1, n - 1);
      assert i + 1 + MIN_BUCKET_LOG2 - 1 == i + MIN_BUCKET_LOG2;
      assert Pow2(i + 1 + MIN_BUCKET_LOG2) == 2 * Pow2(i + MIN_BUCKET_LOG2);
    }
  }

  lemma {:induction false} StacksBytes(live: map<nat, nat>, stacks: seq<seq<nat>>, base: nat, cap: nat)
    requires forall i :: 0 <= i < |stacks| ==> |stacks[i]| <= cap && StackAtMost(live, stacks[i], base + i)
    ensures Bytes(live, Concat(stacks)) <= cap * BucketSum(base, |stacks|)
  {
    if stacks != [] {
      StackBytes(live, stacks[0], base);
      MulMono(|stacks[0]|, cap, BucketBytes(base));
      StacksBytes(live, stacks[1..], base + 1, cap);
      BytesConcat(live, stacks[0], Concat(stacks[1..]));
      Distribute(cap, BucketBytes(base), BucketSum(base + 1, |stacks| - 1));
    }
  }

  ghost predicate FrontWithin(live: map<nat, nat>, f: seq<seq<nat>>, n: nat) {
    |f| == n && forall i :: 0 <= i < |f| ==> |f[i]| <= FRONT_CAP && StackAtMost(live, f[i], 0 + i)
  }

  lemma {:induction false} FrontsBytes(live: map<nat, nat>, fronts: seq<seq<seq<nat>>>, n: nat, each: nat)
    requires FRONT_CAP * BucketSum(0, n) == each
    requires forall t :: 0 <= t < |fronts| ==> FrontWithin(live, fronts[t], n)
    ensures Bytes(live, ConcatFronts(fronts)) <= |fronts| * each
  {
    if fronts != [] {
      assert FrontWithin(live, fronts[0], n);
      StacksBytes(live, fronts[0], 0, FRONT_CAP);
      FrontsBytes(live, fronts[1..], n, each);
      BytesConcat(live, Concat(fronts[0]), ConcatFronts(fronts[1..]));
      OneMore(|fronts| - 1, each);
    }
  }

  lemma {:induction false} PowersAt(low: nat, high: nat)
    requires low == 10 && high == 29
    ensures Pow2(low) == 0x400 && Pow2(high) == 0x2000_0000
  {
    Pow2At10And28();
    assert Pow2(high) == 2 * Pow2(high - 1);
  }

  lemma {:induction false} BucketTotal(n: nat, low: nat, high: nat)
    requires n == NUM_BUCKETS && low == 10 && high == 29
    ensures BucketSum(0, n) == 0x2000_0000 - 0x400
  {
    SumBetween(n, low, high);
    PowersAt(low, high);
  }

  lemma {:induction false} SumBetween(n: nat, low: nat, high: nat)
    requires low == MIN_BUCKET_LOG2 && high == n + low
    ensures BucketSum(0, n) + Pow2(low) == Pow2(high)
  {
    BucketSumClosed(0, n);
  }

  /** What `n` front caches of four and a back stack of `m` blocks hold, per `k` bytes of buckets. */
  function Limit(n: nat, m: nat, k: nat): nat { (4 * n + m) * k }

  lemma {:induction false} Collect(a: nat, b: nat, n: nat, m: nat, k: nat, each: nat)
    requires each == 4 * k && a <= n * each && b <= m * k
    ensures a + b <= Limit(n, m, k)
  {
    assert n * each == 4 * n * k;
  }

  ghost predicate BackWithin(live: map<nat, nat>, back: seq<seq<nat>>, max: nat) {
    forall i :: 0 <= i < |back| ==> |back[i]| <= max && StackAtMost(live, back[i], 0 + i)
  }

  lemma {:induction false} BackBytes(live: map<nat, nat>, back: seq<seq<nat>>, max: nat, k: nat)
    requires k == BucketSum(0, |back|) && BackWithin(live, back, max)
    ensures Bytes(live, Concat(back)) <= max * k
  {
    StacksBytes(live, back, 0, max);
  }

  lemma {:induction false} StoreBytes(live: map<nat, nat>, fronts: seq<seq<seq<nat>>>, back: seq<seq<nat>>, max: nat,
                                      k: nat)
    requires k == BucketSum(0, |back|) && BackWithin(live, back, max)
    requires forall t :: 0 <= t < |fronts| ==> FrontWithin(live, fronts[t], |back|)
    ensures Bytes(live, ConcatFronts(fronts) + Concat(back)) <= Limit(|fronts|, max, k)
  {
    var a, b := Bytes(live, ConcatFronts(fronts)), Bytes(live, Concat(back));
    FrontsBytes(live, fronts, |back|, FRONT_CAP * k);
    BackBytes(live, back, max, k);
    Collect(a, b, |fronts|, max, k, FRONT_CAP * k);
    BytesConcat(live, ConcatFronts(fronts), Concat(back));
  }

  lemma {:induction false} AtMostBucket(live: map<nat, nat>, st: seq<nat>, i: nat)
    requires i < NUM_BUCKETS && StackSized(live, st, AnySizes(), i)
    ensures StackAtMost(live, st, i)
  {
    forall p | p in st && p in live ensures live[p] <= BucketBytes(i) {
      assert Bounded(AnySizes(), i, live[p]);
    }
  }

  /** Every stack is within its bucket and its limit. */
  ghost predicate Stored(s: State) {
    && BackWithin(s.driver.live, s.back, s.max)
    && forall t :: 0 <= t < |s.fronts| ==> FrontWithin(s.driver.live, s.fronts[t], |s.back|)
  }

  lemma {:induction false} StoreWithin(s: State)
    requires Shaped(s) && WithinLimits(s) && Sized(s, AnySizes())
    ensures Stored(s)
  {
    forall i | 0 <= i < |s.back| ensures StackAtMost(s.driver.live, s.back[i], i) {
      AtMostBucket(s.driver.live, s.back[i], i);
    }
    forall t, i | 0 <= t < |s.fronts| && 0 <= i < |s.fronts[t]| ensures StackAtMost(s.driver.live, s.fronts[t][i], i) {
      AtMostBucket(s.driver.live, s.fronts[t][i], i);
    }
  }

  lemma {:induction false} RunWithin(s0: State, ls: seq<Label>, s: State)
    requires Fresh(s0) && Run(s0, ls) == Some(s)
    ensures Stored(s)
  {
    FreshInv(s0);
    FreshSized(s0, AnySizes());
    AnySizesSound();
    forall l | l in ls ensures Allowed(l, AnySizes()) {
      assert (l.AllocFront? || l.AllocMiss? || l.AllocBypass?) ==> Whole(l.size);
    }
    RunSized(s0, ls, AnySizes());
    StoreWithin(s);
  }

  lemma {:induction false} StoredBytes(s: State, k: nat)
    requires Stored(s) && k == BucketSum(0, |s.back|)
    ensures Bytes(s.driver.live, ConcatFronts(s.fronts) + Concat(s.back)) <= Limit(|s.fronts|, s.max, k)
  {
    StoreBytes(s.driver.live, s.fronts, s.back, s.max, k);
  }

  lemma {:induction false} RunTotal(s0: State, ls: seq<Label>, s: State, k: nat)
    requires Fresh(s0) && Run(s0, ls) == Some(s) && k == 0x2000_0000 - 0x400
    ensures k == BucketSum(0, |s.back|)
  {
    BucketTotal(|s.back|, 10, 29);
  }

  lemma {:induction false} RunBytes(s0: State, ls: seq<Label>, s: State, k: nat)
    requires Fresh(s0) && Run(s0, ls) == Some(s) && k == 0x2000_0000 - 0x400
    ensures Bytes(s.driver.live, ConcatFronts(s.fronts) + Concat(s.back)) <= Limit(|s.fronts|, s.max, k)
  {
    RunWithin(s0, ls, s);
    RunTotal(s0, ls, s, k);
    StoredBytes(s, k);
  }

  /** Cached memory never exceeds (4 T + max) (2^29 - 2^10) bytes, T being the threads that
      have touched the pool, whatever the element sizes. */
  lemma {:induction false} Footprint(s0: State, ls: seq<Label>, s: State)
    requires Fresh(s0) && Run(s0, ls) == Some(s)
    ensures Bytes(s.driver.live, Cached(s)) <= (4 * |s.fronts| + s.max) * (0x2000_0000 - 0x400)
  {
    RunBytes(s0, ls, s, 0x2000_0000 - 0x400);
  }
}
