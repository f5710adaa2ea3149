/** What every run of the pool keeps, whatever the threads do. */
module PoolProofs {
  import opened Wrappers
  import opened Counting
  import opened PoolSizes
  import opened PoolModel

  // ---- counting blocks in stacks ----

  function CountStacks(stacks: seq<seq<nat>>, p: nat): nat {
    if stacks == [] then 0 else Count(stacks[0], p) + CountStacks(stacks[1..], p)
  }

  function CountFronts(fronts: seq<seq<seq<nat>>>, p: nat): nat {
    if fronts == [] then 0 else CountStacks(fronts[0], p) + CountFronts(fronts[1..], p)
  }

  lemma {:induction false} CountStacksUpdate(stacks: seq<seq<nat>>, i: nat, st: seq<nat>, p: nat)
    requires i < |stacks|
    ensures CountStacks(stacks[i := st], p) + Count(stacks[i], p) == CountStacks(stacks, p) + Count(st, p)
  {
    if i == 0 {
      assert stacks[i := st][1..] == stacks[1..];
    } else {
      CountStacksUpdate(stacks[1..], i - 1, st, p);
      assert stacks[i := st][1..] == stacks[1..][i - 1 := st];
    }
  }

  lemma {:induction false} CountFrontsUpdate(fronts: seq<seq<seq<nat>>>, t: nat, f: seq<seq<nat>>, p: nat)
    requires t < |fronts|
    ensures CountFronts(fronts[t := f], p) + CountStacks(fronts[t], p) == CountFronts(fronts, p) + CountStacks(f, p)
  {
    if t == 0 {
      assert fronts[t := f][1..] == fronts[1..];
    } else {
      CountFrontsUpdate(fronts[1..], t - 1, f, p);
      assert fronts[t := f][1..] == fronts[1..][t - 1 := f];
    }
  }

  lemma {:induction false} CountFrontsSnoc(fronts: seq<seq<seq<nat>>>, f: seq<seq<nat>>, p: nat)
    ensures CountFronts(fronts + [f], p) == CountFronts(fronts, p) + CountStacks(f, p)
  {
    if fronts == [] {
      assert CountFronts([f][1..], p) == 0;
    } else {
      CountFrontsSnoc(fronts[1..], f, p);
      assert (fronts + [f])[1..] == fronts[1..] + [f];
    }
  }

  lemma {:induction false} CountEmptyStacks(stacks: seq<seq<nat>>, p: nat)
    requires forall i :: 0 <= i < |stacks| ==> stacks[i] == []
    ensures CountStacks(stacks, p) == 0
  {
    if stacks != [] { CountEmptyStacks(stacks[1..], p); }
  }

  lemma {:induction false} CountEmptyFronts(fronts: seq<seq<seq<nat>>>, p: nat)
    requires forall t :: 0 <= t < |fronts| ==> fronts[t] == EmptyFront()
    ensures CountFronts(fronts, p) == 0
  {
    if fronts != [] {
      CountEmptyStacks(EmptyFront(), p);
      CountEmptyFronts(fronts[1..], p);
    }
  }

  lemma {:induction false} CountConcatStacks(stacks: seq<seq<nat>>, p: nat)
    ensures Count(Concat(stacks), p) == CountStacks(stacks, p)
  {
    if stacks != [] {
      CountConcatStacks(stacks[1..], p);
      CountConcat(stacks[0], Concat(stacks[1..]), p);
    }
  }

  lemma {:induction false} CountConcatFronts(fronts: seq<seq<seq<nat>>>, p: nat)
    ensures Count(ConcatFronts(fronts), p) == CountFronts(fronts, p)
  {
    if fronts != [] {
      CountConcatFronts(fronts[1..], p);
      CountConcatStacks(fronts[0], p);
      CountConcat(Concat(fronts[0]), ConcatFronts(fronts[1..]), p);
    }
  }

  lemma {:induction false} CountCached(s: State, p: nat)
    ensures Count(Cached(s), p) == CountFronts(s.fronts, p) + CountStacks(s.back, p)
  {
    CountConcat(ConcatFronts(s.fronts), Concat(s.back), p);
    CountConcatFronts(s.fronts, p);
    CountConcatStacks(s.back, p);
  }

  // ---- ownership ----

  /** In how many places block `p` is: with a client, taken out of the pool, or cached. */
  function Owners(s: State, p: nat): nat {
    (if p in s.clients then 1 else 0) + (if p in s.moved then 1 else 0) + CountFronts(s.fronts, p)
      + CountStacks(s.back, p)
  }

  /** Every live block has exactly one owner, nothing dead has any, and no block was ever
      freed twice. */
  ghost predicate Owned(s: State) {
    && (forall p: nat :: Owners(s, p) == if p in s.driver.live then 1 else 0)
    && !s.driver.bad
    && s.driver.allocs == s.driver.frees + |s.driver.live|
  }

  lemma {:induction false} SetFrontOwners(s: State, t: nat, i: nat, st: seq<nat>, p: nat)
    requires Shaped(s) && t < |s.fronts| && i < NUM_BUCKETS
    ensures Owners(SetFront(s, t, i, st), p) + Count(s.fronts[t][i], p) == Owners(s, p) + Count(st, p)
  {
    CountStacksUpdate(s.fronts[t], i, st, p);
    CountFrontsUpdate(s.fronts, t, s.fronts[t][i := st], p);
  }

  lemma {:induction false} SetBackOwners(s: State, i: nat, st: seq<nat>, p: nat)
    requires Shaped(s) && i < NUM_BUCKETS
    ensures Owners(SetBack(s, i, st), p) + Count(s.back[i], p) == Owners(s, p) + Count(st, p)
  {
    CountStacksUpdate(s.back, i, st, p);
  }

  lemma {:induction false} InitCount(st: seq<nat>, p: nat)
    requires st != []
    ensures Count(st, p) == Count(Init(st), p) + if Last(st) == p then 1 else 0
  {
  }

  /** A cached block is live and no client has it. */
  lemma {:induction false} CachedOwned(s: State, t: nat, i: nat, p: nat)
    requires Shaped(s) && Owned(s) && i < NUM_BUCKETS
    requires (t < |s.fronts| && p in s.fronts[t][i]) || p in s.back[i]
    ensures p in s.driver.live && p !in s.clients && p !in s.moved
  {
    if t < |s.fronts| && p in s.fronts[t][i] {
      CountPositive(s.fronts[t][i], p);
      CountStacksUpdate(s.fronts[t], i, [], p);
      CountFrontsUpdate(s.fronts, t, s.fronts[t][i := []], p);
    } else {
      CountPositive(s.back[i], p);
      CountStacksUpdate(s.back, i, [], p);
    }
    assert Owners(s, p) >= 1;
  }

  /** A client's block is live and nowhere else. */
  lemma {:induction false} ClientOwned(s: State, p: nat)
    requires Owned(s) && (p in s.clients || p in s.moved)
    ensures p in s.driver.live && !(p in s.clients && p in s.moved)
    ensures CountFronts(s.fronts, p) == 0 && CountStacks(s.back, p) == 0
  {
    assert Owners(s, p) >= 1;
    assert Owners(s, p) == if p in s.driver.live then 1 else 0;
  }

  lemma {:induction false} OwnedPopFront(s: State, t: nat, i: nat, len: nat, size: nat)
    requires Shaped(s) && Owned(s) && t < |s.fronts| && i < NUM_BUCKETS && s.fronts[t][i] != []
    ensures Owned(PopFront(s, t, i, len, size))
  {
    var u := PopFront(s, t, i, len, size);
    var st := s.fronts[t][i];
    CachedOwned(s, t, i, Last(st));
    forall p: nat ensures Owners(u, p) == Owners(s, p) {
      SetFrontOwners(s, t, i, Init(st), p);
      InitCount(st, p);
    }
  }

  lemma {:induction false} OwnedPopBack(s: State, t: nat, i: nat, len: nat, size: nat)
    requires Shaped(s) && Owned(s) && t < |s.phases| && i < NUM_BUCKETS
    ensures Owned(PopBack(s, t, i, len, size))
  {
    var u := PopBack(s, t, i, len, size);
    var st := s.back[i];
    if st != [] {
      CachedOwned(s, |s.fronts|, i, Last(st));
      forall p: nat ensures Owners(u, p) == Owners(s, p) {
        SetBackOwners(s, i, Init(st), p);
        InitCount(st, p);
      }
    } else {
      assert forall p: nat :: Owners(u, p) == Owners(s, p);
    }
  }

  lemma {:induction false} OwnedAskDriver(s: State, given: Option<nat>, bytes: nat, len: nat, size: nat, bucket: int)
    requires Owned(s) && FreshOk(s, given)
    ensures Owned(AskDriver(s, given, bytes, len, size, bucket))
  {
    var u := AskDriver(s, given, bytes, len, size, bucket);
    if given.Some? {
      assert Owners(s, given.value) == 0;
      forall p: nat ensures Owners(u, p) == if p in u.driver.live then 1 else 0 {
        assert Owners(s, p) == if p in s.driver.live then 1 else 0;
      }
      assert u.driver.live.Keys == s.driver.live.Keys + {given.value};
    }
  }

  lemma {:induction false} OwnedPushFront(s: State, t: nat, i: nat, ptr: nat)
    requires Shaped(s) && Owned(s) && t < |s.fronts| && i < NUM_BUCKETS && ptr in s.clients
    ensures Owned(PushFront(s, t, i, ptr))
  {
    var u := PushFront(s, t, i, ptr);
    ClientOwned(s, ptr);
    forall p: nat ensures Owners(u, p) == Owners(s, p) {
      SetFrontOwners(s, t, i, s.fronts[t][i] + [ptr], p);
      CountSnoc(s.fronts[t][i], ptr, p);
    }
  }

  /** Freeing the block of a buffer that is being dropped. */
  lemma {:induction false} FreeClient(s: State, ptr: nat)
    requires Owned(s) && ptr in s.clients
    ensures Owned(Release(GiveBack(s, ptr), ptr))
  {
    var u := Release(GiveBack(s, ptr), ptr);
    ClientOwned(s, ptr);
    forall p: nat ensures Owners(u, p) == if p in u.driver.live then 1 else 0 {
      assert Owners(s, p) == if p in s.driver.live then 1 else 0;
    }
    assert u.driver.live.Keys == s.driver.live.Keys - {ptr};
  }

  lemma {:induction false} OwnedPushOrFree(s: State, t: nat, i: nat, ptr: nat)
    requires Shaped(s) && Owned(s) && t < |s.phases| && i < NUM_BUCKETS && ptr in s.clients
    ensures Owned(PushOrFree(s, t, i, ptr))
  {
    var u := PushOrFree(s, t, i, ptr);
    if |s.back[i]| < s.max {
      ClientOwned(s, ptr);
      forall p: nat ensures Owners(u, p) == Owners(s, p) {
        SetBackOwners(s, i, s.back[i] + [ptr], p);
        CountSnoc(s.back[i], ptr, p);
      }
    } else {
      var r := SetPhase(s, t, Idle);
      assert Owned(r) by {
        assert forall p: nat :: Owners(r, p) == Owners(s, p);
      }
      FreeClient(r, ptr);
    }
  }

  lemma {:induction false} OwnedForget(s: State, ptr: nat)
    requires Owned(s) && ptr in s.moved
    ensures Owned(Forget(GiveBack(s, ptr), ptr))
  {
    var u := Forget(GiveBack(s, ptr), ptr);
    ClientOwned(s, ptr);
    forall p: nat ensures Owners(u, p) == if p in u.driver.live then 1 else 0 {
      assert Owners(s, p) == if p in s.driver.live then 1 else 0;
    }
    assert u.driver.live.Keys == s.driver.live.Keys - {ptr};
  }

  lemma {:induction false} OwnedIntoInner(s: State, ptr: nat)
    requires Shaped(s) && Owned(s) && Enabled(s, IntoInner(ptr))
    ensures Owned(Apply(s, IntoInner(ptr)))
  {
    ClientOwned(s, ptr);
    var u := Apply(s, IntoInner(ptr));
    assert forall p: nat :: Owners(u, p) == Owners(s, p);
  }

  /** Freeing distinct live blocks one after the other frees exactly those. */
  lemma {:induction false} FreeAllExact(d: Driver, ps: seq<nat>)
    requires !d.bad && d.allocs == d.frees + |d.live|
    requires forall p: nat :: Count(ps, p) <= 1 && (Count(ps, p) == 1 ==> p in d.live)
    ensures var e := FreeAll(d, ps);
            && !e.bad && e.allocs == d.allocs && e.allocs == e.frees + |e.live|
            && forall p: nat :: p in e.live <==> p in d.live && Count(ps, p) == 0
    ensures forall p: nat :: p in FreeAll(d, ps).live ==> FreeAll(d, ps).live[p] == d.live[p]
    decreases |ps|
  {
    if ps != [] {
      var d' := Free(d, ps[0]);
      forall p: nat ensures Count(ps, p) == Count(ps[1..], p) + if ps[0] == p then 1 else 0 {
        assert ps == [ps[0]] + ps[1..];
        CountConcat([ps[0]], ps[1..], p);
        CountSnoc([], ps[0], p);
        assert [] + [ps[0]] == [ps[0]];
      }
      assert Count(ps, ps[0]) >= 1;
      assert d'.live.Keys == d.live.Keys - {ps[0]};
      FreeAllExact(d', ps[1..]);
    }
  }

  /** `shrink` frees every cached block once and keeps every other. */
  lemma {:induction false} EmptiedExact(s: State)
    requires Shaped(s) && Owned(s)
    ensures Owned(Emptied(s))
    ensures forall p: nat :: p in Emptied(s).driver.live <==> p in s.clients || p in s.moved
    ensures Emptied(s).driver.allocs == s.driver.allocs
    ensures forall p: nat :: p in Emptied(s).driver.live ==> Emptied(s).driver.live[p] == s.driver.live[p]
  {
    forall p: nat ensures Count(Cached(s), p) <= 1 && (Count(Cached(s), p) == 1 ==> p in s.driver.live) {
      CountCached(s, p);
      assert Owners(s, p) == if p in s.driver.live then 1 else 0;
    }
    FreeAllExact(s.driver, Cached(s));
    var u := Emptied(s);
    forall p: nat ensures Owners(u, p) == if p in u.driver.live then 1 else 0
                  ensures p in u.driver.live <==> p in s.clients || p in s.moved
    {
      CountCached(s, p);
      assert Owners(s, p) == if p in s.driver.live then 1 else 0;
      CountEmptyStacks(EmptyFront(), p);
      CountEmptyFronts(u.fronts, p);
    }
  }

  /** Steps that move no block. */
  lemma {:induction false} OwnedSame(s: State, u: State)
    requires Owned(s) && u.driver == s.driver && u.clients == s.clients && u.moved == s.moved
    requires u.fronts == s.fronts && u.back == s.back
    ensures Owned(u)
  {
    assert forall p: nat :: Owners(u, p) == Owners(s, p);
  }

  lemma {:induction false} OwnedSpawn(s: State)
    requires Shaped(s) && Owned(s) && Enabled(s, Spawn)
    ensures Owned(Apply(s, Spawn))
  {
    forall p: nat ensures Owners(Apply(s, Spawn), p) == Owners(s, p) {
      CountEmptyStacks(EmptyFront(), p);
      CountFrontsSnoc(s.fronts, EmptyFront(), p);
    }
  }

  lemma {:induction false} OwnedAlloc(s: State, l: Label)
    requires Shaped(s) && Owned(s) && Enabled(s, l)
    requires l.AllocFront? || l.AllocMiss? || l.AllocBack? || l.AllocDriver? || l.AllocBypass? || l.AllocEmpty?
    ensures Owned(Apply(s, l))
  {
    match l
    case AllocFront(t, len, size) => OwnedPopFront(s, t, IdxOf(len, size), len, size);
    case AllocBack(t) => OwnedPopBack(s, t, s.phases[t].idx, s.phases[t].len, s.phases[t].size);
    case AllocDriver(t, given) =>
      var p := s.phases[t];
      OwnedSame(s, SetPhase(s, t, Idle));
      OwnedAskDriver(SetPhase(s, t, Idle), given, DriverBytes(p.idx, p.size), p.len, p.size, p.idx);
    case AllocBypass(t, len, size, given) => OwnedAskDriver(s, given, len * size, len, size, -1);
    case AllocMiss(_, _, _) => OwnedSame(s, Apply(s, l));
    case AllocEmpty(_) => OwnedSame(s, Apply(s, l));
    case _ =>
  }

  lemma {:induction false} OwnedDrop(s: State, l: Label)
    requires Shaped(s) && Owned(s) && Enabled(s, l)
    requires l.DropFront? || l.DropMiss? || l.DropBack? || l.DropBypass? || l.DropEmpty? || l.DropMoved?
    ensures Owned(Apply(s, l))
  {
    match l
    case DropFront(t, ptr) => OwnedPushFront(s, t, s.clients[ptr].bucket, ptr);
    case DropBack(t) => OwnedPushOrFree(s, t, s.clients[s.phases[t].ptr].bucket, s.phases[t].ptr);
    case DropBypass(t, ptr) => FreeClient(s, ptr);
    case DropMoved(ptr) => OwnedForget(s, ptr);
    case DropMiss(_, _) => OwnedSame(s, Apply(s, l));
    case DropEmpty => OwnedSame(s, Apply(s, l));
    case _ =>
  }

  lemma {:induction false} OwnedStep(s: State, l: Label)
    requires Shaped(s) && Owned(s) && Enabled(s, l)
    ensures Owned(Apply(s, l))
  {
    if l.Spawn? {
      OwnedSpawn(s);
    } else if l.IntoInner? {
      OwnedIntoInner(s, l.ptr);
    } else if l.Shrink? || l.Close? {
      EmptiedExact(s);
      OwnedSame(Emptied(s), Shut(Emptied(s)));
    } else if l.AllocFront? || l.AllocMiss? || l.AllocBack? || l.AllocDriver? || l.AllocBypass? || l.AllocEmpty? {
      OwnedAlloc(s, l);
    } else {
      OwnedDrop(s, l);
    }
  }

  // ---- capacity ----

  /** A request of `len` elements of `size` bytes is served from bucket `b`. */
  predicate Served(size: nat, len: nat, b: nat) { size > 0 && BucketForBytes(len * size) == Some(b) }

  /** Element sizes in use, and bounds on the blocks of each bucket. With `fits` the lower bound
      is meant to hold every request. */
  datatype Rule = Rule(sizes: iset<nat>, lo: seq<nat>, hi: seq<nat>, fits: bool)

  predicate Bounded(g: Rule, i: int, bytes: nat) {
    0 <= i < |g.lo| && i < |g.hi| ==> g.lo[i] <= bytes <= g.hi[i]
  }

  /** The driver's blocks for the sizes in use are within the bounds. */
  ghost predicate Sound(g: Rule) {
    && |g.lo| == NUM_BUCKETS == |g.hi|
    && forall size, len, b: nat :: size in g.sizes && b < NUM_BUCKETS && Served(size, len, b) ==>
                                Bounded(g, b, DriverBytes(b, size)) && (g.fits ==> len * size <= g.lo[b])
  }

  ghost predicate StackSized(live: map<nat, nat>, st: seq<nat>, g: Rule, i: nat) {
    forall p :: p in st && p in live ==> Bounded(g, i, live[p])
  }

  ghost predicate BufSized(live: map<nat, nat>, b: Buf, g: Rule) {
    b.ptr in live ==>
      (g.fits ==> b.len * b.size <= live[b.ptr])
      && (b.bucket >= 0 ==> Bounded(g, b.bucket, live[b.ptr]))
  }

  /** Every block in a bucket is within the bucket's bounds, and with `fits` every buffer's
      block has room for its elements. */
  ghost predicate Sized(s: State, g: Rule) {
    && (forall t, i :: 0 <= t < |s.fronts| && 0 <= i < |s.fronts[t]| ==>
        StackSized(s.driver.live, s.fronts[t][i], g, i))
    && (forall i :: 0 <= i < |s.back| ==> StackSized(s.driver.live, s.back[i], g, i))
    && (forall p :: p in s.clients ==> s.clients[p].ptr == p && BufSized(s.driver.live, s.clients[p], g))
    && (forall p :: p in s.moved ==> s.moved[p].ptr == p && BufSized(s.driver.live, s.moved[p], g))
    && (forall t :: 0 <= t < |s.phases| && s.phases[t].WantDriver? ==> s.phases[t].size in g.sizes)
    && (forall t :: 0 <= t < |s.phases| && s.phases[t].WantBack? ==> s.phases[t].size in g.sizes)
  }

  /** The request's element size is one in use. */
  ghost predicate Allowed(l: Label, g: Rule) {
    (l.AllocFront? || l.AllocMiss? || l.AllocBypass?) ==> l.size in g.sizes
  }

  /** Fewer live blocks leave sizes as they were. */
  lemma {:induction false} SizedDriver(s: State, u: State, g: Rule)
    requires Shaped(s) && Sized(s, g) && Shaped(u)
    requires u.fronts == s.fronts && u.back == s.back && u.clients == s.clients && u.moved == s.moved
             && u.phases == s.phases
    requires forall p :: p in u.driver.live ==> p in s.driver.live && u.driver.live[p] == s.driver.live[p]
    ensures Sized(u, g)
  {
  }

  lemma {:induction false} SizedGrant(s: State, p: nat, len: nat, size: nat, bucket: int, g: Rule)
    requires Shaped(s) && Sized(s, g) && p in s.driver.live && (g.fits ==> len * size <= s.driver.live[p])
    requires bucket >= 0 ==> Bounded(g, bucket, s.driver.live[p])
    ensures Sized(Grant(s, p, len, size, bucket), g)
  {
  }

  lemma {:induction false} SizedSetFront(s: State, t: nat, i: nat, st: seq<nat>, g: Rule)
    requires Shaped(s) && Sized(s, g) && t < |s.fronts| && i < NUM_BUCKETS && StackSized(s.driver.live, st, g, i)
    ensures Shaped(SetFront(s, t, i, st)) && Sized(SetFront(s, t, i, st), g)
  {
  }

  lemma {:induction false} SizedSetBack(s: State, i: nat, st: seq<nat>, g: Rule)
    requires Shaped(s) && Sized(s, g) && i < NUM_BUCKETS && StackSized(s.driver.live, st, g, i)
    ensures Shaped(SetBack(s, i, st)) && Sized(SetBack(s, i, st), g)
  {
  }

  lemma {:induction false} SizedSetPhase(s: State, t: nat, p: Phase, g: Rule)
    requires Shaped(s) && Sized(s, g) && t < |s.phases| && PhaseShaped(p)
    requires p.WantBack? || p.WantDriver? ==> p.size in g.sizes
    ensures Shaped(SetPhase(s, t, p)) && Sized(SetPhase(s, t, p), g)
  {
  }

  lemma {:induction false} SizedRelease(s: State, p: nat, g: Rule)
    requires Shaped(s) && Sized(s, g)
    ensures Shaped(Release(s, p)) && Sized(Release(s, p), g)
  {
  }

  lemma {:induction false} InitSized(live: map<nat, nat>, st: seq<nat>, g: Rule, i: nat)
    requires st != [] && StackSized(live, st, g, i)
    ensures StackSized(live, Init(st), g, i)
    ensures Last(st) in live ==> Bounded(g, i, live[Last(st)])
  {
    assert forall p :: p in Init(st) ==> p in st;
    assert Last(st) in st;
  }

  lemma {:induction false} SizedPopFront(s: State, t: nat, i: nat, len: nat, size: nat, g: Rule)
    requires Shaped(s) && Sized(s, g) && Owned(s) && Sound(g) && t < |s.fronts| && i < NUM_BUCKETS
             && s.fronts[t][i] != []
    requires g.fits ==> len * size <= g.lo[i]
    ensures Sized(PopFront(s, t, i, len, size), g)
  {
    var st := s.fronts[t][i];
    CachedOwned(s, t, i, Last(st));
    InitSized(s.driver.live, st, g, i);
    SizedSetFront(s, t, i, Init(st), g);
    SizedGrant(SetFront(s, t, i, Init(st)), Last(st), len, size, i, g);
  }

  lemma {:induction false} SizedPopSome(s: State, t: nat, i: nat, len: nat, size: nat, g: Rule)
    requires Shaped(s) && Sized(s, g) && Owned(s) && Sound(g) && t < |s.phases| && i < NUM_BUCKETS && s.back[i] != []
    requires g.fits ==> len * size <= g.lo[i]
    ensures Sized(PopBack(s, t, i, len, size), g)
  {
    var st := s.back[i];
    CachedOwned(s, |s.fronts|, i, Last(st));
    InitSized(s.driver.live, st, g, i);
    SizedSetBack(s, i, Init(st), g);
    SizedSetPhase(SetBack(s, i, Init(st)), t, Idle, g);
    SizedGrant(SetPhase(SetBack(s, i, Init(st)), t, Idle), Last(st), len, size, i, g);
  }

  lemma {:induction false} SizedPopBack(s: State, t: nat, i: nat, len: nat, size: nat, g: Rule)
    requires Shaped(s) && Sized(s, g) && Owned(s) && Sound(g) && t < |s.phases| && s.phases[t] == WantBack(i, len, size)
    ensures Sized(PopBack(s, t, i, len, size), g)
  {
    if s.back[i] == [] {
      SizedSetPhase(s, t, WantDriver(i, len, size), g);
    } else {
      assert Served(size, len, i);
      SizedPopSome(s, t, i, len, size, g);
    }
  }

  /** No buffer or stack mentions an address that is not live. */
  lemma {:induction false} DeadUnmentioned(s: State, p: nat)
    requires Shaped(s) && Owned(s) && p !in s.driver.live
    ensures p !in s.clients && p !in s.moved
    ensures forall i :: 0 <= i < NUM_BUCKETS ==> p !in s.back[i]
    ensures forall t, i :: 0 <= t < |s.fronts| && 0 <= i < NUM_BUCKETS ==> p !in s.fronts[t][i]
  {
    assert Owners(s, p) == 0;
    forall t, i | 0 <= t < |s.fronts| && 0 <= i < NUM_BUCKETS ensures p !in s.fronts[t][i] {
      if p in s.fronts[t][i] { CachedOwned(s, t, i, p); }
    }
    forall i | 0 <= i < NUM_BUCKETS ensures p !in s.back[i] {
      if p in s.back[i] { CachedOwned(s, |s.fronts|, i, p); }
    }
  }

  lemma {:induction false} SizedAllocate(s: State, p: nat, bytes: nat, g: Rule)
    requires Shaped(s) && Sized(s, g) && Owned(s) && p !in s.driver.live
    ensures Sized(s.(driver := Allocate(s.driver, p, bytes)), g)
  {
    DeadUnmentioned(s, p);
  }

  lemma {:induction false} SizedAskDriver(s: State, given: Option<nat>, bytes: nat, len: nat, size: nat, bucket: int,
                                          g: Rule)
    requires Shaped(s) && Sized(s, g) && Owned(s) && FreshOk(s, given)
    requires (g.fits ==> len * size <= bytes) && (bucket >= 0 ==> Bounded(g, bucket, bytes))
    ensures Sized(AskDriver(s, given, bytes, len, size, bucket), g)
  {
    if given.Some? {
      SizedAllocate(s, given.value, bytes, g);
      SizedGrant(s.(driver := Allocate(s.driver, given.value, bytes)), given.value, len, size, bucket, g);
    }
  }

  lemma {:induction false} SizedPush(s: State, st: seq<nat>, ptr: nat, i: nat, g: Rule)
    requires Shaped(s) && Sized(s, g) && ptr in s.clients && s.clients[ptr].bucket == i
    requires StackSized(s.driver.live, st, g, i)
    ensures StackSized(s.driver.live, st + [ptr], g, i)
  {
    assert BufSized(s.driver.live, s.clients[ptr], g);
  }

  lemma {:induction false} SizedAllocFront(s: State, t: nat, len: nat, size: nat, g: Rule)
    requires Shaped(s) && Sized(s, g) && Owned(s) && Sound(g) && Enabled(s, AllocFront(t, len, size)) && size in g.sizes
    ensures Sized(Apply(s, AllocFront(t, len, size)), g)
  {
    assert Served(size, len, IdxOf(len, size));
    SizedPopFront(s, t, IdxOf(len, size), len, size, g);
  }

  lemma {:induction false} SizedAllocDriver(s: State, t: nat, given: Option<nat>, g: Rule)
    requires Shaped(s) && Sized(s, g) && Owned(s) && Sound(g) && Enabled(s, AllocDriver(t, given))
    ensures Sized(Apply(s, AllocDriver(t, given)), g)
  {
    var p := s.phases[t];
    var r := SetPhase(s, t, Idle);
    SizedSetPhase(s, t, Idle, g);
    OwnedSame(s, r);
    assert Served(p.size, p.len, p.idx);
    SizedAskDriver(r, given, DriverBytes(p.idx, p.size), p.len, p.size, p.idx, g);
  }

  lemma {:induction false} SizedAlloc(s: State, l: Label, g: Rule)
    requires Shaped(s) && Sized(s, g) && Owned(s) && Sound(g) && Enabled(s, l) && Allowed(l, g)
    requires l.AllocFront? || l.AllocMiss? || l.AllocBack? || l.AllocDriver? || l.AllocBypass?
    ensures Sized(Apply(s, l), g)
  {
    match l
    case AllocFront(t, len, size) => SizedAllocFront(s, t, len, size, g);
    case AllocMiss(t, len, size) => SizedSetPhase(s, t, WantBack(IdxOf(len, size), len, size), g);
    case AllocBack(t) => SizedPopBack(s, t, s.phases[t].idx, s.phases[t].len, s.phases[t].size, g);
    case AllocDriver(t, given) => SizedAllocDriver(s, t, given, g);
    case AllocBypass(t, len, size, given) => SizedAskDriver(s, given, len * size, len, size, -1, g);
    case _ =>
  }

  lemma {:induction false} SizedIntoInner(s: State, ptr: nat, g: Rule)
    requires Shaped(s) && Sized(s, g) && Enabled(s, IntoInner(ptr))
    ensures Sized(Apply(s, IntoInner(ptr)), g)
  {
  }

  lemma {:induction false} SizedSpawn(s: State, g: Rule)
    requires Shaped(s) && Sized(s, g) && Enabled(s, Spawn)
    ensures Sized(Apply(s, Spawn), g)
  {
  }

  lemma {:induction false} SizedDropFront(s: State, t: nat, ptr: nat, g: Rule)
    requires Shaped(s) && Sized(s, g) && Enabled(s, DropFront(t, ptr))
    ensures Sized(Apply(s, DropFront(t, ptr)), g)
  {
    var i := s.clients[ptr].bucket;
    SizedPush(s, s.fronts[t][i], ptr, i, g);
    SizedSetFront(s, t, i, s.fronts[t][i] + [ptr], g);
    SizedRelease(SetFront(s, t, i, s.fronts[t][i] + [ptr]), ptr, g);
  }

  lemma {:induction false} SizedForget(s: State, ptr: nat, g: Rule)
    requires Shaped(s) && Sized(s, g)
    ensures Sized(Forget(s, ptr), g)
  {
  }

  lemma {:induction false} SizedDrop(s: State, l: Label, g: Rule)
    requires Shaped(s) && Sized(s, g) && Enabled(s, l)
    requires l.DropFront? || l.DropMiss? || l.DropBack? || l.DropBypass? || l.DropEmpty? || l.DropMoved?
    ensures Sized(Apply(s, l), g)
  {
    match l
    case DropFront(t, ptr) => SizedDropFront(s, t, ptr, g);
    case DropMiss(t, ptr) => SizedSetPhase(s, t, PushBack(ptr), g);
    case DropBack(t) => SizedDropBack(s, t, g);
    case DropBypass(t, ptr) =>
      SizedDriver(s, GiveBack(s, ptr), g);
      SizedRelease(GiveBack(s, ptr), ptr, g);
    case DropMoved(ptr) =>
      SizedDriver(s, GiveBack(s, ptr), g);
      SizedForget(GiveBack(s, ptr), ptr, g);
    case _ =>
  }

  lemma {:induction false} SizedDropBack(s: State, t: nat, g: Rule)
    requires Shaped(s) && Sized(s, g) && Enabled(s, DropBack(t))
    ensures Sized(Apply(s, DropBack(t)), g)
  {
    var ptr := s.phases[t].ptr;
    var i := s.clients[ptr].bucket;
    if |s.back[i]| < s.max {
      SizedPush(s, s.back[i], ptr, i, g);
      SizedSetBack(s, i, s.back[i] + [ptr], g);
      SizedSetPhase(SetBack(s, i, s.back[i] + [ptr]), t, Idle, g);
      SizedRelease(SetPhase(SetBack(s, i, s.back[i] + [ptr]), t, Idle), ptr, g);
    } else {
      SizedSetPhase(s, t, Idle, g);
      var r := SetPhase(s, t, Idle);
      SizedDriver(r, GiveBack(r, ptr), g);
      SizedRelease(GiveBack(r, ptr), ptr, g);
    }
  }

  lemma {:induction false} SizedNoStacks(s: State, u: State, g: Rule)
    requires Shaped(s) && Sized(s, g) && Shaped(u)
    requires u.clients == s.clients && u.moved == s.moved && u.phases == s.phases && u.back == EmptyFront()
    requires u.fronts == EmptyFronts(|s.fronts|)
    requires forall p :: p in u.driver.live ==> p in s.driver.live && u.driver.live[p] == s.driver.live[p]
    ensures Sized(u, g)
  {
  }

  lemma {:induction false} SizedEmptied(s: State, g: Rule)
    requires Shaped(s) && Sized(s, g) && Owned(s)
    ensures Shaped(Emptied(s)) && Sized(Emptied(s), g)
  {
    EmptiedExact(s);
    forall p | p in Emptied(s).driver.live ensures p in s.driver.live {
      ClientOwned(s, p);
    }
    SizedNoStacks(s, Emptied(s), g);
  }

  lemma {:induction false} SizedShut(s: State, g: Rule)
    requires Sized(s, g)
    ensures Sized(Shut(s), g)
  {
  }

  lemma {:induction false} SizedStep(s: State, l: Label, g: Rule)
    requires Shaped(s) && Sized(s, g) && Owned(s) && Sound(g) && Enabled(s, l) && Allowed(l, g)
    ensures Sized(Apply(s, l), g)
  {
    if l.Shrink? || l.Close? {
      SizedEmptied(s, g);
      SizedShut(Emptied(s), g);
    } else if l.AllocFront? || l.AllocMiss? || l.AllocBack? || l.AllocDriver? || l.AllocBypass? {
      SizedAlloc(s, l, g);
    } else if l.DropFront? || l.DropMiss? || l.DropBack? || l.DropBypass? || l.DropEmpty? || l.DropMoved? {
      SizedDrop(s, l, g);
    } else if l.IntoInner? {
      SizedIntoInner(s, l.ptr, g);
    } else if l.Spawn? {
      SizedSpawn(s, g);
    }
  }
}
