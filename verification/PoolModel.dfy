/** The device-memory pool as a step system over any number of threads.

    Each of the three tiers is one atomic step of the calling thread: its own front stack,
    the locked back stack, the driver. Between two tiers every other thread may run. */
module PoolModel {
  import opened Wrappers
  import opened PoolSizes

  /** A device buffer: where it is, how many elements of which size, and the bucket its block
      came from, -1 when it bypassed the pool. */
  datatype Buf = Buf(ptr: nat, len: nat, size: nat, bucket: int)

  /** What a thread is in the middle of. */
  datatype Phase =
    | Idle
    | WantBack(idx: nat, len: nat, size: nat)     // alloc missed the front stack
    | WantDriver(idx: nat, len: nat, size: nat)   // and the back stack
    | PushBack(ptr: nat)                          // drop found the front stack full

  /** The driver's allocator: live blocks with their sizes, and what was asked of it. `bad`
      records that a block that was not live has been freed. */
  datatype Driver = Driver(live: map<nat, nat>, allocs: nat, frees: nat, bad: bool)

  function Allocate(d: Driver, p: nat, bytes: nat): Driver {
    d.(live := d.live[p := bytes], allocs := d.allocs + 1)
  }

  function Free(d: Driver, p: nat): Driver {
    if p in d.live then d.(live := d.live - {p}, frees := d.frees + 1) else d.(bad := true)
  }

  function FreeAll(d: Driver, ps: seq<nat>): Driver
    decreases |ps|
  {
    if ps == [] then d else FreeAll(Free(d, ps[0]), ps[1..])
  }

  /** `clients` are the pooled buffers in clients' hands, `moved` those taken out by
      `into_inner`, `hollow` counts buffers without a block, and `rc` is the strong count of
      the stream, the pool's own reference included. */
  datatype State = State(
    max: nat,
    fronts: seq<seq<seq<nat>>>,
    back: seq<seq<nat>>,
    phases: seq<Phase>,
    driver: Driver,
    clients: map<nat, Buf>,
    moved: map<nat, Buf>,
    hollow: nat,
    rc: nat,
    closed: bool)

  datatype Label =
    | Spawn                                                       // a thread first touches the pool
    | AllocFront(t: nat, len: nat, size: nat)
    | AllocMiss(t: nat, len: nat, size: nat)
    | AllocBack(t: nat)
    | AllocDriver(t: nat, given: Option<nat>)                     // None: the driver call failed
    | AllocBypass(t: nat, len: nat, size: nat, given: Option<nat>)
    | AllocEmpty(t: nat)
    | DropFront(t: nat, ptr: nat)
    | DropMiss(t: nat, ptr: nat)
    | DropBack(t: nat)
    | DropBypass(t: nat, ptr: nat)
    | DropEmpty
    | IntoInner(ptr: nat)
    | DropMoved(ptr: nat)
    | Shrink
    | Close

  /** One empty stack per bucket. */
  function EmptyFront(): (r: seq<seq<nat>>)
    ensures |r| == NUM_BUCKETS && forall i :: 0 <= i < NUM_BUCKETS ==> r[i] == []
  {
    seq(NUM_BUCKETS, (i: nat) => [])
  }

  predicate Shaped(s: State) {
    && |s.phases| == |s.fronts|
    && |s.back| == NUM_BUCKETS
    && (forall t :: 0 <= t < |s.fronts| ==> |s.fronts[t]| == NUM_BUCKETS)
    && forall t :: 0 <= t < |s.phases| ==> PhaseShaped(s.phases[t])
  }

  predicate PhaseShaped(p: Phase) {
    (p.WantBack? || p.WantDriver?) ==>
      p.idx < NUM_BUCKETS && p.size > 0 && BucketForBytes(p.len * p.size) == Some(p.idx)
  }

  predicate IdleThread(s: State, t: nat) { t < |s.phases| && s.phases[t].Idle? && !s.closed }

  /** Some thread is already dropping the buffer at `ptr`. */
  predicate Dropping(s: State, ptr: nat) {
    exists t :: 0 <= t < |s.phases| && s.phases[t] == PushBack(ptr)
  }

  predicate Bucketed(len: nat, size: nat) {
    size > 0 && BucketForBytes(len * size).Some?
  }

  function IdxOf(len: nat, size: nat): (i: nat)
    requires Bucketed(len, size)
    ensures i < NUM_BUCKETS
  {
    BucketIsLeast(len * size, 0);
    BucketForBytes(len * size).value
  }

  /** The driver hands out only addresses that are not live, and never null. */
  predicate FreshOk(s: State, given: Option<nat>) {
    given.Some? ==> given.value != 0 && given.value !in s.driver.live
  }

  predicate MayDrop(s: State, t: nat, ptr: nat) {
    IdleThread(s, t) && ptr in s.clients && !Dropping(s, ptr)
  }

  predicate PooledBuf(s: State, ptr: nat) {
    ptr in s.clients && 0 <= s.clients[ptr].bucket < NUM_BUCKETS
  }

  /** Nothing borrows the pool: no thread is inside it and no pooled buffer is out. */
  predicate Exclusive(s: State) {
    !s.closed && s.clients == map[] && forall t :: 0 <= t < |s.phases| ==> s.phases[t].Idle?
  }

  predicate Enabled(s: State, l: Label)
    requires Shaped(s)
  {
    match l
    case Spawn => !s.closed
    case AllocFront(t, len, size) => IdleThread(s, t) && Bucketed(len, size) && s.fronts[t][IdxOf(len, size)] != []
    case AllocMiss(t, len, size) => IdleThread(s, t) && Bucketed(len, size) && s.fronts[t][IdxOf(len, size)] == []
    case AllocBack(t) => t < |s.phases| && s.phases[t].WantBack?
    case AllocDriver(t, given) => t < |s.phases| && s.phases[t].WantDriver? && FreshOk(s, given)
    case AllocBypass(t, len, size, given) =>
      IdleThread(s, t) && size > 0 && len > 0 && BucketForBytes(len * size).None? && FreshOk(s, given)
    case AllocEmpty(t) => IdleThread(s, t)
    case DropFront(t, ptr) => MayDrop(s, t, ptr) && PooledBuf(s, ptr)
      && |s.fronts[t][s.clients[ptr].bucket]| < FRONT_CAP
    case DropMiss(t, ptr) => MayDrop(s, t, ptr) && PooledBuf(s, ptr)
      && |s.fronts[t][s.clients[ptr].bucket]| >= FRONT_CAP
    case DropBack(t) => t < |s.phases| && s.phases[t].PushBack? && PooledBuf(s, s.phases[t].ptr)
    case DropBypass(t, ptr) => MayDrop(s, t, ptr) && s.clients[ptr].bucket == -1
    case DropEmpty => s.hollow > 0
    case IntoInner(ptr) => ptr in s.clients && !Dropping(s, ptr)
    case DropMoved(ptr) => ptr in s.moved
    case Shrink => Exclusive(s)
    case Close => Exclusive(s)
  }

  function Last(st: seq<nat>): nat
    requires st != []
  {
    st[|st| - 1]
  }

  function Init(st: seq<nat>): seq<nat>
    requires st != []
  {
    st[..|st| - 1]
  }

  /** Hand the block at `p` to a client; the buffer clones the stream's reference. */
  function Grant(s: State, p: nat, len: nat, size: nat, bucket: int): State {
    s.(clients := s.clients[p := Buf(p, len, size, bucket)], rc := s.rc + 1)
  }

  /** A client's pooled buffer is gone; its reference to the stream with it. */
  function Release(s: State, p: nat): State {
    s.(clients := s.clients - {p}, rc := Pred(s.rc))
  }

  function SetFront(s: State, t: nat, i: nat, st: seq<nat>): State
    requires Shaped(s) && t < |s.fronts| && i < NUM_BUCKETS
  {
    s.(fronts := s.fronts[t := s.fronts[t][i := st]])
  }

  function SetBack(s: State, i: nat, st: seq<nat>): State
    requires Shaped(s) && i < NUM_BUCKETS
  {
    s.(back := s.back[i := st])
  }

  function SetPhase(s: State, t: nat, p: Phase): State
    requires t < |s.phases|
  {
    s.(phases := s.phases[t := p])
  }

  /** All cached blocks, in the order `shrink` frees them. */
  function Concat(stacks: seq<seq<nat>>): seq<nat> {
    if stacks == [] then [] else stacks[0] + Concat(stacks[1..])
  }

  function ConcatFronts(fronts: seq<seq<seq<nat>>>): seq<nat> {
    if fronts == [] then [] else Concat(fronts[0]) + ConcatFronts(fronts[1..])
  }

  function Cached(s: State): seq<nat> { ConcatFronts(s.fronts) + Concat(s.back) }

  function EmptyFronts(n: nat): (r: seq<seq<seq<nat>>>)
    ensures |r| == n && forall t :: 0 <= t < n ==> r[t] == EmptyFront()
  {
    seq(n, (t: nat) => EmptyFront())
  }

  /** Every cached block goes back to the driver. */
  function Emptied(s: State): State {
    s.(driver := FreeAll(s.driver, Cached(s)),
    fronts := EmptyFronts(|s.fronts|),
    back := EmptyFront())
  }

  function PopFront(s: State, t: nat, i: nat, len: nat, size: nat): State
    requires Shaped(s) && t < |s.fronts| && i < NUM_BUCKETS && s.fronts[t][i] != []
  {
    Grant(SetFront(s, t, i, Init(s.fronts[t][i])), Last(s.fronts[t][i]), len, size, i)
  }

  function PopBack(s: State, t: nat, i: nat, len: nat, size: nat): State
    requires Shaped(s) && t < |s.phases| && i < NUM_BUCKETS
  {
    if s.back[i] == [] then SetPhase(s, t, WantDriver(i, len, size))
    else Grant(SetPhase(SetBack(s, i, Init(s.back[i])), t, Idle), Last(s.back[i]), len, size, i)
  }

  /** Ask the driver for `bytes`; on success a client gets the block. */
  function AskDriver(s: State, given: Option<nat>, bytes: nat, len: nat, size: nat, bucket: int): State {
    if given.None? then s
    else Grant(s.(driver := Allocate(s.driver, given.value, bytes)), given.value, len, size, bucket)
  }

  function GiveBack(s: State, ptr: nat): State { s.(driver := Free(s.driver, ptr)) }

  /** A buffer that `into_inner` took out of the pool is gone. */
  function Forget(s: State, ptr: nat): State { s.(moved := s.moved - {ptr}, rc := Pred(s.rc)) }

  /** The pool itself and its reference to the stream are gone. */
  function Shut(s: State): State { s.(closed := true, rc := Pred(s.rc)) }

  function PushFront(s: State, t: nat, i: nat, ptr: nat): State
    requires Shaped(s) && t < |s.fronts| && i < NUM_BUCKETS
  {
    Release(SetFront(s, t, i, s.fronts[t][i] + [ptr]), ptr)
  }

  function PushOrFree(s: State, t: nat, i: nat, ptr: nat): State
    requires Shaped(s) && t < |s.phases| && i < NUM_BUCKETS
  {
    if |s.back[i]| < s.max then Release(SetPhase(SetBack(s, i, s.back[i] + [ptr]), t, Idle), ptr)
    else Release(GiveBack(SetPhase(s, t, Idle), ptr), ptr)
  }

  function Pred(n: nat): nat { if n > 0 then n - 1 else 0 }

  function Apply(s: State, l: Label): State
    requires Shaped(s) && Enabled(s, l)
  {
    match l
    case Spawn => s.(fronts := s.fronts + [EmptyFront()], phases := s.phases + [Idle])
    case AllocFront(t, len, size) => PopFront(s, t, IdxOf(len, size), len, size)
    case AllocMiss(t, len, size) => SetPhase(s, t, WantBack(IdxOf(len, size), len, size))
    case AllocBack(t) => PopBack(s, t, s.phases[t].idx, s.phases[t].len, s.phases[t].size)
    case AllocDriver(t, given) =>
      AskDriver(SetPhase(s, t, Idle), given, DriverBytes(s.phases[t].idx, s.phases[t].size),
                s.phases[t].len, s.phases[t].size, s.phases[t].idx)
    case AllocBypass(t, len, size, given) => AskDriver(s, given, len * size, len, size, -1)
    case AllocEmpty(t) => s.(hollow := s.hollow + 1, rc := s.rc + 1)
    case DropFront(t, ptr) => PushFront(s, t, s.clients[ptr].bucket, ptr)
    case DropMiss(t, ptr) => SetPhase(s, t, PushBack(ptr))
    case DropBack(t) => PushOrFree(s, t, s.clients[s.phases[t].ptr].bucket, s.phases[t].ptr)
    case DropBypass(t, ptr) => Release(GiveBack(s, ptr), ptr)
    case DropEmpty => s.(hollow := s.hollow - 1, rc := Pred(s.rc))
    case IntoInner(ptr) => s.(clients := s.clients - {ptr}, moved := s.moved[ptr := s.clients[ptr]])
    case DropMoved(ptr) => Forget(GiveBack(s, ptr), ptr)
    case Shrink => Emptied(s)
    case Close => Shut(Emptied(s))
  }

  /** A new pool on an idle driver that may already serve others: only what this pool asks
      for is counted. */
  ghost predicate Fresh(s: State) {
    && s.fronts == [] && s.phases == [] && s.back == EmptyFront()
    && s.driver == Driver(map[], 0, 0, false)
    && s.clients == map[] && s.moved == map[] && s.hollow == 0 && s.rc == 1 && !s.closed
  }

  lemma {:induction false} AllocShaped(s: State, l: Label)
    requires Shaped(s) && Enabled(s, l) && (l.AllocFront? || l.AllocMiss? || l.AllocBypass? || l.AllocEmpty?)
    ensures Shaped(Apply(s, l))
  {
  }

  lemma {:induction false} AllocBackShaped(s: State, l: Label)
    requires Shaped(s) && Enabled(s, l) && (l.AllocBack? || l.AllocDriver?)
    ensures Shaped(Apply(s, l))
  {
    assert PhaseShaped(s.phases[l.t]);
  }

  lemma {:induction false} DropShaped(s: State, l: Label)
    requires Shaped(s) && Enabled(s, l) && (l.DropFront? || l.DropMiss? || l.DropBack? || l.DropBypass?)
    ensures Shaped(Apply(s, l))
  {
  }

  lemma {:induction false} ApplyShaped(s: State, l: Label)
    requires Shaped(s) && Enabled(s, l)
    ensures Shaped(Apply(s, l))
  {
    if l.AllocFront? || l.AllocMiss? || l.AllocBypass? || l.AllocEmpty? {
      AllocShaped(s, l);
    } else if l.AllocBack? || l.AllocDriver? {
      AllocBackShaped(s, l);
    } else if l.DropFront? || l.DropMiss? || l.DropBack? || l.DropBypass? {
      DropShaped(s, l);
    }
  }

  function Run(s: State, ls: seq<Label>): (r: Option<State>)
    requires Shaped(s)
    ensures r.Some? ==> Shaped(r.value)
    decreases |ls|
  {
    if ls == [] then Some(s)
    else
      match Run(s, ls[..|ls| - 1])
      case None => None
      case Some(t) =>
        var l := ls[|ls| - 1];
        if Enabled(t, l) then ApplyShaped(t, l); Some(Apply(t, l)) else None
  }

  lemma {:induction false} RunOne(s: State, ls: seq<Label>, l: Label)
    requires Shaped(s) && Run(s, ls).Some? && Enabled(Run(s, ls).value, l)
    ensures Run(s, ls + [l]) == Some(Apply(Run(s, ls).value, l))
  {
    assert (ls + [l])[..|ls + [l]| - 1] == ls;
  }

  lemma {:induction false} RunConcat(s: State, a: seq<Label>, b: seq<Label>)
    requires Shaped(s) && Run(s, a).Some? && Run(Run(s, a).value, b).Some?
    ensures Run(s, a + b) == Run(Run(s, a).value, b)
    decreases |b|
  {
    if b == [] {
      assert a + b == a;
    } else {
      RunConcat(s, a, b[..|b| - 1]);
      assert (a + b)[..|a + b| - 1] == a + b[..|b| - 1];
    }
  }
}
