/** The pool's invariant: ownership, reference count, limits and drops in progress. */
module PoolInvariant {
  import opened Wrappers
  import opened Counting
  import opened PoolSizes
  import opened PoolModel
  import opened PoolProofs

  // ---- counters, limits and drops in progress ----

  /** The stream's strong count is the pool's reference plus one per buffer in existence. */
  predicate RcExact(s: State) {
    s.rc == (if s.closed then 0 else 1) + |s.clients| + |s.moved| + s.hollow
  }

  ghost predicate WithinLimits(s: State) {
    && (forall t, i :: 0 <= t < |s.fronts| && 0 <= i < |s.fronts[t]| ==> |s.fronts[t][i]| <= FRONT_CAP)
    && forall i :: 0 <= i < |s.back| ==> |s.back[i]| <= s.max
  }

  /** Drops in progress are of distinct pooled buffers; a dropped pool has nothing left. */
  ghost predicate DropsSound(s: State) {
    && (forall t :: 0 <= t < |s.phases| && s.phases[t].PushBack? ==> PooledBuf(s, s.phases[t].ptr))
    && (forall t, u :: 0 <= t < u < |s.phases| && s.phases[t].PushBack? ==> s.phases[t] != s.phases[u])
    && (s.closed ==> s.clients == map[] && forall t :: 0 <= t < |s.phases| ==> s.phases[t].Idle?)
  }

  ghost predicate Inv(s: State) {
    Shaped(s) && Owned(s) && RcExact(s) && WithinLimits(s) && DropsSound(s)
  }

  lemma {:induction false} GrantRc(s: State, u: State, p: nat, len: nat, size: nat, bucket: int)
    requires RcExact(s) && u.clients == s.clients && u.moved == s.moved && u.hollow == s.hollow && u.rc == s.rc
             && u.closed == s.closed
    requires p !in s.clients
    ensures RcExact(Grant(u, p, len, size, bucket))
  {
    assert Grant(u, p, len, size, bucket).clients.Keys == s.clients.Keys + {p};
  }

  lemma {:induction false} ReleaseRc(s: State, u: State, p: nat)
    requires RcExact(s) && u.clients == s.clients && u.moved == s.moved && u.hollow == s.hollow && u.rc == s.rc
             && u.closed == s.closed
    requires p in s.clients
    ensures RcExact(Release(u, p))
  {
    assert Release(u, p).clients.Keys == s.clients.Keys - {p};
  }

  lemma {:induction false} RcAskDriver(s: State, u: State, given: Option<nat>, bytes: nat, len: nat, size: nat,
                                       bucket: int)
    requires Inv(s) && FreshOk(s, given)
    requires u.clients == s.clients && u.moved == s.moved && u.hollow == s.hollow && u.rc == s.rc
             && u.closed == s.closed
    ensures RcExact(AskDriver(u, given, bytes, len, size, bucket))
  {
    if given.Some? {
      DeadUnmentioned(s, given.value);
      GrantRc(s, u.(driver := Allocate(u.driver, given.value, bytes)), given.value, len, size, bucket);
    }
  }

  lemma {:induction false} RcAllocFront(s: State, t: nat, i: nat, len: nat, size: nat)
    requires Inv(s) && t < |s.fronts| && i < NUM_BUCKETS && s.fronts[t][i] != []
    ensures RcExact(PopFront(s, t, i, len, size))
  {
    var st := s.fronts[t][i];
    CachedOwned(s, t, i, Last(st));
    GrantRc(s, SetFront(s, t, i, Init(st)), Last(st), len, size, i);
  }

  lemma {:induction false} RcAllocBack(s: State, t: nat, i: nat, len: nat, size: nat)
    requires Inv(s) && t < |s.phases| && i < NUM_BUCKETS
    ensures RcExact(PopBack(s, t, i, len, size))
  {
    var st := s.back[i];
    if st != [] {
      CachedOwned(s, |s.fronts|, i, Last(st));
      GrantRc(s, SetPhase(SetBack(s, i, Init(st)), t, Idle), Last(st), len, size, i);
    }
  }

  lemma {:induction false} RcAllocDriver(s: State, t: nat, given: Option<nat>)
    requires Inv(s) && Enabled(s, AllocDriver(t, given))
    ensures RcExact(Apply(s, AllocDriver(t, given)))
  {
    var p := s.phases[t];
    RcAskDriver(s, SetPhase(s, t, Idle), given, DriverBytes(p.idx, p.size), p.len, p.size, p.idx);
  }

  lemma {:induction false} RcAllocBypass(s: State, t: nat, len: nat, size: nat, given: Option<nat>)
    requires Inv(s) && Enabled(s, AllocBypass(t, len, size, given))
    ensures RcExact(Apply(s, AllocBypass(t, len, size, given)))
  {
    RcAskDriver(s, s, given, len * size, len, size, -1);
  }

  lemma {:induction false} RcAlloc(s: State, l: Label)
    requires Inv(s) && Enabled(s, l)
    requires l.AllocFront? || l.AllocBack? || l.AllocDriver? || l.AllocBypass?
    ensures RcExact(Apply(s, l))
  {
    match l
    case AllocFront(t, len, size) => RcAllocFront(s, t, IdxOf(len, size), len, size);
    case AllocBack(t) => RcAllocBack(s, t, s.phases[t].idx, s.phases[t].len, s.phases[t].size);
    case AllocDriver(t, given) => RcAllocDriver(s, t, given);
    case AllocBypass(t, len, size, given) => RcAllocBypass(s, t, len, size, given);
    case _ =>
  }

  lemma {:induction false} RcDropFront(s: State, t: nat, ptr: nat)
    requires Inv(s) && Enabled(s, DropFront(t, ptr))
    ensures RcExact(Apply(s, DropFront(t, ptr)))
  {
    var i := s.clients[ptr].bucket;
    ReleaseRc(s, SetFront(s, t, i, s.fronts[t][i] + [ptr]), ptr);
  }

  lemma {:induction false} RcDropBack(s: State, t: nat, i: nat, ptr: nat)
    requires Inv(s) && t < |s.phases| && i < NUM_BUCKETS && ptr in s.clients
    ensures RcExact(PushOrFree(s, t, i, ptr))
  {
    if |s.back[i]| < s.max {
      ReleaseRc(s, SetPhase(SetBack(s, i, s.back[i] + [ptr]), t, Idle), ptr);
    } else {
      ReleaseRc(s, GiveBack(SetPhase(s, t, Idle), ptr), ptr);
    }
  }

  lemma {:induction false} RcForget(s: State, ptr: nat)
    requires RcExact(s) && ptr in s.moved
    ensures RcExact(Forget(GiveBack(s, ptr), ptr))
  {
    assert (s.moved - {ptr}).Keys == s.moved.Keys - {ptr};
  }

  lemma {:induction false} RcIntoInner(s: State, ptr: nat)
    requires Inv(s) && Enabled(s, IntoInner(ptr))
    ensures RcExact(Apply(s, IntoInner(ptr)))
  {
    ClientOwned(s, ptr);
    assert (s.clients - {ptr}).Keys == s.clients.Keys - {ptr};
    assert s.moved[ptr := s.clients[ptr]].Keys == s.moved.Keys + {ptr};
  }

  lemma {:induction false} RcDrop(s: State, l: Label)
    requires Inv(s) && Enabled(s, l)
    requires l.DropFront? || l.DropBack? || l.DropBypass? || l.DropMoved? || l.IntoInner?
    ensures RcExact(Apply(s, l))
  {
    match l
    case DropFront(t, ptr) => RcDropFront(s, t, ptr);
    case DropBack(t) => RcDropBack(s, t, s.clients[s.phases[t].ptr].bucket, s.phases[t].ptr);
    case DropBypass(t, ptr) => ReleaseRc(s, GiveBack(s, ptr), ptr);
    case DropMoved(ptr) => RcForget(s, ptr);
    case IntoInner(ptr) => RcIntoInner(s, ptr);
    case _ =>
  }

  lemma {:induction false} RcStep(s: State, l: Label)
    requires Inv(s) && Enabled(s, l)
    ensures RcExact(Apply(s, l))
  {
    if l.AllocFront? || l.AllocBack? || l.AllocDriver? || l.AllocBypass? {
      RcAlloc(s, l);
    } else if l.DropFront? || l.DropBack? || l.DropBypass? || l.DropMoved? || l.IntoInner? {
      RcDrop(s, l);
    }
  }

  lemma {:induction false} LimitsSame(s: State, u: State)
    requires WithinLimits(s) && u.fronts == s.fronts && u.back == s.back && u.max == s.max
    ensures WithinLimits(u)
  {
  }

  lemma {:induction false} LimitsSetFront(s: State, t: nat, i: nat, st: seq<nat>)
    requires Shaped(s) && WithinLimits(s) && t < |s.fronts| && i < NUM_BUCKETS && |st| <= FRONT_CAP
    ensures WithinLimits(SetFront(s, t, i, st))
  {
  }

  lemma {:induction false} LimitsSetBack(s: State, i: nat, st: seq<nat>)
    requires Shaped(s) && WithinLimits(s) && i < NUM_BUCKETS && |st| <= s.max
    ensures WithinLimits(SetBack(s, i, st))
  {
  }

  lemma {:induction false} LimitsFronts(s: State, l: Label)
    requires Inv(s) && Enabled(s, l) && (l.AllocFront? || l.DropFront?)
    ensures WithinLimits(Apply(s, l))
  {
    match l
    case AllocFront(t, len, size) =>
      var i := IdxOf(len, size);
      LimitsSetFront(s, t, i, Init(s.fronts[t][i]));
      LimitsSame(SetFront(s, t, i, Init(s.fronts[t][i])), Apply(s, l));
    case DropFront(t, ptr) =>
      var i := s.clients[ptr].bucket;
      LimitsSetFront(s, t, i, s.fronts[t][i] + [ptr]);
      LimitsSame(SetFront(s, t, i, s.fronts[t][i] + [ptr]), Apply(s, l));
    case _ =>
  }

  lemma {:induction false} LimitsPopBack(s: State, t: nat, i: nat, len: nat, size: nat)
    requires Inv(s) && t < |s.phases| && i < NUM_BUCKETS
    ensures WithinLimits(PopBack(s, t, i, len, size))
  {
    if s.back[i] != [] {
      LimitsSetBack(s, i, Init(s.back[i]));
      LimitsSame(SetBack(s, i, Init(s.back[i])), PopBack(s, t, i, len, size));
    } else {
      LimitsSame(s, PopBack(s, t, i, len, size));
    }
  }

  lemma {:induction false} LimitsPushOrFree(s: State, t: nat, i: nat, ptr: nat)
    requires Inv(s) && t < |s.phases| && i < NUM_BUCKETS
    ensures WithinLimits(PushOrFree(s, t, i, ptr))
  {
    if |s.back[i]| < s.max {
      LimitsSetBack(s, i, s.back[i] + [ptr]);
      LimitsSame(SetBack(s, i, s.back[i] + [ptr]), PushOrFree(s, t, i, ptr));
    } else {
      LimitsSame(s, PushOrFree(s, t, i, ptr));
    }
  }

  lemma {:induction false} LimitsEmptied(s: State)
    ensures WithinLimits(Emptied(s)) && WithinLimits(Shut(Emptied(s)))
  {
  }

  lemma {:induction false} LimitsSpawn(s: State)
    requires WithinLimits(s)
    ensures WithinLimits(s.(fronts := s.fronts + [EmptyFront()]))
  {
  }

  lemma {:induction false} LimitsStep(s: State, l: Label)
    requires Inv(s) && Enabled(s, l)
    ensures WithinLimits(Apply(s, l))
  {
    if l.AllocFront? || l.DropFront? {
      LimitsFronts(s, l);
    } else if l.AllocBack? {
      LimitsPopBack(s, l.t, s.phases[l.t].idx, s.phases[l.t].len, s.phases[l.t].size);
    } else if l.DropBack? {
      LimitsPushOrFree(s, l.t, s.clients[s.phases[l.t].ptr].bucket, s.phases[l.t].ptr);
    } else if l.Shrink? || l.Close? {
      LimitsEmptied(s);
    } else if l.Spawn? {
      LimitsSpawn(s);
      LimitsSame(s.(fronts := s.fronts + [EmptyFront()]), Apply(s, l));
    } else {
      LimitsSame(s, Apply(s, l));
    }
  }

  // ---- drops in progress ----

  lemma {:induction false} DropsSame(s: State, u: State)
    requires DropsSound(s) && u.phases == s.phases && u.clients == s.clients && u.closed == s.closed
    ensures DropsSound(u)
  {
  }

  lemma {:induction false} DropsSetPhase(s: State, t: nat, p: Phase)
    requires DropsSound(s) && t < |s.phases| && !s.closed
    requires p.PushBack? ==> PooledBuf(s, p.ptr) && !Dropping(s, p.ptr)
    ensures DropsSound(SetPhase(s, t, p))
  {
  }

  lemma {:induction false} DropsGrant(s: State, p: nat, len: nat, size: nat, bucket: int)
    requires DropsSound(s) && !s.closed && p !in s.clients
    ensures DropsSound(Grant(s, p, len, size, bucket))
  {
  }

  lemma {:induction false} DropsRelease(s: State, p: nat)
    requires DropsSound(s) && !s.closed && !Dropping(s, p)
    ensures DropsSound(Release(s, p))
  {
  }

  lemma {:induction false} DropsPopBack(s: State, t: nat, i: nat, len: nat, size: nat)
    requires Inv(s) && t < |s.phases| && i < NUM_BUCKETS && !s.closed
    ensures DropsSound(PopBack(s, t, i, len, size))
  {
    if s.back[i] == [] {
      DropsSetPhase(s, t, WantDriver(i, len, size));
    } else {
      var u := SetBack(s, i, Init(s.back[i]));
      DropsSame(s, u);
      DropsSetPhase(u, t, Idle);
      CachedOwned(s, |s.fronts|, i, Last(s.back[i]));
      DropsGrant(SetPhase(u, t, Idle), Last(s.back[i]), len, size, i);
    }
  }

  lemma {:induction false} DropsAskDriver(s: State, u: State, given: Option<nat>, bytes: nat, len: nat, size: nat,
                                          bucket: int)
    requires Inv(s) && FreshOk(s, given) && DropsSound(u) && u.clients == s.clients && !u.closed
    ensures DropsSound(AskDriver(u, given, bytes, len, size, bucket))
  {
    if given.Some? {
      DeadUnmentioned(s, given.value);
      DropsSame(u, u.(driver := Allocate(u.driver, given.value, bytes)));
      DropsGrant(u.(driver := Allocate(u.driver, given.value, bytes)), given.value, len, size, bucket);
    }
  }

  lemma {:induction false} DropsPopFront(s: State, t: nat, i: nat, len: nat, size: nat)
    requires Inv(s) && t < |s.fronts| && i < NUM_BUCKETS && s.fronts[t][i] != [] && !s.closed
    ensures DropsSound(PopFront(s, t, i, len, size))
  {
    var st := s.fronts[t][i];
    CachedOwned(s, t, i, Last(st));
    DropsSame(s, SetFront(s, t, i, Init(st)));
    DropsGrant(SetFront(s, t, i, Init(st)), Last(st), len, size, i);
  }

  lemma {:induction false} DropsAllocDriver(s: State, t: nat, given: Option<nat>)
    requires Inv(s) && Enabled(s, AllocDriver(t, given))
    ensures DropsSound(Apply(s, AllocDriver(t, given)))
  {
    var p := s.phases[t];
    DropsSetPhase(s, t, Idle);
    DropsAskDriver(s, SetPhase(s, t, Idle), given, DriverBytes(p.idx, p.size), p.len, p.size, p.idx);
  }

  lemma {:induction false} DropsAlloc(s: State, l: Label)
    requires Inv(s) && Enabled(s, l)
    requires l.AllocFront? || l.AllocMiss? || l.AllocBack? || l.AllocDriver? || l.AllocBypass?
    ensures DropsSound(Apply(s, l))
  {
    match l
    case AllocFront(t, len, size) => DropsPopFront(s, t, IdxOf(len, size), len, size);
    case AllocMiss(t, len, size) => DropsSetPhase(s, t, WantBack(IdxOf(len, size), len, size));
    case AllocBack(t) => DropsPopBack(s, t, s.phases[t].idx, s.phases[t].len, s.phases[t].size);
    case AllocDriver(t, given) => DropsAllocDriver(s, t, given);
    case AllocBypass(t, len, size, given) => DropsAskDriver(s, s, given, len * size, len, size, -1);
    case _ =>
  }

  lemma {:induction false} DropsPushOrFree(s: State, t: nat, i: nat, ptr: nat)
    requires Inv(s) && t < |s.phases| && i < NUM_BUCKETS && !s.closed && s.phases[t] == PushBack(ptr)
    ensures DropsSound(PushOrFree(s, t, i, ptr))
  {
    var u := SetPhase(s, t, Idle);
    DropsSetPhase(s, t, Idle);
    assert !Dropping(u, ptr) by {
      forall v | 0 <= v < |u.phases| ensures u.phases[v] != PushBack(ptr) {
        assert v < t || v == t || t < v;
      }
    }
    DropsRelease(u, ptr);
    DropsSame(Release(u, ptr), PushOrFree(s, t, i, ptr));
  }

  lemma {:induction false} DropsDrop(s: State, l: Label)
    requires Inv(s) && Enabled(s, l)
    requires l.DropFront? || l.DropMiss? || l.DropBack? || l.DropBypass?
    ensures DropsSound(Apply(s, l))
  {
    match l
    case DropFront(t, ptr) =>
      DropsRelease(s, ptr);
      DropsSame(Release(s, ptr), Apply(s, l));
    case DropMiss(t, ptr) => DropsSetPhase(s, t, PushBack(ptr));
    case DropBack(t) => DropsPushOrFree(s, t, s.clients[s.phases[t].ptr].bucket, s.phases[t].ptr);
    case DropBypass(t, ptr) =>
      DropsRelease(s, ptr);
      DropsSame(Release(s, ptr), Apply(s, l));
    case _ =>
  }

  lemma {:induction false} DropsIntoInner(s: State, ptr: nat)
    requires Inv(s) && Enabled(s, IntoInner(ptr))
    ensures DropsSound(Apply(s, IntoInner(ptr)))
  {
    assert !s.closed;
    DropsRelease(s, ptr);
    DropsSame(Release(s, ptr), Apply(s, IntoInner(ptr)));
  }

  lemma {:induction false} DropsSpawn(s: State)
    requires DropsSound(s) && !s.closed
    ensures DropsSound(s.(phases := s.phases + [Idle]))
  {
  }

  lemma {:induction false} DropsStep(s: State, l: Label)
    requires Inv(s) && Enabled(s, l)
    ensures DropsSound(Apply(s, l))
  {
    if l.AllocFront? || l.AllocMiss? || l.AllocBack? || l.AllocDriver? || l.AllocBypass? {
      DropsAlloc(s, l);
    } else if l.DropFront? || l.DropMiss? || l.DropBack? || l.DropBypass? {
      DropsDrop(s, l);
    } else if l.IntoInner? {
      DropsIntoInner(s, l.ptr);
    } else if l.Spawn? {
      DropsSpawn(s);
      DropsSame(s.(phases := s.phases + [Idle]), Apply(s, l));
    } else if l.Close? {
    } else {
      DropsSame(s, Apply(s, l));
    }
  }

  lemma {:induction false} StepInv(s: State, l: Label)
    requires Inv(s) && Enabled(s, l)
    ensures Inv(Apply(s, l))
  {
    ApplyShaped(s, l);
    OwnedStep(s, l);
    RcStep(s, l);
    LimitsStep(s, l);
    DropsStep(s, l);
  }
}
