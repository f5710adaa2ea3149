/** The pool as the code runs it: fixed front arrays with a length, back stacks, buffers that
    own a pointer and a reference to the stream.

    `trace` records the steps of all threads, so everything proved of all interleavings holds
    of the object. Wherever a call holds no lock the other threads may run. */
module MemPool {
  import opened Wrappers
  import opened PoolSizes
  import opened PoolModel
  import opened PoolProofs
  import opened PoolInvariant
  import opened PoolRuns
  import opened PoolThreads
  import opened FrontCaches

  const USIZE_LIMIT: nat := 0x1_0000_0000_0000_0000

  datatype Error = SizeOverflow | OutOfMemory

  /** What the driver answers, given what is live: never null, never a live address. */
  ghost predicate Honest(gives: map<nat, nat> -> Option<nat>) {
    forall live: map<nat, nat> :: gives(live).Some? ==> gives(live).value != 0 && gives(live).value !in live
  }

  /** Past the front stack: the shared stack if it has a block, the driver otherwise. */
  function SharedPath(s: State, t: nat, idx: nat, given: Option<nat>): seq<Label>
    requires Shaped(s) && idx < NUM_BUCKETS
  {
    if s.back[idx] != [] then [AllocBack(t)] else [AllocBack(t), AllocDriver(t, given)]
  }

  /** The first tier that has a block serves it; the driver is asked last. */
  function TierPath(s: State, t: nat, idx: nat, len: nat, size: nat, given: Option<nat>): seq<Label>
    requires Shaped(s) && t < |s.fronts| && idx < NUM_BUCKETS
  {
    if s.fronts[t][idx] != [] then [AllocFront(t, len, size)]
    else [AllocMiss(t, len, size)] + SharedPath(s, t, idx, given)
  }

  /** The steps an undisturbed `alloc` takes. */
  function AllocPath(s: State, t: nat, len: nat, size: nat, given: Option<nat>): seq<Label>
    requires Shaped(s) && t < |s.fronts| && size > 0
  {
    if len * size >= USIZE_LIMIT then []
    else if len == 0 then [AllocEmpty(t)]
    else if BucketForBytes(len * size).None? then [AllocBypass(t, len, size, given)]
    else TierPath(s, t, IdxOf(len, size), len, size, given)
  }

  /** The steps an undisturbed drop of a pooled buffer takes. */
  function DropPath(s: State, t: nat, ptr: nat): seq<Label>
    requires Shaped(s) && t < |s.fronts| && ptr in s.clients && -1 <= s.clients[ptr].bucket < NUM_BUCKETS
  {
    var b := s.clients[ptr].bucket;
    if b == -1 then [DropBypass(t, ptr)]
    else if |s.fronts[t][b]| < FRONT_CAP then [DropFront(t, ptr)]
    else [DropMiss(t, ptr), DropBack(t)]
  }

  predicate EndsWith(ls: seq<Label>, l: Label) { ls != [] && ls[|ls| - 1] == l }

  lemma {:induction false} TwoMore(ls: seq<Label>, a: Label, b: Label)
    ensures ls + [a] + [b] == ls + [a, b]
  {
  }

  class MemPool {
    const max: nat
    var fronts: seq<seq<Front>>
    var back: seq<seq<nat>>
    var driver: Driver
    var rc: nat
    var index: map<nat, nat>    // which front cache each thread has
    var phases: seq<Phase>
    var clients: map<nat, Buf>
    var moved: map<nat, Buf>
    var hollow: nat
    var closed: bool
    ghost var start: State
    ghost var trace: seq<Label>

    function View(): State
      requires FrontsOk(fronts)
      reads this
    {
      State(max, Rows(fronts), back, phases, driver, clients, moved, hollow, rc, closed)
    }

    ghost predicate Valid()
      reads this
    {
      FrontsOk(fronts) && Indexed() && Fresh(start) && Run(start, trace) == Some(View())
    }

    /** Every thread that has touched the pool has a front cache. */
    ghost predicate Indexed()
      reads `index, `fronts
    {
      forall u :: u in index ==> index[u] < |fronts|
    }

    /** Thread `t` has a front cache and no call in progress. */
    ghost predicate Ready(t: nat)
      reads this
    {
      Valid() && !closed && t < |fronts| && t < |phases| && phases[t].Idle?
    }

    /** Thread `t` is inside the pool at `p`. */
    ghost predicate At(t: nat, p: Phase)
      reads this
    {
      Valid() && !closed && t < |fronts| && t < |phases| && phases[t] == p
    }

    constructor (max: nat)
      ensures Valid() && !closed && this.max == max && fronts == [] && index == map[] && trace == []
    {
      this.max := max;
      fronts, back, driver, rc := [], EmptyFront(), Driver(map[], 0, 0, false), 1;
      index, phases, clients, moved, hollow, closed := map[], [], map[], map[], 0, false;
      trace := [];
      start := State(max, [], EmptyFront(), [], Driver(map[], 0, 0, false), map[], map[], 0, 1, false);
    }

    /** The object's state is one that the step system reaches. */
    lemma {:induction false} Reached()
      requires Valid()
      ensures Inv(View())
    {
      FreshInv(start);
      RunInv(start, trace);
    }

    /** The fields have just been changed as step `l` of state `was` says: log it. */
    ghost method Took(l: Label, was: State)
      requires FrontsOk(fronts) && Indexed() && Fresh(start) && Run(start, trace) == Some(was)
      requires Shaped(was) && Enabled(was, l) && View() == Apply(was, l)
      modifies `trace
      ensures Valid() && trace == old(trace) + [l]
    {
      RunOne(start, trace, l);
      trace := trace + [l];
    }

    /** What the other threads make of the pool is reached by a run that goes on from the trace. */
    lemma {:induction false} Onwards(t: nat, u: State) returns (ls: seq<Label>)
      requires Valid() && Inside(View(), t) && ByOthers(View(), u, t)
      ensures Run(start, trace + ls) == Some(u) && Undisturbed(View(), u, t) && Shaped(u)
      ensures forall v, i :: 0 <= v < |u.fronts| && 0 <= i < |u.fronts[v]| ==> |u.fronts[v][i]| <= FRONT_CAP
    {
      Reached();
      ls :| Run(View(), ls) == Some(u) && forall l :: l in ls ==> !ByThread(l, t);
      OthersKeep(View(), ls, t);
      RunConcat(start, trace, ls);
    }

    /** No lock is held: the other threads run as `others` says. */
    method Interlude(t: nat, others: State -> State)
      requires Valid() && Inside(View(), t) && forall s: State :: ByOthers(s, others(s), t)
      modifies this
      ensures Valid() && Inside(View(), t) && Undisturbed(old(View()), View(), t)
      ensures others(old(View())) == old(View()) ==> View() == old(View()) && trace == old(trace)
    {
      var u := others(View());
      if u != View() {
        ghost var ls := Onwards(t, u);
        Adopt(t, u);
        trace := trace + ls;
      }
    }

    /** The fields become those of `u`, thread `t`'s own slots untouched. */
    method Adopt(t: nat, u: State)
      requires FrontsOk(fronts) && t < |fronts| && t < |u.fronts| && u.fronts[t] == Row(fronts[t]) && u.max == max
      requires forall v, i :: 0 <= v < |u.fronts| && 0 <= i < |u.fronts[v]| ==> |u.fronts[v][i]| <= FRONT_CAP
      modifies `fronts, `back, `driver, `rc, `phases, `clients, `moved, `hollow, `closed
      ensures FrontsOk(fronts) && View() == u
    {
      assert RowOk(fronts[t]);
      fronts := LaidOut(u.fronts, t, fronts[t]);
      back, driver, rc, phases := u.back, u.driver, u.rc, u.phases;
      clients, moved, hollow, closed := u.clients, u.moved, u.hollow, u.closed;
    }

    /** A thread's front cache: the one it has, or a new one on its first use of the pool. */
    method FrontCache(thread: nat) returns (t: nat)
      requires Valid() && !closed
      modifies `fronts, `phases, `index, `trace
      ensures Valid() && thread in index && index[thread] == t < |fronts|
      ensures thread in old(index) ==> t == old(index)[thread] && fronts == old(fronts) && trace == old(trace)
      ensures thread !in old(index) ==>
              t == |old(fronts)| && phases == old(phases) + [Idle] && trace == old(trace) + [Spawn]
      ensures forall u :: u in old(index) ==> u in index && index[u] == old(index)[u]
    {
      if thread in index {
        return index[thread];
      }
      ghost var was := View();
      t := |fronts|;
      fronts := fronts + [NewRow()];
      phases := phases + [Idle];
      index := index[thread := t];
      assert Rows(fronts) == was.fronts + [EmptyFront()];
      Took(Spawn, was);
    }

    /** `b` has just become a client's, and was nobody's. */
    ghost predicate Handed(was: map<nat, Buf>, b: Buf)
      reads `clients
    {
      b.ptr !in was && clients == was[b.ptr := b]
    }

    /** A cached block belongs to no client. */
    lemma {:induction false} CachedFree(t: nat, i: nat, p: nat)
      requires Valid() && i < NUM_BUCKETS
      requires (t < |fronts| && p in View().fronts[t][i]) || p in back[i]
      ensures p !in clients
    {
      Reached();
      CachedOwned(View(), t, i, p);
    }

    lemma {:induction false} DeadFree(p: nat)
      requires Valid() && p !in driver.live
      ensures p !in clients
    {
      Reached();
      DeadUnmentioned(View(), p);
    }

    lemma {:induction false} ClientLive(p: nat)
      requires Valid() && p in clients
      ensures p in driver.live
    {
      Reached();
      ClientOwned(View(), p);
    }

    // ---- alloc ----

    /** Tier 1: the calling thread's own stack. */
    method PopFrontTier(t: nat, idx: nat, len: nat, size: nat) returns (r: Option<Buf>)
      requires Ready(t) && Bucketed(len, size) && idx == IdxOf(len, size)
      modifies `fronts, `rc, `phases, `clients, `trace
      ensures r.Some? <==> old(View()).fronts[t][idx] != []
      ensures r.Some? ==> Ready(t) && trace == old(trace) + [AllocFront(t, len, size)]
      ensures r.Some? ==> Handed(old(clients), r.value)
      ensures r.Some? ==> r.value == Buf(Last(old(View()).fronts[t][idx]), len, size, idx)
      ensures r.None? ==> At(t, WantBack(idx, len, size)) && trace == old(trace) + [AllocMiss(t, len, size)]
      ensures r.None? ==> View() == SetPhase(old(View()), t, WantBack(idx, len, size))
    {
      ghost var was := View();
      var f := fronts[t][idx];
      if f.len > 0 {
        var ptr := f.slots[f.len - 1];
        CachedFree(t, idx, ptr);
        RowsUpdate(fronts, t, idx, Front(f.len - 1, f.slots));
        assert f.slots[..f.len - 1] == Init(f.slots[..f.len]);
        fronts := fronts[t := fronts[t][idx := Front(f.len - 1, f.slots)]];
        rc := rc + 1;
        var b := Buf(ptr, len, size, idx);
        clients := clients[ptr := b];
        Took(AllocFront(t, len, size), was);
        return Some(b);
      }
      phases := phases[t := WantBack(idx, len, size)];
      Took(AllocMiss(t, len, size), was);
      return None;
    }

    /** Tier 2: the bucket's shared stack, under its lock. */
    method PopBackTier(t: nat, idx: nat, len: nat, size: nat) returns (r: Option<Buf>)
      requires At(t, WantBack(idx, len, size)) && idx < |back|
      modifies `back, `rc, `phases, `clients, `trace
      ensures trace == old(trace) + [AllocBack(t)]
      ensures r.Some? <==> old(back)[idx] != []
      ensures r.Some? ==> Ready(t) && Handed(old(clients), r.value)
      ensures r.Some? ==> r.value == Buf(Last(old(back)[idx]), len, size, idx)
      ensures r.None? ==> At(t, WantDriver(idx, len, size))
      ensures r.None? ==> View() == SetPhase(old(View()), t, WantDriver(idx, len, size))
    {
      ghost var was := View();
      var st := back[idx];
      if |st| > 0 {
        var b := Buf(st[|st| - 1], len, size, idx);
        CachedFree(|fronts|, idx, b.ptr);
        back := back[idx := st[..|st| - 1]];
        rc := rc + 1;
        clients := clients[b.ptr := b];
        phases := phases[t := Idle];
        Took(AllocBack(t), was);
        return Some(b);
      }
      phases := phases[t := WantDriver(idx, len, size)];
      Took(AllocBack(t), was);
      return None;
    }

    /** Tier 3: ask the driver for as many whole elements as the bucket holds, then truncate. */
    method DriverTier(t: nat, idx: nat, len: nat, size: nat, given: Option<nat>) returns (r: Option<Buf>)
      requires At(t, WantDriver(idx, len, size)) && size > 0 && FreshOk(View(), given)
      modifies `driver, `rc, `phases, `clients, `trace
      ensures Ready(t) && trace == old(trace) + [AllocDriver(t, given)]
      ensures r.Some? <==> given.Some?
      ensures r.Some? ==> Handed(old(clients), r.value) && r.value == Buf(given.value, len, size, idx)
      ensures r.None? ==> clients == old(clients)
    {
      ghost var was := View();
      if given.None? {
        phases := phases[t := Idle];
        Took(AllocDriver(t, given), was);
        return None;
      }
      var b := DriverBlock(t, idx, len, size, given.value);
      return Some(b);
    }

    method DriverBlock(t: nat, idx: nat, len: nat, size: nat, ptr: nat) returns (b: Buf)
      requires At(t, WantDriver(idx, len, size)) && size > 0 && FreshOk(View(), Some(ptr))
      modifies `driver, `rc, `phases, `clients, `trace
      ensures Ready(t) && trace == old(trace) + [AllocDriver(t, Some(ptr))]
      ensures Handed(old(clients), b) && b == Buf(ptr, len, size, idx)
    {
      ghost var was := View();
      DeadFree(ptr);
      var poolLen := BucketBytes(idx) / size;
      assert poolLen * size == DriverBytes(idx, size);
      driver := Allocate(driver, ptr, poolLen * size);
      rc := rc + 1;
      b := Buf(ptr, len, size, idx);
      clients := clients[ptr := b];
      phases := phases[t := Idle];
      Took(AllocDriver(t, Some(ptr)), was);
    }

    /** An empty buffer has no block. */
    method AllocHollow(t: nat, size: nat) returns (b: Buf)
      requires Ready(t)
      modifies `rc, `hollow, `trace
      ensures Ready(t) && trace == old(trace) + [AllocEmpty(t)]
      ensures b == Buf(0, 0, size, -1) && hollow == old(hollow) + 1
    {
      ghost var was := View();
      rc := rc + 1;
      hollow := hollow + 1;
      Took(AllocEmpty(t), was);
      b := Buf(0, 0, size, -1);
    }

    /** A buffer with a block of its own. */
    method AllocOwn(t: nat, len: nat, size: nat, ptr: nat) returns (b: Buf)
      requires Ready(t) && size > 0 && len > 0 && BucketForBytes(len * size).None? && FreshOk(View(), Some(ptr))
      modifies `driver, `rc, `clients, `trace
      ensures Ready(t) && trace == old(trace) + [AllocBypass(t, len, size, Some(ptr))]
      ensures b == Buf(ptr, len, size, -1) && Handed(old(clients), b)
    {
      ghost var was := View();
      DeadFree(ptr);
      driver := Allocate(driver, ptr, len * size);
      rc := rc + 1;
      b := Buf(ptr, len, size, -1);
      clients := clients[ptr := b];
      Took(AllocBypass(t, len, size, Some(ptr)), was);
    }

    /** Too large for any bucket, or empty: `DeviceBuf::alloc` on its own. */
    method AllocBypassing(t: nat, len: nat, size: nat, given: Option<nat>) returns (r: Result<Buf, Error>)
      requires Ready(t) && size > 0 && BucketForBytes(len * size).None? && FreshOk(View(), given)
      modifies `driver, `rc, `clients, `hollow, `trace
      ensures Ready(t)
      ensures trace == old(trace) + [if len == 0 then AllocEmpty(t) else AllocBypass(t, len, size, given)]
      ensures len == 0 ==>
              r == Ok(Buf(0, 0, size, -1)) && clients == old(clients) && driver == old(driver)
                && hollow == old(hollow) + 1
      ensures len > 0 ==> if given.None? then r == Err(OutOfMemory) && clients == old(clients)
                          else r == Ok(Buf(given.value, len, size, -1)) && Handed(old(clients), r.value)
      ensures r.Ok? && len > 0 ==> r.value.ptr in driver.live
    {
      if len == 0 {
        var b := AllocHollow(t, size);
        return Ok(b);
      }
      if given.None? {
        ghost var was := View();
        Took(AllocBypass(t, len, size, given), was);
        return Err(OutOfMemory);
      }
      var b := AllocOwn(t, len, size, given.value);
      ClientLive(b.ptr);
      return Ok(b);
    }

    /** The size class that a thread is looking in exists. */
    lemma {:induction false} WantsSound(t: nat)
      requires Valid() && t < |phases|
      ensures |back| == NUM_BUCKETS && PhaseShaped(phases[t])
    {
      Reached();
    }

    /** The buffer is a client's and holds a live block. */
    ghost predicate Given(b: Buf)
      reads `clients
    {
      b.ptr in clients && clients[b.ptr] == b
    }

    /** The last step has asked the driver for a block, in the state of that moment, in vain. */
    ghost predicate AskedInVain(t: nat, gives: map<nat, nat> -> Option<nat>)
      reads this
    {
      Fresh(start) && trace != [] &&
      match Run(start, trace[..|trace| - 1])
      case Some(s) => gives(s.driver.live).None? && trace[|trace| - 1] == AllocDriver(t, None)
      case None => false
    }

    /** The driver, the other threads running before it is asked. */
    method AllocFresh(t: nat, idx: nat, len: nat, size: nat, gives: map<nat, nat> -> Option<nat>,
                      others: State -> State)
      returns (r: Option<Buf>)
      requires At(t, WantDriver(idx, len, size)) && size > 0
      requires Honest(gives) && forall s: State :: ByOthers(s, others(s), t)
      modifies this
      ensures Ready(t)
      ensures r.Some? ==> Given(r.value) && r.value == Buf(r.value.ptr, len, size, idx)
      ensures r.None? ==> AskedInVain(t, gives)
      ensures Quiet(others) ==> trace == old(trace) + [AllocDriver(t, gives(old(driver).live))]
      ensures Quiet(others) ==> if r.Some? then Handed(old(clients), r.value) else clients == old(clients)
    {
      Interlude(t, others);
      ghost var asked := trace;
      r := DriverTier(t, idx, len, size, gives(driver.live));
      assert trace[..|trace| - 1] == asked;
    }

    /** The shared stack, then the driver, the other threads running before each. */
    method AllocShared(t: nat, idx: nat, len: nat, size: nat, gives: map<nat, nat> -> Option<nat>,
                       others: State -> State)
      returns (r: Option<Buf>)
      requires At(t, WantBack(idx, len, size)) && size > 0
      requires Honest(gives) && forall s: State :: ByOthers(s, others(s), t)
      modifies this
      ensures Ready(t)
      ensures r.Some? ==> Given(r.value) && r.value == Buf(r.value.ptr, len, size, idx)
      ensures r.None? ==> AskedInVain(t, gives)
      ensures Quiet(others) ==> trace == old(trace) + SharedPath(old(View()), t, idx, gives(old(driver).live))
      ensures Quiet(others) ==> if r.Some? then Handed(old(clients), r.value) else clients == old(clients)
    {
      Interlude(t, others);
      WantsSound(t);
      r := PopBackTier(t, idx, len, size);
      if r.None? {
        r := AllocFresh(t, idx, len, size, gives, others);
      }
    }

    /** The three tiers in order. */
    method AllocTiers(t: nat, idx: nat, len: nat, size: nat, gives: map<nat, nat> -> Option<nat>,
                      others: State -> State)
      returns (r: Option<Buf>)
      requires Ready(t) && Bucketed(len, size) && idx == IdxOf(len, size)
      requires Honest(gives) && forall s: State :: ByOthers(s, others(s), t)
      modifies this
      ensures Ready(t)
      ensures r.Some? ==> Given(r.value) && r.value.ptr in driver.live && r.value == Buf(r.value.ptr, len, size, idx)
      ensures r.None? ==> AskedInVain(t, gives)
      ensures old(View()).fronts[t][idx] != [] ==> r == Some(Buf(Last(old(View()).fronts[t][idx]), len, size, idx))
      ensures Quiet(others) || old(View()).fronts[t][idx] != [] ==>
                trace == old(trace) + TierPath(old(View()), t, idx, len, size, gives(old(driver).live))
      ensures Quiet(others) ==> if r.Some? then Handed(old(clients), r.value) else clients == old(clients)
    {
      r := PopFrontTier(t, idx, len, size);
      if r.None? {
        r := AllocShared(t, idx, len, size, gives, others);
      }
      if r.Some? {
        ClientLive(r.value.ptr);
      }
    }

    /** Memory has run out: the driver was asked in vain, for a block of the request's own or in
        the last tier. */
    twostate predicate RanOut(t: nat, len: nat, size: nat, gives: map<nat, nat> -> Option<nat>)
      reads this
    {
      if BucketForBytes(len * size).None?
      then gives(old(driver).live).None? && trace == old(trace) + [AllocBypass(t, len, size, None)]
      else AskedInVain(t, gives)
    }

    /** The steps are those of an undisturbed allocation. */
    twostate predicate TookAllocPath(t: nat, len: nat, size: nat, gives: map<nat, nat> -> Option<nat>)
      requires old(Ready(t)) && size > 0
      reads this
    {
      trace == old(trace) + AllocPath(old(View()), t, len, size, gives(old(driver).live))
    }

    /** The call needs no gap between locks: no bucket, or a block in the thread's own stack. */
    ghost predicate AtOnce(t: nat, len: nat, size: nat)
      requires Ready(t) && size > 0
      reads this
    {
      BucketForBytes(len * size).None? || View().fronts[t][BucketForBytes(len * size).value] != []
    }

    /** `alloc`. Whatever the other threads do between the tiers, a buffer that is returned has
        the length asked for and a live block that no other client has, an empty request is
        always met, and a failure means that the driver had nothing; undisturbed, or when the
        call needs no gap, the steps are exactly `AllocPath`. `gives` is what the driver answers,
        and `others` what the other threads do. */
    method Alloc(t: nat, len: nat, size: nat, gives: map<nat, nat> -> Option<nat>, others: State -> State)
      returns (r: Result<Buf, Error>)
      requires Ready(t) && size > 0 && Honest(gives) && forall s: State :: ByOthers(s, others(s), t)
      modifies this
      ensures Ready(t)
      ensures r == Err(SizeOverflow) <==> len * size >= USIZE_LIMIT
      ensures r.Ok? ==> r.value.len == len && r.value.size == size
      ensures r.Ok? ==> r.value.bucket == match BucketForBytes(len * size) case Some(idx) => idx case None => -1
      ensures r.Ok? && len > 0 ==> Given(r.value) && r.value.ptr in driver.live
      ensures len == 0 ==> r == Ok(Buf(0, 0, size, -1))
      ensures r == Err(OutOfMemory) ==> len > 0 && RanOut(t, len, size, gives)
      ensures Quiet(others) || old(AtOnce(t, len, size)) ==> TookAllocPath(t, len, size, gives)
      ensures Quiet(others) && r.Ok? && len > 0 ==> Handed(old(clients), r.value)
      ensures Quiet(others) && (r.Err? || len == 0) ==> clients == old(clients)
    {
      if len * size >= USIZE_LIMIT {
        return Err(SizeOverflow);
      }
      var bucket := BucketForBytes(len * size);
      if bucket.None? {
        r := AllocBypassing(t, len, size, gives(driver.live));
      } else {
        var b := AllocTiers(t, bucket.value, len, size, gives, others);
        r := if b.None? then Err(OutOfMemory) else Ok(b.value);
      }
    }

    // ---- drop ----

    /** A buffer in a client's hands that is not being dropped: the hollow ones have a null
        pointer. */
    ghost predicate Held(b: Buf)
      requires FrontsOk(fronts)
      reads this
    {
      if b.ptr == 0 then hollow > 0 && b.bucket == -1
      else b.ptr in clients && clients[b.ptr] == b && -1 <= b.bucket < NUM_BUCKETS && !Dropping(View(), b.ptr)
    }

    /** `DeviceBuf::drop` of a buffer that bypassed the pool. */
    method DropBypassing(t: nat, b: Buf)
      requires Ready(t) && Held(b) && b.bucket == -1
      modifies `driver, `rc, `clients, `hollow, `trace
      ensures Ready(t) && trace == old(trace) + [if b.ptr == 0 then DropEmpty else DropBypass(t, b.ptr)]
    {
      ghost var was := View();
      if b.ptr != 0 {
        driver := Free(driver, b.ptr);
        clients := clients - {b.ptr};
        rc := Pred(rc);
        Took(DropBypass(t, b.ptr), was);
      } else {
        hollow := hollow - 1;
        rc := Pred(rc);
        Took(DropEmpty, was);
      }
    }

    /** Tier 1: the thread's own stack, if it has a free slot. */
    method PushFrontTier(t: nat, b: Buf) returns (done: bool)
      requires Ready(t) && Held(b) && b.bucket >= 0
      modifies `fronts, `rc, `phases, `clients, `trace
      ensures done <==> |old(View()).fronts[t][b.bucket]| < FRONT_CAP
      ensures if done then Ready(t) else At(t, PushBack(b.ptr)) && View() == SetPhase(old(View()), t, PushBack(b.ptr))
      ensures trace == old(trace) + [if done then DropFront(t, b.ptr) else DropMiss(t, b.ptr)]
    {
      ghost var was := View();
      var f := fronts[t][b.bucket];
      if f.len < FRONT_CAP {
        var g := Front(f.len + 1, f.slots[f.len := b.ptr]);
        assert g.slots[..g.len] == f.slots[..f.len] + [b.ptr];
        RowsUpdate(fronts, t, b.bucket, g);
        fronts := fronts[t := fronts[t][b.bucket := g]];
        clients := clients - {b.ptr};
        rc := Pred(rc);
        Took(DropFront(t, b.ptr), was);
        return true;
      }
      phases := phases[t := PushBack(b.ptr)];
      Took(DropMiss(t, b.ptr), was);
      return false;
    }

    /** Tiers 2 and 3: the shared stack under its lock, or the driver when that is full too. */
    method PushBackTier(t: nat, b: Buf)
      requires At(t, PushBack(b.ptr)) && Given(b) && 0 <= b.bucket < NUM_BUCKETS == |back|
      modifies `back, `driver, `rc, `phases, `clients, `trace
      ensures Ready(t) && trace == old(trace) + [DropBack(t)]
      ensures clients == old(clients) - {b.ptr}
      ensures if |old(back)[b.bucket]| < max
              then back == old(back)[b.bucket := old(back)[b.bucket] + [b.ptr]] && driver == old(driver)
              else back == old(back) && driver == Free(old(driver), b.ptr)
    {
      ghost var was := View();
      if |back[b.bucket]| < max {
        back := back[b.bucket := back[b.bucket] + [b.ptr]];
      } else {
        driver := Free(driver, b.ptr);
      }
      phases := phases[t := Idle];
      clients := clients - {b.ptr};
      rc := Pred(rc);
      Took(DropBack(t), was);
    }

    /** The front stack has no room: the shared stack, then the driver, the other threads running
        first. */
    method DropShared(t: nat, b: Buf, others: State -> State)
      requires At(t, PushBack(b.ptr)) && Given(b) && 0 <= b.bucket < NUM_BUCKETS
      requires forall s: State :: ByOthers(s, others(s), t)
      modifies this
      ensures Ready(t) && b.ptr !in clients && EndsWith(trace, DropBack(t))
      ensures Quiet(others) ==> trace == old(trace) + [DropBack(t)]
    {
      Interlude(t, others);
      WantsSound(t);
      PushBackTier(t, b);
    }

    /** The own stack of the buffer's bucket has room, or the buffer is none of a bucket. */
    ghost predicate DropsAtOnce(t: nat, b: Buf)
      requires Ready(t) && Held(b)
      reads this
    {
      b.bucket == -1 || |View().fronts[t][b.bucket]| < FRONT_CAP
    }

    /** `PooledBuf::drop`, on whichever thread it happens, the other threads free to run between
        the tiers; undisturbed, or when the call needs no gap, the steps are exactly `DropPath`. */
    method DropBuf(t: nat, b: Buf, others: State -> State)
      requires Ready(t) && Held(b) && forall s: State :: ByOthers(s, others(s), t)
      modifies this
      ensures Ready(t)
      ensures Quiet(others) || old(DropsAtOnce(t, b)) ==>
                trace == old(trace) + if b.ptr == 0 then [DropEmpty] else DropPath(old(View()), t, b.ptr)
      ensures !old(DropsAtOnce(t, b)) ==> b.ptr !in clients && EndsWith(trace, DropBack(t))
    {
      if b.bucket == -1 {
        DropBypassing(t, b);
      } else {
        var done := PushFrontTier(t, b);
        if !done {
          DropShared(t, b, others);
        }
      }
    }

    // ---- into_inner ----

    /** The buffer leaves the pool; its block and its stream reference go with it. */
    method TakeOut(b: Buf)
      requires Valid() && Held(b) && b.ptr != 0
      modifies `clients, `moved, `trace
      ensures Valid() && trace == old(trace) + [IntoInner(b.ptr)]
      ensures b.ptr !in clients && b.ptr in moved && moved[b.ptr] == b
    {
      ghost var was := View();
      clients := clients - {b.ptr};
      moved := moved[b.ptr := b];
      Took(IntoInner(b.ptr), was);
    }

    /** `DeviceBuf::drop` of a buffer that was taken out, whether or not the pool still exists:
        straight to the driver. */
    method DropTakenOut(b: Buf)
      requires Valid() && b.ptr in moved && b.ptr != 0
      modifies `driver, `rc, `moved, `trace
      ensures Valid() && trace == old(trace) + [DropMoved(b.ptr)]
      ensures b.ptr !in driver.live && closed == old(closed)
    {
      ghost var was := View();
      driver := Free(driver, b.ptr);
      rc := Pred(rc);
      moved := moved - {b.ptr};
      Took(DropMoved(b.ptr), was);
    }

    // ---- shrink ----

    /** A block wrapped in a buffer of its own and dropped at once. */
    method FreeBlock(ptr: nat)
      modifies `driver, `rc
      ensures driver == Free(old(driver), ptr) && rc == old(rc)
    {
      rc := rc + 1;
      driver := Free(driver, ptr);
      rc := rc - 1;
    }

    method FreeStack(ps: seq<nat>)
      modifies `driver, `rc
      ensures driver == FreeAll(old(driver), ps) && rc == old(rc)
    {
      var k := 0;
      while k < |ps|
        invariant k <= |ps| && rc == old(rc)
        invariant driver == FreeAll(old(driver), ps[..k])
      {
        FreeAllConcat(old(driver), ps[..k], [ps[k]]);
        assert ps[..k + 1] == ps[..k] + [ps[k]];
        FreeBlock(ps[k]);
        k := k + 1;
      }
      assert ps[..k] == ps;
    }

    /** Drain one thread's front cache, bucket by bucket. */
    method DrainFront(t: nat)
      requires FrontsOk(fronts) && t < |fronts|
      modifies `fronts, `driver, `rc
      ensures FrontsOk(fronts) && rc == old(rc)
      ensures |fronts| == |old(fronts)| && |fronts[t]| == |old(fronts)[t]| && fronts == old(fronts)[t := fronts[t]]
      ensures forall j :: 0 <= j < |fronts[t]| ==> fronts[t][j].len == 0
      ensures driver == FreeAll(old(driver), Concat(Row(old(fronts)[t])))
    {
      ghost var row := Row(fronts[t]);
      var i := 0;
      while i < |fronts[t]|
        invariant t < |fronts| && |fronts[t]| == |row| && i <= |row| && rc == old(rc)
        invariant fronts == old(fronts)[t := fronts[t]] && RowOk(fronts[t])
        invariant forall j :: 0 <= j < i ==> fronts[t][j].len == 0
        invariant forall j :: i <= j < |row| ==> fronts[t][j] == old(fronts)[t][j]
        invariant driver == FreeAll(old(driver), Concat(row[..i]))
      {
        var f := fronts[t][i];
        ConcatSnoc(row[..i], Stack(f));
        FreeAllConcat(old(driver), Concat(row[..i]), Stack(f));
        assert row[..i + 1] == row[..i] + [Stack(f)];
        FreeStack(f.slots[..f.len]);
        fronts := fronts[t := fronts[t][i := Front(0, f.slots)]];
        i := i + 1;
      }
      assert row[..i] == row;
    }

    /** Every thread's front cache. */
    method DrainFronts()
      requires FrontsOk(fronts)
      modifies `fronts, `driver, `rc
      ensures FrontsOk(fronts) && |fronts| == |old(fronts)| && rc == old(rc)
      ensures forall t :: 0 <= t < |fronts| ==> |fronts[t]| == |old(fronts)[t]|
      ensures forall t, j :: 0 <= t < |fronts| && 0 <= j < |fronts[t]| ==> fronts[t][j].len == 0
      ensures driver == FreeAll(old(driver), ConcatFronts(Rows(old(fronts))))
    {
      ghost var rows := Rows(fronts);
      var t := 0;
      while t < |fronts|
        invariant FrontsOk(fronts) && |fronts| == |rows| && t <= |rows| && rc == old(rc)
        invariant forall u :: 0 <= u < |rows| ==> |fronts[u]| == |old(fronts)[u]|
        invariant forall u, j :: 0 <= u < t && 0 <= j < |fronts[u]| ==> fronts[u][j].len == 0
        invariant forall u :: t <= u < |rows| ==> fronts[u] == old(fronts)[u]
        invariant driver == FreeAll(old(driver), ConcatFronts(rows[..t]))
      {
        FreeNextRow(old(driver), rows, t);
        DrainFront(t);
        t := t + 1;
      }
      assert rows[..t] == rows;
    }

    /** Every shared stack. */
    method DrainBack()
      requires |back| == NUM_BUCKETS
      modifies `back, `driver, `rc
      ensures back == EmptyFront() && rc == old(rc)
      ensures driver == FreeAll(old(driver), Concat(old(back)))
    {
      var i := 0;
      while i < NUM_BUCKETS
        invariant i <= NUM_BUCKETS && |back| == NUM_BUCKETS && rc == old(rc)
        invariant forall j :: 0 <= j < i ==> back[j] == []
        invariant forall j :: i <= j < NUM_BUCKETS ==> back[j] == old(back)[j]
        invariant driver == FreeAll(old(driver), Concat(old(back)[..i]))
      {
        ConcatSnoc(old(back)[..i], old(back)[i]);
        FreeAllConcat(old(driver), Concat(old(back)[..i]), old(back)[i]);
        assert old(back)[..i + 1] == old(back)[..i] + [old(back)[i]];
        var drained := back[i];
        back := back[i := []];
        FreeStack(drained);
        i := i + 1;
      }
      assert old(back)[..i] == old(back);
      assert back == EmptyFront();
    }

    /** Everything cached, fronts first: the order in which the blocks go back. */
    method DrainAll()
      requires FrontsOk(fronts) && |back| == NUM_BUCKETS
      requires forall t :: 0 <= t < |fronts| ==> |fronts[t]| == NUM_BUCKETS
      modifies `fronts, `back, `driver, `rc
      ensures FrontsOk(fronts) && Rows(fronts) == EmptyFronts(|old(fronts)|)
      ensures back == EmptyFront() && rc == old(rc)
      ensures driver == FreeAll(old(driver), ConcatFronts(Rows(old(fronts))) + Concat(old(back)))
    {
      DrainFronts();
      DrainBack();
      FreeAllConcat(old(driver), ConcatFronts(Rows(old(fronts))), Concat(old(back)));
      EmptyRows(fronts);
    }

    /** After a `shrink` nothing is cached, and what is still live is exactly what clients took
        out of the pool. */
    lemma {:induction false} Drained(was: State)
      requires Valid() && Shaped(was) && Inv(was) && Exclusive(was) && View() == Emptied(was)
      ensures Cached(View()) == []
      ensures forall p: nat :: p in driver.live <==> p in moved
      ensures !driver.bad && driver.allocs == driver.frees + |driver.live|
    {
      EmptiedExact(was);
      EmptyCache(|was.fronts|);
    }

    /** `shrink` needs the pool to itself. */
    method Shrink()
      requires Valid() && Exclusive(View())
      modifies `fronts, `back, `driver, `rc, `trace
      ensures Valid() && |fronts| == |old(fronts)| && trace == old(trace) + [PoolModel.Shrink]
      ensures rc == old(rc) && View() == Emptied(old(View())) && Exclusive(View()) && Cached(View()) == []
      ensures forall p: nat :: p in driver.live <==> p in moved
      ensures !driver.bad && driver.allocs == driver.frees + |driver.live|
    {
      ghost var was := View();
      Reached();
      DrainAll();
      assert |fronts| == |Rows(fronts)|;
      Took(PoolModel.Shrink, was);
      Drained(was);
    }

    /** With nothing cached, all that is left to do is to give up the stream. */
    lemma {:induction false} Closable()
      requires Valid() && Exclusive(View()) && Cached(View()) == []
      ensures Shaped(View()) && Enabled(View(), Close) && Apply(View(), Close) == Shut(View())
    {
      NothingToEmpty(View());
    }

    /** A pool that is gone is referred to by the surviving buffers alone. */
    lemma {:induction false} OnlySurvivors()
      requires Valid() && closed
      ensures rc == |moved| + hollow
    {
      Reached();
    }

    /** The pool's own stream reference goes: every block not taken out has been freed. */
    method Release()
      requires Valid() && Exclusive(View()) && Cached(View()) == []
      modifies `rc, `closed, `trace
      ensures Valid() && closed && trace == old(trace) + [Close] && rc == |moved| + hollow
    {
      Closable();
      ghost var was := View();
      closed, rc := true, Pred(rc);
      assert View() == Shut(was);
      Took(Close, was);
      OnlySurvivors();
    }

    /** What is live is what clients took out of the pool. */
    ghost predicate OnlyMovedLive()
      reads `driver, `moved
    {
      !driver.bad && forall p: nat :: p in driver.live <==> p in moved
    }

    /** `shrink` as the last thing that happens to a pool. */
    method ShrinkLast()
      requires Valid() && Exclusive(View())
      modifies `fronts, `back, `driver, `rc, `trace
      ensures Valid() && Exclusive(View()) && Cached(View()) == [] && trace == old(trace) + [PoolModel.Shrink]
      ensures OnlyMovedLive()
    {
      Shrink();
    }

    /** `MemPool::drop`: `shrink`, then the pool's own stream reference. */
    method Destroy()
      requires Valid() && Exclusive(View())
      modifies `fronts, `back, `driver, `rc, `closed, `trace
      ensures Valid() && closed && trace == old(trace) + [PoolModel.Shrink, Close]
      ensures OnlyMovedLive() && rc == |moved| + hollow
    {
      ShrinkLast();
      Release();
      TwoMore(old(trace), PoolModel.Shrink, Close);
    }
  }
}
