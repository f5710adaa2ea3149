/** `PinnedPool` as the code runs it: a lock per bucket, held for one push or pop, and two
    atomic counters. Between those the other threads may run. */
module PinnedPool {
  import opened Wrappers
  import opened PoolSizes
  import opened PinnedModel
  import opened PinnedProofs

  predicate ByThread(l: Label, t: nat) {
    match l
    case Spawn => false
    case Return(_) => false
    case _ => l.t == t
  }

  /** `u` is what the other threads make of `s`. */
  ghost predicate ByOthers(s: State, u: State, t: nat) {
    Shaped(s) ==> exists ls :: Run(s, ls) == Some(u) && forall l :: l in ls ==> !ByThread(l, t)
  }

  /** No other thread is running. */
  ghost predicate Quiet(others: State -> State) { forall s: State :: others(s) == s }

  lemma {:induction false} OthersKeep(s: State, ls: seq<Label>, t: nat)
    requires Shaped(s) && At(s, t) && Run(s, ls).Some? && forall l :: l in ls ==> !ByThread(l, t)
    ensures var u := Run(s, ls).value; At(u, t) && u.phases[t] == s.phases[t] && u.zeroOk == s.zeroOk
    decreases |ls|
  {
    if ls != [] {
      assert ls[|ls| - 1] in ls;
      OthersKeep(s, ls[..|ls| - 1], t);
    }
  }

  class PinnedPool {
    const zeroOk: bool
    var buckets: seq<seq<nat>>
    var allocatedBytes: nat
    var liveSlabs: nat
    var out: seq<Lease>
    var phases: seq<Phase>
    ghost var start: State
    ghost var trace: seq<Label>

    function View(): State
      reads this
    {
      State(zeroOk, buckets, out, phases, allocatedBytes, liveSlabs)
    }

    ghost predicate Valid()
      reads this
    {
      Fresh(start) && Run(start, trace) == Some(View())
    }

    /** The call on thread `t` is at `p`. */
    ghost predicate Ready(t: nat, p: Phase)
      reads this
    {
      Valid() && At(View(), t) && phases[t] == p
    }

    constructor (zeroOk: bool)
      ensures Valid() && this.zeroOk == zeroOk
      ensures allocatedBytes == 0 && liveSlabs == 0 && phases == [] && out == [] && trace == []
    {
      this.zeroOk := zeroOk;
      buckets, allocatedBytes, liveSlabs := Empty(), 0, 0;
      out, phases, trace := [], [], [];
      start := New(zeroOk);
    }

    lemma {:induction false} Reached()
      requires Valid()
      ensures Reachable(View()) && Inv(View())
    {
      assert Reaches(start, trace, View());
      ReachableInv(View());
    }

    ghost method Took(l: Label, was: State)
      requires Fresh(start) && Run(start, trace) == Some(was) && Shaped(was) && Enabled(was, l)
               && View() == Apply(was, l)
      modifies `trace
      ensures Valid() && trace == old(trace) + [l]
    {
      RunOne(start, trace, l);
      trace := trace + [l];
    }

    /** No lock is held: the other threads run as `others` says. */
    method Interlude(t: nat, others: State -> State)
      requires Valid() && At(View(), t) && forall s: State :: ByOthers(s, others(s), t)
      modifies this
      ensures Ready(t, old(phases[t]))
      ensures others(old(View())) == old(View()) ==> View() == old(View()) && trace == old(trace)
    {
      var u := others(View());
      if u != View() {
        assert ByOthers(View(), u, t);
        ghost var ls :| Run(View(), ls) == Some(u) && forall l :: l in ls ==> !ByThread(l, t);
        OthersKeep(View(), ls, t);
        RunConcat(start, trace, ls);
        buckets, out, phases, allocatedBytes, liveSlabs := u.buckets, u.out, u.phases, u.bytes, u.slabs;
        trace := trace + ls;
      }
    }

    /** The slab is the last one handed out, for this request. */
    ghost predicate Leased(requested: nat, len: nat)
      reads this
    {
      out != [] && out[|out| - 1] == Lease(BucketOf(requested).0, len, requested)
    }

    /** The bucket's lock is held for the pop alone. */
    method TakePooled(t: nat, requested: nat) returns (r: Option<nat>)
      requires Ready(t, Idle) && requested < WORD_LIMIT
      modifies `buckets, `out, `phases, `trace
      ensures trace == old(trace) + [Pop(t, requested)]
      ensures BucketOf(requested).0 < |old(buckets)|
      ensures var st := old(buckets)[BucketOf(requested).0];
              && (r.Some? <==> st != [])
              && (r.Some? ==> r.value == st[|st| - 1])
              && (r.Some? ==> buckets == old(buckets)[BucketOf(requested).0 := st[..|st| - 1]])
      ensures r.Some? ==> Ready(t, Idle) && out == old(out) + [Lease(BucketOf(requested).0, r.value, requested)]
      ensures r.None? ==> Ready(t, Wants(BucketOf(requested).0, BucketOf(requested).1, requested))
      ensures r.None? ==> out == old(out) && buckets == old(buckets)
    {
      ghost var was := View();
      Reached();
      var (idx, cap) := BucketOf(requested);
      var st := buckets[idx];
      if |st| > 0 {
        var len := st[|st| - 1];
        buckets := buckets[idx := st[..|st| - 1]];
        out := out + [Lease(idx, len, requested)];
        Took(Pop(t, requested), was);
        return Some(len);
      }
      phases := phases[t := Wants(idx, cap, requested)];
      Took(Pop(t, requested), was);
      return None;
    }

    /** The driver is asked for `cap` bytes. */
    method Ask(t: nat, idx: nat, cap: nat, requested: nat, ok: bool)
      requires Ready(t, Wants(idx, cap, requested)) && (ok ==> cap > 0 || zeroOk)
      modifies `phases, `trace
      ensures Ready(t, if ok then Got(idx, cap, requested) else Idle) && trace == old(trace) + [Alloc(t, ok)]
    {
      ghost var was := View();
      Reached();
      phases := phases[t := if ok then Got(idx, cap, requested) else Idle];
      Took(Alloc(t, ok), was);
    }

    method CountBytes(t: nat, idx: nat, cap: nat, requested: nat)
      requires Ready(t, Got(idx, cap, requested))
      modifies `allocatedBytes, `phases, `trace
      ensures Ready(t, Counted(idx, cap, requested)) && trace == old(trace) + [AddBytes(t)]
      ensures allocatedBytes == old(allocatedBytes) + cap
    {
      ghost var was := View();
      Reached();
      allocatedBytes := allocatedBytes + cap;
      phases := phases[t := Counted(idx, cap, requested)];
      Took(AddBytes(t), was);
    }

    method CountSlab(t: nat, idx: nat, cap: nat, requested: nat)
      requires Ready(t, Counted(idx, cap, requested))
      modifies `liveSlabs, `out, `phases, `trace
      ensures Ready(t, Idle) && trace == old(trace) + [AddSlab(t)]
      ensures out == old(out) + [Lease(idx, cap, requested)] && liveSlabs == old(liveSlabs) + 1
    {
      ghost var was := View();
      Reached();
      liveSlabs := liveSlabs + 1;
      out := out + [Lease(idx, cap, requested)];
      phases := phases[t := Idle];
      Took(AddSlab(t), was);
    }

    /** The two counters, one after the other; the other threads run before each. */
    method Count(t: nat, idx: nat, cap: nat, requested: nat, others: State -> State)
      requires Ready(t, Got(idx, cap, requested)) && forall s: State :: ByOthers(s, others(s), t)
      modifies this
      ensures Ready(t, Idle) && out != [] && out[|out| - 1] == Lease(idx, cap, requested)
      ensures Quiet(others) ==>
              out == old(out) + [Lease(idx, cap, requested)] && trace == old(trace) + [AddBytes(t), AddSlab(t)]
      ensures Quiet(others) ==> allocatedBytes == old(allocatedBytes) + cap && liveSlabs == old(liveSlabs) + 1
    {
      Interlude(t, others);
      CountBytes(t, idx, cap, requested);
      Interlude(t, others);
      CountSlab(t, idx, cap, requested);
    }

    /** A new slab from the driver, counted in both counters, or an error that counts nothing. */
    method TakeFresh(t: nat, idx: nat, cap: nat, requested: nat, ok: bool, others: State -> State)
      returns (r: Option<nat>)
      requires Ready(t, Wants(idx, cap, requested)) && forall s: State :: ByOthers(s, others(s), t)
      modifies this
      ensures Ready(t, Idle)
      ensures r == if ok && (cap > 0 || zeroOk) then Some(cap) else None
      ensures r.Some? ==> out != [] && out[|out| - 1] == Lease(idx, cap, requested)
      ensures Quiet(others) ==> out == old(out) + if r.Some? then [Lease(idx, cap, requested)] else []
      ensures Quiet(others) ==>
              trace == old(trace) + if r.Some? then [Alloc(t, true), AddBytes(t), AddSlab(t)] else [Alloc(t, false)]
      ensures Quiet(others) ==> allocatedBytes == old(allocatedBytes) + if r.Some? then cap else 0
      ensures Quiet(others) ==> liveSlabs == old(liveSlabs) + if r.Some? then 1 else 0
    {
      var granted := ok && (cap > 0 || zeroOk);
      Ask(t, idx, cap, requested, granted);
      if granted {
        Count(t, idx, cap, requested, others);
        return Some(cap);
      }
      return None;
    }

    /** What a request has just been given is ample, up to the limit. */
    lemma {:induction false} AmpleHere(e: Lease)
      requires Valid() && out != [] && out[|out| - 1] == e && e.requested <= AmpleBytes(zeroOk)
      ensures e.requested <= e.len
    {
      assert Reaches(start, trace, View());
      Served(View(), |out| - 1);
    }

    /** A pooled slab if the bucket has one, else a new one. */
    method Take(t: nat, requested: nat, ok: bool, others: State -> State) returns (r: Option<nat>)
      requires Ready(t, Idle) && requested < WORD_LIMIT && forall s: State :: ByOthers(s, others(s), t)
      modifies this
      ensures Ready(t, Idle)
      ensures r.Some? ==> Leased(requested, r.value)
      ensures BucketOf(requested).0 < |old(buckets)|
      ensures var st, cap := old(buckets)[BucketOf(requested).0], BucketOf(requested).1;
              if st != [] then r == Some(st[|st| - 1]) && trace == old(trace) + [Pop(t, requested)]
              else r == if ok && (cap > 0 || zeroOk) then Some(cap) else None
      ensures Quiet(others) ==>
              out == old(out) + if r.Some? then [Lease(BucketOf(requested).0, r.value, requested)] else []
    {
      r := TakePooled(t, requested);
      if r.None? {
        var (idx, cap) := BucketOf(requested);
        Interlude(t, others);
        r := TakeFresh(t, idx, cap, requested, ok, others);
      }
    }

    /** `acquire`: a pooled slab if the bucket has one, else a new one, whatever the other threads
        do in between. What it returns holds the request up to 2^34 bytes, or 2^33 where the
        driver grants zero bytes; a pooled slab costs no allocation. */
    method Acquire(t: nat, requested: nat, ok: bool, others: State -> State) returns (r: Option<nat>)
      requires Ready(t, Idle) && requested < WORD_LIMIT && forall s: State :: ByOthers(s, others(s), t)
      modifies this
      ensures Ready(t, Idle)
      ensures r.Some? ==> Leased(requested, r.value)
      ensures r.Some? && requested <= AmpleBytes(zeroOk) ==> requested <= r.value
      ensures BucketOf(requested).0 < |old(buckets)|
      ensures var st, cap := old(buckets)[BucketOf(requested).0], BucketOf(requested).1;
              if st != [] then r == Some(st[|st| - 1]) && trace == old(trace) + [Pop(t, requested)]
              else r == if ok && (cap > 0 || zeroOk) then Some(cap) else None
      ensures Quiet(others) ==>
              out == old(out) + if r.Some? then [Lease(BucketOf(requested).0, r.value, requested)] else []
    {
      r := Take(t, requested, ok, others);
      if r.Some? && requested <= AmpleBytes(zeroOk) {
        AmpleHere(out[|out| - 1]);
      }
    }

    /** `PinnedSlab::drop`: the slab goes back to the bucket it was taken for. */
    method GiveBack(i: nat)
      requires Valid() && i < |out|
      modifies `buckets, `out, `trace
      ensures Valid() && trace == old(trace) + [Return(i)]
      ensures var e := old(out)[i];
              e.bucket < |old(buckets)| && buckets == old(buckets)[e.bucket := old(buckets)[e.bucket] + [e.len]]
      ensures out == old(out)[..i] + old(out)[i + 1..]
    {
      ghost var was := View();
      Reached();
      var e := out[i];
      buckets := buckets[e.bucket := buckets[e.bucket] + [e.len]];
      out := out[..i] + out[i + 1..];
      Took(Return(i), was);
    }
  }
}
