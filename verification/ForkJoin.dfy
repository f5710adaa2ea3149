/** `wide_copy` and `prefault`: one call fanned out over the copy pool's workers.

    The submitter sends jobs over channels that may fail; every worker first does its
    writes and later decrements the shared counter; the submitter returns once the counter
    reads zero. Workers are scheduled arbitrarily between any two of the submitter's steps. */
module ForkJoin {
  import opened Wrappers
  import opened Memory
  import opened Slices
  import opened Counting

  datatype Progress = Sent | Written | Done

  datatype Job = Job(slice: Slice, progress: Progress)

  /** The jobs counted by `done`: sent, and their worker has not decremented yet. */
  function Unfinished(jobs: seq<Job>): nat {
    if jobs == [] then 0 else (if jobs[0].progress.Done? then 0 else 1) + Unfinished(jobs[1..])
  }

  lemma {:induction false} UnfinishedSnoc(jobs: seq<Job>, j: Job)
    ensures Unfinished(jobs + [j]) == Unfinished(jobs) + if j.progress.Done? then 0 else 1
  {
    if jobs == [] {
      assert Unfinished([j][1..]) == 0;
    } else {
      UnfinishedSnoc(jobs[1..], j);
      assert (jobs + [j])[1..] == jobs[1..] + [j];
    }
  }

  lemma {:induction false} UnfinishedUpdate(jobs: seq<Job>, k: nat, j: Job)
    requires k < |jobs|
    ensures Unfinished(jobs[k := j]) + (if jobs[k].progress.Done? then 0 else 1)
         == Unfinished(jobs) + (if j.progress.Done? then 0 else 1)
  {
    if k == 0 {
      assert jobs[k := j][1..] == jobs[1..];
    } else {
      UnfinishedUpdate(jobs[1..], k - 1, j);
      assert jobs[k := j][1..] == jobs[1..][k - 1 := j];
    }
  }

  lemma {:induction false} SomeUnfinished(jobs: seq<Job>)
    ensures Unfinished(jobs) > 0 <==> exists k :: 0 <= k < |jobs| && !jobs[k].progress.Done?
  {
    if jobs != [] {
      SomeUnfinished(jobs[1..]);
      if Unfinished(jobs[1..]) > 0 {
        var k :| 0 <= k < |jobs[1..]| && !jobs[1..][k].progress.Done?;
        assert !jobs[k + 1].progress.Done?;
      }
      if k :| 0 <= k < |jobs| && !jobs[k].progress.Done? {
        if k > 0 { assert !jobs[1..][k - 1].progress.Done?; }
      }
    }
  }

  function Cuts(jobs: seq<Job>): (s: seq<Slice>)
    ensures |s| == |jobs| && forall k :: 0 <= k < |s| ==> s[k] == jobs[k].slice
  {
    seq(|jobs|, k requires 0 <= k < |jobs| => jobs[k].slice)
  }

  /** Measure of the work left: a sent job has two steps to go, a written one has one. */
  function Left(jobs: seq<Job>): nat {
    if jobs == [] then 0
    else (match jobs[0].progress case Sent => 2 case Written => 1 case Done => 0) + Left(jobs[1..])
  }

  lemma {:induction false} LeftUpdate(jobs: seq<Job>, k: nat, j: Job)
    requires k < |jobs| && !jobs[k].progress.Done?
    requires j.progress == if jobs[k].progress.Sent? then Written else Done
    ensures Left(jobs[k := j]) < Left(jobs)
  {
    if k == 0 {
      assert jobs[k := j][1..] == jobs[1..];
    } else {
      LeftUpdate(jobs[1..], k - 1, j);
      assert jobs[k := j][1..] == jobs[1..][k - 1 := j];
    }
  }

  // ---- accounting of page writes ----

  function SliceHits(s: Slice, x: nat): nat { Hits(s.off, PageCount(s.len), x) }

  /** Writes of `x` by the workers that have done their writes. */
  function JobHits(jobs: seq<Job>, x: nat): nat {
    if jobs == [] then 0
    else (if jobs[0].progress.Sent? then 0 else SliceHits(jobs[0].slice, x)) + JobHits(jobs[1..], x)
  }

  lemma {:induction false} JobHitsSnoc(jobs: seq<Job>, s: Slice, x: nat)
    ensures JobHits(jobs + [Job(s, Sent)], x) == JobHits(jobs, x)
  {
    if jobs == [] {
      assert JobHits([Job(s, Sent)][1..], x) == 0;
    } else {
      JobHitsSnoc(jobs[1..], s, x);
      assert (jobs + [Job(s, Sent)])[1..] == jobs[1..] + [Job(s, Sent)];
    }
  }

  lemma {:induction false} JobHitsUpdate(jobs: seq<Job>, k: nat, p: Progress, x: nat)
    requires k < |jobs|
    ensures JobHits(jobs[k := Job(jobs[k].slice, p)], x)
            + (if jobs[k].progress.Sent? then 0 else SliceHits(jobs[k].slice, x))
         == JobHits(jobs, x) + (if p.Sent? then 0 else SliceHits(jobs[k].slice, x))
  {
    var j := Job(jobs[k].slice, p);
    if k == 0 {
      assert jobs[k := j][1..] == jobs[1..];
    } else {
      JobHitsUpdate(jobs[1..], k - 1, p, x);
      assert jobs[k := j][1..] == jobs[1..][k - 1 := j];
    }
  }

  function PlanHits(slices: seq<Slice>, x: nat): nat {
    if slices == [] then 0 else SliceHits(slices[0], x) + PlanHits(slices[1..], x)
  }

  lemma {:induction false} JobsArePlan(jobs: seq<Job>, x: nat)
    requires forall k :: 0 <= k < |jobs| ==> !jobs[k].progress.Sent?
    ensures JobHits(jobs, x) == PlanHits(Cuts(jobs), x)
  {
    if jobs != [] {
      JobsArePlan(jobs[1..], x);
      assert Cuts(jobs)[1..] == Cuts(jobs[1..]);
    }
  }

  /** Whatever the number of workers and whichever sends fail, the workers' pages and the
      submitter's pages are together the pages of the whole range, counted exactly. */
  lemma {:induction false} PlanHitsAll(len: nat, step: nat, off: nat, accepts: seq<bool>, x: nat)
    requires off <= len && step % PAGE == 0
    ensures var end := PlanEnd(len, step, off, accepts);
            && end <= len
            && PlanHits(Plan(len, step, off, accepts), x) + Hits(end, PageCount(len - end), x)
            == Hits(off, PageCount(len - off), x)
    decreases |accepts|
  {
    if accepts != [] && off + step < len && accepts[0] {
      PlanHitsAll(len, step, off + step, accepts[1..], x);
      var rest := Plan(len, step, off + step, accepts[1..]);
      assert ([Slice(off, step)] + rest)[1..] == rest;
      PageCountSplit(step, len - off - step);
      HitsSplit(off, PageCount(step), PageCount(len - off - step), x);
    }
  }

  /** Slices in order, on page boundaries and inside the buffer. */
  ghost predicate Laid(jobs: seq<Job>, len: nat) {
    && (forall k :: 0 <= k < |jobs| ==> jobs[k].slice.off % PAGE == 0 && jobs[k].slice.off + jobs[k].slice.len <= len)
    && (forall j, k :: 0 <= j < k < |jobs| ==> jobs[j].slice.off + jobs[j].slice.len <= jobs[k].slice.off)
  }

  ghost predicate Outside(jobs: seq<Job>, a: int) {
    forall k :: 0 <= k < |jobs| ==> !(jobs[k].slice.off <= a < jobs[k].slice.off + jobs[k].slice.len)
  }

  /** The workers' pages and the submitter's are every page below `len`, once each. */
  lemma {:induction false} EveryPageOnce(len: nat, step: nat, accepts: seq<bool>, x: nat)
    requires step % PAGE == 0
    ensures var end := PlanEnd(len, step, 0, accepts);
            && end <= len
            && PlanHits(Plan(len, step, 0, accepts), x) + Hits(end, PageCount(len - end), x)
            == if x < len && x % PAGE == 0 then 1 else 0
  {
    PlanHitsAll(len, step, 0, accepts, x);
    HitsOnce(0, PageCount(len), x);
  }

  lemma {:induction false} PlanUnfold(len: nat, step: nat, off: nat, accepts: seq<bool>)
    requires accepts != [] && off + step < len && accepts[0]
    ensures Plan(len, step, off, accepts) == [Slice(off, step)] + Plan(len, step, off + step, accepts[1..])
    ensures PlanEnd(len, step, off, accepts) == PlanEnd(len, step, off + step, accepts[1..])
  {
  }

  /** Nothing sent reaches what the submitter kept for itself. */
  lemma {:induction false} KeptOutside(jobs: seq<Job>, off: nat, len: nat)
    requires Partition(Cuts(jobs), 0, off, len)
    ensures forall a: int :: a >= off ==> Outside(jobs, a)
  {
    assert forall k :: 0 <= k < |jobs| ==> jobs[k].slice == Cuts(jobs)[k];
  }

  lemma {:induction false} LaidSnoc(jobs: seq<Job>, s: Slice, plan: seq<Slice>, rest: seq<Slice>, end: nat, len: nat)
    requires Laid(jobs, len) && len > 0
    requires Cuts(jobs) + ([s] + rest) == plan && Partition(plan, 0, end, len)
    ensures Laid(jobs + [Job(s, Sent)], len)
  {
    assert plan[|jobs|] == s;
    assert forall k :: 0 <= k < |jobs| ==> plan[k] == jobs[k].slice;
  }

  lemma {:induction false} SameOutside(was: seq<Job>, jobs: seq<Job>)
    requires Cuts(was) == Cuts(jobs)
    ensures forall a: int :: Outside(was, a) <==> Outside(jobs, a)
  {
    assert forall k :: 0 <= k < |jobs| ==> jobs[k].slice == Cuts(was)[k] == was[k].slice;
  }

  /** One call in flight. `src` is None for a prefault job, whose source pointer is null. */
  class Call {
    const src: Option<seq<byte>>
    const dst: array<byte>
    var jobs: seq<Job>
    var pending: nat
    ghost const before: seq<byte>
    ghost var log: seq<nat>    // offsets the workers zeroed
    ghost var own: seq<nat>    // offsets the submitter zeroed

    /** Every slice whose worker has written holds the source. */
    ghost predicate Copied()
      reads `jobs, dst
    {
      src.Some? ==>
        && |src.value| == dst.Length
        && forall k, a :: 0 <= k < |jobs| && !jobs[k].progress.Sent?
                          && jobs[k].slice.off <= a < jobs[k].slice.off + jobs[k].slice.len && a < dst.Length ==>
                            dst[a] == src.value[a]
    }

    /** The workers' log is that of the written slices, and memory is zero where logged. */
    ghost predicate Zeroed()
      reads `jobs, `log, `own, dst
    {
      src.None? ==>
        && |before| == dst.Length
        && (forall x: nat :: Count(log, x) == JobHits(jobs, x))
        && (forall a: nat :: a < dst.Length ==> dst[a] == if Count(log, a) + Count(own, a) > 0 then 0 else before[a])
    }

    ghost predicate Valid()
      reads this, dst
    {
      && pending == Unfinished(jobs)
      && Laid(jobs, dst.Length)
      && Copied() && Zeroed()
    }

    constructor (src: Option<seq<byte>>, dst: array<byte>)
      requires src.Some? ==> |src.value| == dst.Length
      ensures Valid()
      ensures this.src == src && this.dst == dst && jobs == [] && own == [] && before == dst[..]
    {
      this.src, this.dst := src, dst;
      jobs, pending, log, own := [], 0, [], [];
      before := dst[..];
    }

    /** The worker of job `k` runs a non-overlapping copy. */
    method CopySlice(k: nat)
      requires Valid() && src.Some? && k < |jobs| && jobs[k].progress.Sent?
      modifies this, dst
      ensures Valid()
      ensures jobs == old(jobs)[k := Job(old(jobs)[k].slice, Written)] && own == old(own)
      ensures forall a :: 0 <= a < dst.Length && Outside(jobs, a) ==> dst[a] == old(dst[a])
    {
      var s := jobs[k].slice;
      forall a | s.off <= a < s.off + s.len {
        dst[a] := src.value[a];
      }
      UnfinishedUpdate(jobs, k, Job(s, Written));
      jobs := jobs[k := Job(s, Written)];
      assert s == jobs[k].slice;
    }

    /** The submitting thread copies what it kept for itself. */
    method OwnCopy(off: nat)
      requires Valid() && src.Some? && off <= dst.Length
      requires forall a: int :: a >= off ==> Outside(jobs, a)
      modifies dst
      ensures Valid()
      ensures forall a :: off <= a < dst.Length ==> dst[a] == src.value[a]
    {
      forall a | off <= a < dst.Length {
        dst[a] := src.value[a];
      }
    }

    /** Write a zero on every page of `[from, from + len)`. */
    method TouchPages(from: nat, len: nat) returns (ghost touched: seq<nat>)
      requires from + len <= dst.Length
      modifies dst
      ensures forall x: nat :: Count(touched, x) == Hits(from, PageCount(len), x)
      ensures forall a: nat :: a < dst.Length ==> dst[a] == if Count(touched, a) > 0 then 0 else old(dst[a])
      ensures forall a: nat :: a < dst.Length && !(from <= a < from + len) ==> Count(touched, a) == 0
    {
      var o := 0;
      touched := [];
      ghost var pages := 0;
      while o < len
        invariant o == pages * PAGE && pages <= PageCount(len)
        invariant forall x: nat ::
                    Count(touched, x) + Hits(from + o, PageCount(len) - pages, x) == Hits(from, PageCount(len), x)
        invariant forall a: nat :: a < dst.Length ==> dst[a] == if Count(touched, a) > 0 then 0 else old(dst[a])
        invariant forall a: nat :: Count(touched, a) > 0 ==> from <= a < from + len
      {
        dst[from + o] := 0;
        forall x: nat ensures Count(touched + [from + o], x) == Count(touched, x) + if x == from + o then 1 else 0 {
          CountSnoc(touched, from + o, x);
        }
        touched := touched + [from + o];
        o := o + PAGE;
        pages := pages + 1;
      }
    }

    /** The worker of job `k` runs the prefault loop. */
    method ZeroSlice(k: nat)
      requires Valid() && src.None? && k < |jobs| && jobs[k].progress.Sent?
      modifies this, dst
      ensures Valid()
      ensures jobs == old(jobs)[k := Job(old(jobs)[k].slice, Written)] && own == old(own)
    {
      var s := jobs[k].slice;
      ghost var touched := TouchPages(s.off, s.len);
      forall x: nat
        ensures Count(log + touched, x) == Count(log, x) + Count(touched, x)
        ensures Count(log + touched, x) == JobHits(jobs[k := Job(s, Written)], x)
      {
        CountConcat(log, touched, x);
        JobHitsUpdate(jobs, k, Written, x);
      }
      UnfinishedUpdate(jobs, k, Job(s, Written));
      jobs := jobs[k := Job(s, Written)];
      log := log + touched;
    }

    /** The worker of job `k` takes the lock and decrements the counter. */
    method Decrement(k: nat)
      requires Valid() && k < |jobs| && jobs[k].progress.Written?
      modifies this
      ensures Valid()
      ensures jobs == old(jobs)[k := Job(old(jobs)[k].slice, Done)] && own == old(own)
    {
      forall x: nat ensures JobHits(jobs[k := Job(jobs[k].slice, Done)], x) == JobHits(jobs, x) {
        JobHitsUpdate(jobs, k, Done, x);
      }
      UnfinishedUpdate(jobs, k, Job(jobs[k].slice, Done));
      SomeUnfinished(jobs);
      pending := pending - 1;
      jobs := jobs[k := Job(jobs[k].slice, Done)];
    }

    /** Some worker that has not finished takes its next step. */
    method WorkerStep()
      requires Valid() && pending > 0
      modifies this, dst
      ensures Valid() && own == old(own)
      ensures Cuts(jobs) == old(Cuts(jobs)) && Left(jobs) < old(Left(jobs))
      ensures src.Some? ==> forall a :: 0 <= a < dst.Length && Outside(jobs, a) ==> dst[a] == old(dst[a])
    {
      SomeUnfinished(jobs);
      var k: nat :| k < |jobs| && !jobs[k].progress.Done?;
      LeftUpdate(jobs, k, Job(jobs[k].slice, if jobs[k].progress.Sent? then Written else Done));
      if jobs[k].progress.Written? {
        Decrement(k);
      } else if src.Some? {
        CopySlice(k);
      } else {
        ZeroSlice(k);
      }
      assert Cuts(jobs) == old(Cuts(jobs));
    }

    /** The workers run for a while. */
    method WorkersRun()
      requires Valid()
      modifies this, dst
      ensures Valid() && own == old(own) && Cuts(jobs) == old(Cuts(jobs))
      ensures src.Some? ==> forall a :: 0 <= a < dst.Length && Outside(jobs, a) ==> dst[a] == old(dst[a])
    {
      var n: nat := *;
      while n > 0 && pending > 0
        invariant Valid() && own == old(own) && Cuts(jobs) == old(Cuts(jobs))
        invariant src.Some? ==> forall a :: 0 <= a < dst.Length && Outside(jobs, a) ==> dst[a] == old(dst[a])
      {
        ghost var was := jobs;
        WorkerStep();
        SameOutside(was, jobs);
        n := n - 1;
      }
    }

    /** Block on the condition variable until the counter reads zero. */
    method Join()
      requires Valid()
      modifies this, dst
      ensures Valid() && own == old(own) && Cuts(jobs) == old(Cuts(jobs))
      ensures src.Some? ==> forall a :: 0 <= a < dst.Length && Outside(jobs, a) ==> dst[a] == old(dst[a])
      ensures forall k :: 0 <= k < |jobs| ==> jobs[k].progress.Done?
    {
      while pending > 0
        invariant Valid() && own == old(own) && Cuts(jobs) == old(Cuts(jobs))
        invariant src.Some? ==> forall a :: 0 <= a < dst.Length && Outside(jobs, a) ==> dst[a] == old(dst[a])
        decreases Left(jobs)
      {
        ghost var was := jobs;
        WorkerStep();
        SameOutside(was, jobs);
      }
      SomeUnfinished(jobs);
    }

    /** Hand out slices until one would reach the end or a worker's channel is closed. */
    method Send(len: nat, step: nat, accepts: seq<bool>) returns (off: nat)
      requires Valid() && jobs == [] && own == [] && len == dst.Length && step % PAGE == 0
      modifies this, dst
      ensures Valid() && own == []
      ensures Cuts(jobs) == Plan(len, step, 0, accepts) && off == PlanEnd(len, step, 0, accepts)
    {
      off := 0;
      var i := 0;
      while i < |accepts|
        invariant 0 <= i <= |accepts| && Valid() && own == []
        invariant Cuts(jobs) + Plan(len, step, off, accepts[i..]) == Plan(len, step, 0, accepts)
        invariant PlanEnd(len, step, off, accepts[i..]) == PlanEnd(len, step, 0, accepts)
      {
        WorkersRun();
        var sent := SendNext(off, step, accepts[i], accepts, i);
        if !sent {
          break;
        }
        off := off + step;
        i := i + 1;
      }
    }

    /** One iteration of the sending loop: the counter is raised before the send, and taken
        back if the worker's channel is closed. */
    method SendNext(off: nat, step: nat, accept: bool, ghost accepts: seq<bool>, ghost i: nat) returns (sent: bool)
      requires Valid() && i < |accepts| && accept == accepts[i] && step % PAGE == 0
      requires Cuts(jobs) + Plan(dst.Length, step, off, accepts[i..]) == Plan(dst.Length, step, 0, accepts)
      modifies this
      ensures Valid() && own == old(own)
      ensures sent == (accept && off + step < dst.Length)
      ensures !sent ==> Cuts(jobs) == old(Cuts(jobs)) && Plan(dst.Length, step, off, accepts[i..]) == []
      ensures !sent ==> PlanEnd(dst.Length, step, off, accepts[i..]) == off
      ensures sent ==>
                Cuts(jobs) + Plan(dst.Length, step, off + step, accepts[i + 1..]) == Plan(dst.Length, step, 0, accepts)
      ensures sent ==>
                PlanEnd(dst.Length, step, off + step, accepts[i + 1..]) == PlanEnd(dst.Length, step, off, accepts[i..])
    {
      if off + step >= dst.Length {
        return false;
      }
      pending := pending + 1;
      if !accept {
        pending := pending - 1;
        return false;
      }
      PlanPartitions(dst.Length, step, 0, accepts);
      PlanUnfold(dst.Length, step, off, accepts[i..]);
      assert accepts[i..][1..] == accepts[i + 1..];
      SendOne(Slice(off, step), Plan(dst.Length, step, 0, accepts),
        Plan(dst.Length, step, off + step, accepts[i + 1..]),
              PlanEnd(dst.Length, step, 0, accepts));
      return true;
    }

    /** One job is queued on a worker's channel; the counter was raised just before. */
    method SendOne(s: Slice, ghost plan: seq<Slice>, ghost rest: seq<Slice>, ghost end: nat)
      requires pending == Unfinished(jobs) + 1 && Laid(jobs, dst.Length) && Copied() && Zeroed()
      requires Cuts(jobs) + ([s] + rest) == plan && Partition(plan, 0, end, dst.Length) && dst.Length > 0
      modifies this
      ensures Valid() && own == old(own)
      ensures Cuts(jobs) + rest == plan
    {
      LaidSnoc(jobs, s, plan, rest, end, dst.Length);
      UnfinishedSnoc(jobs, Job(s, Sent));
      forall x: nat ensures JobHits(jobs + [Job(s, Sent)], x) == JobHits(jobs, x) {
        JobHitsSnoc(jobs, s, x);
      }
      jobs := jobs + [Job(s, Sent)];
      assert Cuts(jobs) == old(Cuts(jobs)) + [s];
    }

    /** The submitter runs the prefault loop over what it kept for itself. */
    method OwnPages(off: nat) returns (ghost touched: seq<nat>)
      requires Valid() && src.None? && own == [] && off <= dst.Length
      modifies this`own, dst
      ensures Valid() && own == touched
      ensures forall x: nat :: Count(touched, x) == Hits(off, PageCount(dst.Length - off), x)
    {
      touched := TouchPages(off, dst.Length - off);
      own := touched;
    }
  }
}
