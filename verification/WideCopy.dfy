/** The two users of the copy pool. A pool is given by what its workers' channels do with
    the next job; None is a process without a pool. */
module WideCopy {
  import opened Wrappers
  import opened Memory
  import opened Slices
  import opened Counting
  import opened ForkJoin

  /** `wide_copy`: a memcpy, for any number of workers, any send failures and any order in
      which the workers write and report. */
  method WideCopy(src: seq<byte>, dst: array<byte>, pool: Option<seq<bool>>)
    requires |src| == dst.Length
    modifies dst
    ensures dst[..] == src
  {
    var len := dst.Length;
    if pool.None? || len < PARALLEL_MEMCPY_MIN {
      forall a | 0 <= a < len {
        dst[a] := src[a];
      }
      return;
    }
    var call := new Call(Some(src), dst);
    var step := StepOf(len, |pool.value|);
    var off := call.Send(len, step, pool.value);
    call.WorkersRun();
    PlanPartitions(len, step, 0, pool.value);
    assert Partition(Cuts(call.jobs), 0, off, len);
    KeptOutside(call.jobs, off, len);
    call.OwnCopy(off);
    call.Join();
    KeptOutside(call.jobs, off, len);
    Landed(call, off);
  }

  /** Once every worker is done, its slices and the submitter's share are the whole source. */
  lemma {:induction false} Landed(call: Call, off: nat)
    requires call.Copied() && call.src.Some? && Partition(Cuts(call.jobs), 0, off, call.dst.Length)
    requires forall k :: 0 <= k < |call.jobs| ==> call.jobs[k].progress.Done?
    requires forall a :: off <= a < call.dst.Length ==> call.dst[a] == call.src.value[a]
    ensures call.dst[..] == call.src.value
  {
    forall a | 0 <= a < call.dst.Length ensures call.dst[a] == call.src.value[a] {
      if a < off {
        assert Taken(Cuts(call.jobs), a);
        var k :| 0 <= k < |call.jobs| && InSlice(Cuts(call.jobs)[k], a);
        assert call.jobs[k].slice.off <= a < call.jobs[k].slice.off + call.jobs[k].slice.len;
      }
    }
  }

  /** The pages written by finished workers and by the submitter are all pages, once each. */
  lemma {:induction false} PageOnce(jobs: seq<Job>, log: seq<nat>, own: seq<nat>, len: nat, step: nat,
                                    accepts: seq<bool>, x: nat)
    requires step % PAGE == 0 && PlanEnd(len, step, 0, accepts) <= len
    requires Cuts(jobs) == Plan(len, step, 0, accepts)
    requires forall k :: 0 <= k < |jobs| ==> !jobs[k].progress.Sent?
    requires Count(log, x) == JobHits(jobs, x)
    requires Count(own, x) == Hits(PlanEnd(len, step, 0, accepts), PageCount(len - PlanEnd(len, step, 0, accepts)), x)
    ensures Count(log + own, x) == Count(log, x) + Count(own, x)
    ensures Count(log + own, x) == if x < len && x % PAGE == 0 then 1 else 0
  {
    CountConcat(log, own, x);
    JobsArePlan(jobs, x);
    EveryPageOnce(len, step, accepts, x);
  }

  /** The pages of a finished call, the workers' and the submitter's. */
  lemma {:induction false} AllPages(jobs: seq<Job>, log: seq<nat>, own: seq<nat>, len: nat, step: nat,
                                    accepts: seq<bool>)
    requires step % PAGE == 0 && PlanEnd(len, step, 0, accepts) <= len
    requires Cuts(jobs) == Plan(len, step, 0, accepts)
    requires forall k :: 0 <= k < |jobs| ==> !jobs[k].progress.Sent?
    requires forall x: nat :: Count(log, x) == JobHits(jobs, x)
    requires forall x: nat ::
               Count(own, x) == Hits(PlanEnd(len, step, 0, accepts), PageCount(len - PlanEnd(len, step, 0, accepts)), x)
    ensures forall x: nat :: Count(log + own, x) == Count(log, x) + Count(own, x)
    ensures forall x: nat :: Count(log + own, x) == if x < len && x % PAGE == 0 then 1 else 0
  {
    forall x: nat
      ensures Count(log + own, x) == Count(log, x) + Count(own, x)
      ensures Count(log + own, x) == if x < len && x % PAGE == 0 then 1 else 0
    {
      PageOnce(jobs, log, own, len, step, accepts, x);
    }
  }

  /** One thread touches every page. */
  method PrefaultAlone(dst: array<byte>) returns (ghost touched: seq<nat>)
    modifies dst
    ensures forall x: nat :: Count(touched, x) == if x < dst.Length && x % PAGE == 0 then 1 else 0
    ensures forall a: nat :: a < dst.Length ==> dst[a] == if Count(touched, a) > 0 then 0 else old(dst[a])
  {
    var call := new Call(None, dst);
    touched := call.TouchPages(0, dst.Length);
    forall x: nat ensures Count(touched, x) == if x < dst.Length && x % PAGE == 0 then 1 else 0 {
      HitsOnce(0, PageCount(dst.Length), x);
    }
  }

  /** The workers and the submitter touch every page between them. */
  method PrefaultWide(dst: array<byte>, accepts: seq<bool>) returns (ghost touched: seq<nat>)
    modifies dst
    ensures forall x: nat :: Count(touched, x) == if x < dst.Length && x % PAGE == 0 then 1 else 0
    ensures forall a: nat :: a < dst.Length ==> dst[a] == if Count(touched, a) > 0 then 0 else old(dst[a])
  {
    var call := new Call(None, dst);
    var step := StepOf(dst.Length, |accepts|);
    var off := call.Send(dst.Length, step, accepts);
    call.WorkersRun();
    PlanPartitions(dst.Length, step, 0, accepts);
    touched := call.OwnPages(off);
    call.Join();
    AllPages(call.jobs, call.log, call.own, dst.Length, step, accepts);
    touched := call.log + call.own;
  }

  /** `prefault`: at or above the threshold every page start is zeroed exactly once and no
      other byte is written; below it nothing is. */
  method Prefault(dst: array<byte>, pool: Option<seq<bool>>) returns (ghost touched: seq<nat>)
    modifies dst
    ensures forall x: nat ::
              Count(touched, x) == if dst.Length >= PREFAULT_MIN && x < dst.Length && x % PAGE == 0 then 1 else 0
    ensures forall a: nat :: a < dst.Length ==> dst[a] == if Count(touched, a) > 0 then 0 else old(dst[a])
  {
    touched := [];
    if dst.Length < PREFAULT_MIN {
      return;
    }
    if pool.None? {
      touched := PrefaultAlone(dst);
    } else {
      touched := PrefaultWide(dst, pool.value);
    }
  }
}
