/** How `wide_copy` and `prefault` cut `[0, len)` into page-aligned slices. */
module Slices {
  import opened Arithmetic

  const PAGE: nat := 4096
  const PARALLEL_MEMCPY_MIN: nat := 0x8_0000
  const PREFAULT_MIN: nat := 0x80_0000

  datatype Slice = Slice(off: nat, len: nat)

  function RoundUp(n: nat): (r: nat)
    ensures n <= r < n + PAGE && r % PAGE == 0
  {
    (n + PAGE - 1) / PAGE * PAGE
  }

  function StepOf(len: nat, workers: nat): (step: nat)
    ensures step % PAGE == 0
  {
    RoundUp(len / (workers + 1))
  }

  /** The slices handed to workers from offset `off` on; `accepts[k]` tells whether the
      channel of the k-th remaining worker takes the job. */
  function Plan(len: nat, step: nat, off: nat, accepts: seq<bool>): seq<Slice>
    decreases |accepts|
  {
    if accepts == [] || off + step >= len || !accepts[0] then []
    else [Slice(off, step)] + Plan(len, step, off + step, accepts[1..])
  }

  /** Where the submitting thread's own share begins. */
  function PlanEnd(len: nat, step: nat, off: nat, accepts: seq<bool>): nat
    decreases |accepts|
  {
    if accepts == [] || off + step >= len || !accepts[0] then off
    else PlanEnd(len, step, off + step, accepts[1..])
  }

  predicate InSlice(s: Slice, a: nat) { s.off <= a < s.off + s.len }

  ghost predicate Taken(slices: seq<Slice>, a: nat) {
    exists k :: 0 <= k < |slices| && InSlice(slices[k], a)
  }

  /** The slices start on pages, lie strictly inside `[off, len)`, are pairwise disjoint, and
      with the submitter's `[end, len)` cover `[off, len)`. */
  ghost predicate Partition(slices: seq<Slice>, off: nat, end: nat, len: nat) {
    && off <= end
    && (off < len ==> end < len)
    && (forall k :: 0 <= k < |slices| ==> off <= slices[k].off && slices[k].off + slices[k].len <= end)
    && (forall k :: 0 <= k < |slices| ==> slices[k].off % PAGE == 0)
    && (forall j, k :: 0 <= j < k < |slices| ==> slices[j].off + slices[j].len <= slices[k].off)
    && (forall a: nat :: off <= a < end ==> Taken(slices, a))
  }

  /** Whatever the number of workers and whichever sends fail, the plan is a partition. */
  lemma {:induction false} PlanPartitions(len: nat, step: nat, off: nat, accepts: seq<bool>)
    requires off % PAGE == 0 && step % PAGE == 0
    ensures Partition(Plan(len, step, off, accepts), off, PlanEnd(len, step, off, accepts), len)
    ensures PlanEnd(len, step, off, accepts) % PAGE == 0
    decreases |accepts|
  {
    if accepts != [] && off + step < len && accepts[0] {
      assert (off + step) % PAGE == 0;
      PlanPartitions(len, step, off + step, accepts[1..]);
      PartitionCons(Slice(off, step), Plan(len, step, off + step, accepts[1..]), PlanEnd(len, step, off, accepts), len);
    }
  }

  lemma {:induction false} PartitionCons(s: Slice, rest: seq<Slice>, end: nat, len: nat)
    requires s.off % PAGE == 0 && s.off + s.len < len
    requires Partition(rest, s.off + s.len, end, len)
    ensures Partition([s] + rest, s.off, end, len)
  {
    var all := [s] + rest;
    assert forall k :: 1 <= k < |all| ==> all[k] == rest[k - 1];
    forall a: nat | s.off <= a < end ensures Taken(all, a) {
      if a < s.off + s.len {
        assert InSlice(all[0], a);
      } else {
        assert Taken(rest, a);
        var k :| 0 <= k < |rest| && InSlice(rest[k], a);
        assert InSlice(all[k + 1], a);
      }
    }
  }

  /** When every send succeeds, what is left to the submitter is at most one step, or the
      workers have each taken a step. */
  lemma {:induction false} PlanShare(len: nat, step: nat, off: nat, accepts: seq<bool>)
    requires off <= len && forall k :: 0 <= k < |accepts| ==> accepts[k]
    ensures var end := PlanEnd(len, step, off, accepts);
            len - end <= step || end == off + |accepts| * step
    decreases |accepts|
  {
    if accepts != [] && off + step < len {
      PlanShare(len, step, off + step, accepts[1..]);
      assert |accepts| * step == step + |accepts[1..]| * step;
    }
  }

  /** With no send failure the submitter copies at most `step + workers` bytes itself. */
  lemma {:induction false} SubmitterShare(len: nat, accepts: seq<bool>)
    requires forall k :: 0 <= k < |accepts| ==> accepts[k]
    ensures len - PlanEnd(len, StepOf(len, |accepts|), 0, accepts) <= StepOf(len, |accepts|) + |accepts|
  {
    var w := |accepts|;
    var step := StepOf(len, w);
    PlanShare(len, step, 0, accepts);
    ShareBound(len, w, len / (w + 1), step);
  }

  lemma {:induction false} ShareBound(len: nat, w: nat, q: nat, step: nat)
    requires q == len / (w + 1) && q <= step
    ensures len <= step + w + w * step
  {
    assert len < (q + 1) * (w + 1);
    assert (q + 1) * (w + 1) == q * w + q + w + 1;
    MulMono(q, step, w);
  }

  // ---- pages touched by prefault ----

  /** How many offsets a loop from 0 to `len` in steps of a page visits. */
  function PageCount(len: nat): (c: nat)
    ensures len <= c * PAGE < len + PAGE
  {
    (len + PAGE - 1) / PAGE
  }

  lemma {:induction false} PageCountSplit(first: nat, second: nat)
    requires first % PAGE == 0
    ensures PageCount(first) * PAGE == first
    ensures PageCount(first + second) == PageCount(first) + PageCount(second)
  {
  }

  /** How often a loop over `count` pages from `base` writes offset `x`. */
  function Hits(base: nat, count: nat, x: nat): nat
    decreases count
  {
    if count == 0 then 0 else (if x == base then 1 else 0) + Hits(base + PAGE, count - 1, x)
  }

  /** Each page start in range is written exactly once and nothing else is. */
  lemma {:induction false} HitsOnce(base: nat, count: nat, x: nat)
    requires base % PAGE == 0
    ensures Hits(base, count, x) == if base <= x < base + count * PAGE && x % PAGE == 0 then 1 else 0
    decreases count
  {
    if count > 0 {
      HitsOnce(base + PAGE, count - 1, x);
      assert base <= x < base + PAGE && x % PAGE == 0 <==> x == base;
    }
  }

  /** Writing some pages and then the following ones is writing all of them. */
  lemma {:induction false} HitsSplit(base: nat, first: nat, second: nat, x: nat)
    ensures Hits(base, first + second, x) == Hits(base, first, x) + Hits(base + first * PAGE, second, x)
    decreases first
  {
    if first > 0 {
      HitsSplit(base + PAGE, first - 1, second, x);
      assert base + PAGE + (first - 1) * PAGE == base + first * PAGE;
    }
  }
}
