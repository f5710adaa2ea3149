/** The driver calls a copy makes, the answers it gets and how it ends. */
module DriverCalls {
  import opened Memory
  import opened StageModel

  /** Why a copy failed: the lengths differ, or a driver call returned an error. */
  datatype Error = LengthMismatch | EventSynchronize | EventRecord | Memcpy | StreamSynchronize

  datatype Outcome = Pass | Fail(error: Error)

  datatype Call =
    | Query                                   // cuStreamQuery
    | StreamSync                              // cuStreamSynchronize
    | EventSync(slot: nat)                    // cuEventSynchronize on the slot's event
    | ChunkCopy(dst: nat, slot: nat, n: nat)  // cuMemcpyHtoDAsync out of the slot
    | EventMark(slot: nat)                    // cuEventRecord on the slot's event
    | AsyncCopy(dst: nat, from: nat, n: nat)  // cuMemcpyHtoDAsync out of the caller's memory
    | WriteCopy(dst: nat, from: nat, n: nat)  // cuMemcpyHtoD
    | ReadCopy(ptr: nat, n: nat)              // cuMemcpyDtoH

  /** Which answers end the copy: any error, except that a query that does not report an idle
      stream only sends the caller to the wait. */
  predicate Ends(c: Call, ok: bool) { !ok && !c.Query? }

  function ErrorOf(c: Call): Error {
    match c
    case Query => StreamSynchronize
    case StreamSync => StreamSynchronize
    case EventSync(_) => EventSynchronize
    case EventMark(_) => EventRecord
    case ChunkCopy(_, _, _) => Memcpy
    case AsyncCopy(_, _, _) => Memcpy
    case WriteCopy(_, _, _) => Memcpy
    case ReadCopy(_, _) => Memcpy
  }

  /** The calls made so far, and how the copy ended. */
  datatype Played = Played(calls: seq<Call>, r: Outcome)

  /** `plan` after the calls `before`, the driver's answer to the k-th call of all being
      `driver(k)`: it is made to its end, or up to the first call whose answer ends it. */
  function Play(plan: seq<Call>, driver: nat -> bool, before: seq<Call>): Played {
    if plan == [] then Played(before, Pass)
    else if Ends(plan[0], driver(|before|)) then Played(before + [plan[0]], Fail(ErrorOf(plan[0])))
    else Play(plan[1..], driver, before + [plan[0]])
  }

  /** From `before` to `after` the calls made are those of `plan`, as far as the driver's
      answers allow, and the copy ended accordingly. */
  ghost predicate Follows(plan: seq<Call>, driver: nat -> bool, before: seq<Call>, after: seq<Call>, r: Outcome) {
    Play(plan, driver, before) == Played(after, r)
  }

  /** A copy that passes has made every call of its plan, and no answer ended it. */
  lemma {:induction false} PassExact(plan: seq<Call>, driver: nat -> bool, before: seq<Call>)
    ensures Play(plan, driver, before).r.Pass? <==>
              forall i :: 0 <= i < |plan| ==> !Ends(plan[i], driver(|before| + i))
    ensures Play(plan, driver, before).r.Pass? ==> Play(plan, driver, before).calls == before + plan
    decreases |plan|
  {
    if plan == [] {
      assert before + plan == before;
    } else if Ends(plan[0], driver(|before|)) {
      assert Ends(plan[0], driver(|before| + 0));
    } else {
      var rest, next := plan[1..], before + [plan[0]];
      PassExact(rest, driver, next);
      assert next + rest == before + plan;
      assert |next| == |before| + 1;
      if Play(plan, driver, before).r.Pass? {
        forall i | 0 <= i < |plan| ensures !Ends(plan[i], driver(|before| + i)) {
          if i > 0 {
            assert rest[i - 1] == plan[i] && !Ends(rest[i - 1], driver(|next| + (i - 1)));
          }
        }
      } else {
        var i :| 0 <= i < |rest| && Ends(rest[i], driver(|next| + i));
        assert rest[i] == plan[i + 1] && Ends(plan[i + 1], driver(|before| + (i + 1)));
      }
    }
  }

  /** A copy that fails has made its plan up to the first call whose answer ends it, and ends
      with that call's error. */
  lemma {:induction false} FailExact(plan: seq<Call>, driver: nat -> bool, before: seq<Call>) returns (n: nat)
    requires Play(plan, driver, before).r.Fail?
    ensures n < |plan| && Play(plan, driver, before) == Played(before + plan[..n + 1], Fail(ErrorOf(plan[n])))
    ensures Ends(plan[n], driver(|before| + n))
    ensures forall i :: 0 <= i < n ==> !Ends(plan[i], driver(|before| + i))
    decreases |plan|
  {
    if Ends(plan[0], driver(|before|)) {
      assert plan[..1] == [plan[0]];
      return 0;
    }
    var rest, next := plan[1..], before + [plan[0]];
    var m := FailExact(rest, driver, next);
    n := m + 1;
    assert |next| == |before| + 1;
    assert next + rest[..m + 1] == before + plan[..n + 1];
    forall i | 0 <= i < n ensures !Ends(plan[i], driver(|before| + i)) {
      if i > 0 {
        assert rest[i - 1] == plan[i] && !Ends(rest[i - 1], driver(|next| + (i - 1)));
      }
    }
  }

  /** A plan in two parts: the second is played from where the first ends, if it passes. */
  lemma {:induction false} PlayJoin(first: seq<Call>, second: seq<Call>, driver: nat -> bool, before: seq<Call>)
    ensures var p := Play(first, driver, before);
            Play(first + second, driver, before) == if p.r.Pass? then Play(second, driver, p.calls) else p
    decreases |first|
  {
    if first == [] {
      assert first + second == second;
    } else {
      assert (first + second)[1..] == first[1..] + second;
      PlayJoin(first[1..], second, driver, before + [first[0]]);
    }
  }

  /** A plan followed to its end and another one after it. */
  lemma {:induction false} FollowsJoin(first: seq<Call>, second: seq<Call>, driver: nat -> bool, s0: seq<Call>,
                                       s1: seq<Call>, s2: seq<Call>, r: Outcome)
    requires Follows(first, driver, s0, s1, Pass) && Follows(second, driver, s1, s2, r)
    ensures Follows(first + second, driver, s0, s2, r)
  {
    PlayJoin(first, second, driver, s0);
  }

  /** A plan that ended early ends any longer one. */
  lemma {:induction false} FollowsCut(first: seq<Call>, second: seq<Call>, driver: nat -> bool, s0: seq<Call>,
                                      s1: seq<Call>, r: Outcome)
    requires Follows(first, driver, s0, s1, r) && r.Fail?
    ensures Follows(first + second, driver, s0, s1, r)
  {
    PlayJoin(first, second, driver, s0);
  }

  /** A single call. */
  lemma {:induction false} FollowsOne(c: Call, driver: nat -> bool, before: seq<Call>, after: seq<Call>, ok: bool)
    requires after == before + [c] && ok == driver(|before|) && !c.Query?
    ensures Follows([c], driver, before, after, if ok then Pass else Fail(ErrorOf(c)))
  {
    assert [c][1..] == [];
  }

  /** Two calls, the second made only if the first is answered. */
  lemma {:induction false} FollowsTwo(c: Call, d: Call, driver: nat -> bool, s0: seq<Call>, s1: seq<Call>,
                                      s2: seq<Call>, first: bool, second: bool)
    requires !c.Query? && !d.Query? && s1 == s0 + [c] && first == driver(|s0|)
    requires if first then s2 == s1 + [d] && second == driver(|s1|) else s2 == s1
    ensures Follows([c, d], driver, s0, s2,
                    if !first then Fail(ErrorOf(c)) else if second then Pass else Fail(ErrorOf(d)))
  {
    assert [c, d] == [c] + [d];
    FollowsOne(c, driver, s0, s1, first);
    if first {
      FollowsOne(d, driver, s1, s2, second);
      FollowsJoin([c], [d], driver, s0, s1, s2, if second then Pass else Fail(ErrorOf(d)));
    } else {
      FollowsCut([c], [d], driver, s0, s1, Fail(ErrorOf(c)));
    }
  }

  /** A query goes on whatever its answer. */
  lemma {:induction false} FollowsQuery(driver: nat -> bool, before: seq<Call>, after: seq<Call>)
    requires after == before + [Query]
    ensures Follows([Query], driver, before, after, Pass)
  {
    assert [Query][1..] == [];
  }

  lemma {:induction false} FollowsNone(driver: nat -> bool, before: seq<Call>)
    ensures Follows([], driver, before, before, Pass)
  {
  }

  // ---- the plans ----

  /** An armed slot's event is waited for. */
  function WaitPlan(armed: seq<bool>, cursor: nat): seq<Call>
    requires |armed| == STAGE_SLOTS
  {
    var i := cursor % STAGE_SLOTS;
    if armed[i] then [EventSync(i)] else []
  }

  /** The chunk is copied out of its slot and the slot's event is recorded behind it. */
  function PublishPlan(cursor: nat, dst: nat, n: nat): seq<Call> {
    [ChunkCopy(dst, cursor % STAGE_SLOTS, n), EventMark(cursor % STAGE_SLOTS)]
  }

  function ChunkPlan(armed: seq<bool>, cursor: nat, dst: nat, n: nat): seq<Call>
    requires |armed| == STAGE_SLOTS
  {
    WaitPlan(armed, cursor) + PublishPlan(cursor, dst, n)
  }

  /** The staged copy of `bytes` bytes to `dst`: chunk after chunk, slot after slot. */
  function StagePlan(armed: seq<bool>, cursor: nat, dst: nat, bytes: nat): seq<Call>
    requires |armed| == STAGE_SLOTS
    decreases bytes
  {
    if bytes == 0 then []
    else
      var n := Min(bytes, STAGE_CHUNK);
      ChunkPlan(armed, cursor, dst, n)
      + StagePlan(armed[cursor % STAGE_SLOTS := true], cursor + 1, dst + n, bytes - n)
  }

  /** The next chunk: what is left of the plan is the plan of what is left. */
  lemma {:induction false} PlanGoesOn(armed: seq<bool>, cursor: nat, dst: nat, bytes: nat, driver: nat -> bool,
                                      s1: seq<Call>, s2: seq<Call>, r: Outcome)
    requires |armed| == STAGE_SLOTS && bytes > 0
    requires Follows(ChunkPlan(armed, cursor, dst, Min(bytes, STAGE_CHUNK)), driver, s1, s2, r)
    ensures var n := Min(bytes, STAGE_CHUNK);
            var rest := StagePlan(armed[cursor % STAGE_SLOTS := true], cursor + 1, dst + n, bytes - n);
            Play(StagePlan(armed, cursor, dst, bytes), driver, s1)
            == if r.Pass? then Play(rest, driver, s2) else Played(s2, r)
  {
    var n := Min(bytes, STAGE_CHUNK);
    var rest := StagePlan(armed[cursor % STAGE_SLOTS := true], cursor + 1, dst + n, bytes - n);
    PlayJoin(ChunkPlan(armed, cursor, dst, n), rest, driver, s1);
  }

  /** The copy of a chunk comes first in its part of the plan, or right after the wait. */
  lemma {:induction false} ChunkWaits(armed: seq<bool>, cursor: nat, dst: nat, n: nat, j: nat)
    requires |armed| == STAGE_SLOTS && j < |ChunkPlan(armed, cursor, dst, n)|
    requires ChunkPlan(armed, cursor, dst, n)[j].ChunkCopy?
    ensures var plan, i := ChunkPlan(armed, cursor, dst, n), cursor % STAGE_SLOTS;
            && plan[j].slot == i && EventMark(i) !in plan[..j]
            && (armed[i] ==> j > 0 && plan[j - 1] == EventSync(i))
  {
  }

  /** The events a chunk's part of the plan records. */
  lemma {:induction false} ChunkMarks(armed: seq<bool>, cursor: nat, dst: nat, n: nat, i: nat)
    requires |armed| == STAGE_SLOTS && EventMark(i) in ChunkPlan(armed, cursor, dst, n)
    ensures i == cursor % STAGE_SLOTS
  {
  }

  /** Slot `i` may still be read when the plan has got to its call `j`: it was armed at the
      start, or the copy itself has recorded its event. */
  predicate InUse(armed: seq<bool>, plan: seq<Call>, i: nat, j: nat)
    requires j <= |plan|
  {
    (i < |armed| && armed[i]) || EventMark(i) in plan[..j]
  }

  lemma {:induction false} InUseLater(armed: seq<bool>, cursor: nat, dst: nat, n: nat, rest: seq<Call>, i: nat, j: nat)
    requires |armed| == STAGE_SLOTS
    requires var chunk := ChunkPlan(armed, cursor, dst, n);
             |chunk| <= j <= |chunk + rest| && InUse(armed, chunk + rest, i, j)
    ensures InUse(armed[cursor % STAGE_SLOTS := true], rest, i, j - |ChunkPlan(armed, cursor, dst, n)|)
  {
    var chunk := ChunkPlan(armed, cursor, dst, n);
    assert (chunk + rest)[..j] == chunk + rest[..j - |chunk|];
    if EventMark(i) in chunk {
      ChunkMarks(armed, cursor, dst, n, i);
    }
  }

  /** If the call `j` copies a chunk out of a slot in use, the one before it waits for the slot. */
  predicate WaitsAt(armed: seq<bool>, plan: seq<Call>, j: nat) {
    j < |plan| && plan[j].ChunkCopy? && InUse(armed, plan, plan[j].slot, j) ==>
      j > 0 && plan[j - 1] == EventSync(plan[j].slot)
  }

  lemma {:induction false} WaitsOn(armed: seq<bool>, cursor: nat, dst: nat, n: nat, rest: seq<Call>, j: nat)
    requires |armed| == STAGE_SLOTS
    requires j >= |ChunkPlan(armed, cursor, dst, n)| ==>
               WaitsAt(armed[cursor % STAGE_SLOTS := true], rest, j - |ChunkPlan(armed, cursor, dst, n)|)
    ensures WaitsAt(armed, ChunkPlan(armed, cursor, dst, n) + rest, j)
  {
    var chunk := ChunkPlan(armed, cursor, dst, n);
    var plan := chunk + rest;
    if j < |plan| && plan[j].ChunkCopy? && InUse(armed, plan, plan[j].slot, j) {
      if j < |chunk| {
        ChunkWaits(armed, cursor, dst, n, j);
        assert plan[..j] == chunk[..j];
      } else {
        InUseLater(armed, cursor, dst, n, rest, plan[j].slot, j);
      }
    }
  }

  /** No slot is filled again unwaited, at any place of any staged copy. */
  lemma {:induction false} WaitsBeforeReuse(armed: seq<bool>, cursor: nat, dst: nat, bytes: nat, j: nat)
    requires |armed| == STAGE_SLOTS
    ensures WaitsAt(armed, StagePlan(armed, cursor, dst, bytes), j)
    decreases bytes
  {
    if bytes > 0 {
      var n := Min(bytes, STAGE_CHUNK);
      var chunk := ChunkPlan(armed, cursor, dst, n);
      var next := armed[cursor % STAGE_SLOTS := true];
      if j >= |chunk| {
        WaitsBeforeReuse(next, cursor + 1, dst + n, bytes - n, j - |chunk|);
      }
      WaitsOn(armed, cursor, dst, n, StagePlan(next, cursor + 1, dst + n, bytes - n), j);
    }
  }

  /** Nothing for an empty copy, the ring from the threshold up, one call below it. */
  function SendPlan(armed: seq<bool>, cursor: nat, dst: nat, from: nat, n: nat): seq<Call>
    requires |armed| == STAGE_SLOTS
  {
    if n == 0 then []
    else if n >= STAGE_THRESHOLD then StagePlan(armed, cursor, dst, n)
    else [AsyncCopy(dst, from, n)]
  }

  /** A legacy-ordered stream needs no drain; any other is polled, and waited for unless the
      poll reports it idle. */
  function DrainPlan(legacyOrdered: bool, idle: bool): seq<Call> {
    if legacyOrdered then [] else if idle then [Query] else [Query, StreamSync]
  }

  /** A copy the caller waits for: staged and then synchronised from the threshold up, one
      blocking call on a drained stream below it. */
  function SyncPlan(armed: seq<bool>, cursor: nat, legacyOrdered: bool, idle: bool, dst: nat, from: nat, n: nat):
    seq<Call>
    requires |armed| == STAGE_SLOTS
  {
    if n >= STAGE_THRESHOLD then StagePlan(armed, cursor, dst, n) + [StreamSync]
    else DrainPlan(legacyOrdered, idle) + [WriteCopy(dst, from, n)]
  }
}
