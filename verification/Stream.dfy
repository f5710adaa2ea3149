/** The stream and the copies of a device buffer, as the code runs them.

    Every method leaves the object in a state that the step system reaches: the ghost
    `trace` records the host and GPU steps taken, so all that is proved of runs holds here. */
module Stream {
  import opened Wrappers
  import opened Memory
  import opened DriverCalls
  import opened StageModel
  import opened StageProofs
  import opened StageTheorems
  import opened Slices
  import WideCopy

  /** The ways the staging loop can fail. */
  predicate Broken(r: Outcome) {
    r.Fail? ==> r.error.EventSynchronize? || r.error.EventRecord? || r.error.Memcpy?
  }

  /** The driver took the chunk, even if the event record after it failed. */
  predicate Accepted(r: Outcome) { r == Pass || r == Fail(EventRecord) }

  function Taint(r: Outcome, dst: nat, n: nat): set<nat> {
    if r == Fail(EventRecord) then Range(dst, n) else {}
  }

  /** A device buffer of `len` bytes. */
  datatype DeviceBuf = DeviceBuf(ptr: nat, len: nat)

  class Stream {
    const legacyOrdered: bool
    const driver: nat -> bool   // the driver's answers, call by call
    ghost const size: nat    // bytes of device address space
    var device: seq<byte>
    var user: seq<byte>
    var slots: seq<seq<byte>>
    var armed: seq<bool>
    var cursor: nat
    var queue: seq<Op>
    var asked: seq<Call>
    ghost var phase: Phase
    ghost var freed: bool
    ghost var wanted: seq<byte>
    ghost var dirty: set<nat>
    ghost var trace: seq<Label>
    ghost var history: seq<State>

    ghost function View(): State
      reads this
    {
      State(device, user, slots, armed, cursor, queue, phase, freed, wanted, dirty)
    }

    ghost predicate Valid()
      reads this
    {
      WellFormed(View()) && |device| == size && History(trace, history) && history[|trace|] == View()
    }

    /** Between calls: no staged copy holds the ring. */
    ghost predicate Ready()
      reads this
    {
      Valid() && phase.Idle? && !freed
    }

    ghost predicate InBounds(ptr: nat, from: nat, n: nat)
      reads this
    {
      ptr + n <= size && from + n <= |user|
    }

    constructor (legacyOrdered: bool, driver: nat -> bool, device: seq<byte>, user: seq<byte>, slots: seq<seq<byte>>)
      requires SlotsOk(slots)
      ensures Ready() && queue == [] && asked == [] && wanted == device && dirty == {}
      ensures cursor == 0 && armed == [false, false, false, false] && this.slots == slots
      ensures this.legacyOrdered == legacyOrdered && this.driver == driver
      ensures this.device == device && this.user == user
    {
      this.legacyOrdered, this.driver, this.size, asked := legacyOrdered, driver, |device|, [];
      this.device, this.user, this.slots := device, user, slots;
      armed, cursor, queue := [false, false, false, false], 0, [];
      phase, freed, wanted, dirty, trace := Idle, false, device, {}, [];
      history := [State(device, user, slots, [false, false, false, false], 0, [], Idle, false, device, {})];
    }

    /** The object's state is one the step system reaches. */
    lemma {:induction false} Reached()
      requires Valid()
      ensures Init(history[0]) && Run(history[0], trace) == Some(View()) && Inv(View())
    {
      HistoryRuns(trace, history);
      assert trace[..|trace|] == trace;
      Reachable(history[0], trace);
    }

    /** The fields have just been changed as step `l` of state `was` says: log it. */
    ghost method Took(l: Label, was: State)
      requires History(trace, history) && history[|trace|] == was
      requires WellFormed(was) && |was.device| == size && Enabled(was, l) && View() == Apply(was, l)
      modifies `trace, `history
      ensures Valid() && trace == old(trace) + [l]
    {
      ApplyWellFormed(was, l);
      HistorySnoc(trace, history, l, View());
      trace, history := trace + [l], history + [View()];
    }

    // ---- the device ----

    method GpuStep()
      requires Valid() && queue != []
      modifies `device, `queue, `trace, `history
      ensures Valid() && View() == Apply(old(View()), Gpu) && |queue| == |old(queue)| - 1
    {
      ghost var was := View();
      device := Execute(device, slots, queue[0]);
      queue := queue[1..];
      Took(Gpu, was);
    }

    /** The GPU makes some progress, perhaps none, perhaps all. */
    method GpuRuns()
      requires Valid()
      modifies `device, `queue, `trace, `history
      ensures Valid() && |queue| <= |old(queue)|
    {
      var n: nat := *;
      while n > 0 && queue != []
        invariant Valid() && |queue| <= |old(queue)|
      {
        GpuStep();
        n := n - 1;
      }
    }

    /** The GPU gets past the last record of the slot's event. */
    method GpuPasses(i: nat)
      requires Valid()
      modifies `device, `queue, `trace, `history
      ensures Valid() && Record(i) !in queue
    {
      while Record(i) in queue
        invariant Valid()
        decreases |queue|
      {
        GpuStep();
      }
    }

    method GpuFinishes()
      requires Valid()
      modifies `device, `queue, `trace, `history
      ensures Valid() && queue == []
    {
      while queue != []
        invariant Valid()
        decreases |queue|
      {
        GpuStep();
      }
    }

    // ---- driver calls ----

    /** What the calls made since followed, with the driver's answers, and how that ended. */
    twostate predicate Followed(new plan: seq<Call>, new r: Outcome)
      reads this
    {
      Follows(plan, driver, old(asked), asked, r)
    }

    /** The next driver call is `c`. */
    method Ask(c: Call) returns (ok: bool)
      modifies `asked
      ensures asked == old(asked) + [c] && ok == driver(|old(asked)|)
      ensures !c.Query? ==> Followed([c], if ok then Pass else Fail(ErrorOf(c)))
    {
      ok := driver(|asked|);
      asked := asked + [c];
      if !c.Query? {
        FollowsOne(c, driver, old(asked), asked, ok);
      }
    }

    /** `cuEventSynchronize`: on success the event's latest record has executed. */
    method SyncEvent(i: nat) returns (ok: bool)
      requires Valid()
      modifies `device, `queue, `asked, `trace, `history
      ensures Valid()
      ensures Followed([EventSync(i)], if ok then Pass else Fail(EventSynchronize))
      ensures ok ==> Record(i) !in queue
    {
      GpuRuns();
      ok := Ask(EventSync(i));
      if ok {
        GpuPasses(i);
      }
    }

    /** `cuStreamSynchronize`. */
    method Synchronize() returns (r: Outcome)
      requires Valid()
      modifies `device, `queue, `asked, `trace, `history
      ensures Valid()
      ensures Followed([StreamSync], r) && asked == old(asked) + [StreamSync]
      ensures r == if driver(|old(asked)|) then Pass else Fail(StreamSynchronize)
      ensures r.Pass? ==> queue == []
    {
      GpuRuns();
      var ok := Ask(StreamSync);
      if !ok {
        return Fail(StreamSynchronize);
      }
      GpuFinishes();
      return Pass;
    }

    /** Poll with `cuStreamQuery`, which reports success only on an idle stream, and wait
        only when it does not. */
    method Drain() returns (r: Outcome, ghost idle: bool)
      requires Valid()
      modifies `device, `queue, `asked, `trace, `history
      ensures Valid()
      ensures Followed(DrainPlan(false, idle), r)
      ensures idle ==> driver(|old(asked)|)
      ensures driver(|old(asked)|) && old(queue) == [] ==> idle
      ensures if r.Pass? then queue == [] else r == Fail(StreamSynchronize)
    {
      GpuRuns();
      var ok := Ask(Query);
      FollowsQuery(driver, old(asked), asked);
      idle := ok && queue == [];
      if ok && queue == [] {
        return Pass, true;
      }
      ghost var polled := asked;
      r := Synchronize();
      FollowsJoin([Query], [StreamSync], driver, old(asked), polled, asked, r);
    }

    /** The drain before a blocking copy: none on a legacy-ordered stream. */
    method DrainUnlessOrdered() returns (r: Outcome, ghost idle: bool)
      requires Valid()
      modifies `device, `queue, `asked, `trace, `history
      ensures Valid()
      ensures Followed(DrainPlan(legacyOrdered, idle), r)
      ensures Polled(idle)
      ensures if r.Pass? then legacyOrdered || queue == [] else r == Fail(StreamSynchronize)
    {
      idle := false;
      if legacyOrdered {
        FollowsNone(driver, asked);
        return Pass, false;
      }
      r, idle := Drain();
    }

    /** The poll reports an idle stream when the driver answers and nothing was queued, and
        only when it answers. */
    twostate predicate Polled(new idle: bool)
      reads this
    {
      !legacyOrdered ==>
        (idle ==> driver(|old(asked)|)) && (driver(|old(asked)|) && old(queue) == [] ==> idle)
    }

    // ---- host to device ----

    /** The staged copy holds the ring at stage `at` of the chunk at offset `off`. */
    ghost predicate Working(at: Stage)
      reads this
    {
      Valid() && !freed && phase.Busy? && phase.at == at && phase.off < |phase.src|
    }

    /** The wait fails: the call gives up before it has written anything. */
    ghost method GiveUpWaiting()
      requires Working(Top) && armed[cursor % STAGE_SLOTS]
      modifies `phase, `trace, `history
      ensures Valid() && phase == Idle
    {
      ghost var was := View();
      phase := Idle;
      Took(Wait(false), was);
    }

    /** The slot is the call's to write. */
    method TakeSlot()
      requires Working(Top) && (armed[cursor % STAGE_SLOTS] ==> Record(cursor % STAGE_SLOTS) !in queue)
      modifies `armed, `phase, `trace, `history
      ensures Working(Fill) && phase == old(phase).(at := Fill)
      ensures armed == old(armed)[cursor % STAGE_SLOTS := false]
    {
      ghost var was := View();
      armed := armed[cursor % STAGE_SLOTS := false];
      phase := phase.(at := Fill);
      Took(Wait(true), was);
    }

    /** A slot whose event is outstanding may still be read by the device: wait for it first. */
    method WaitForSlot() returns (ok: bool)
      requires Working(Top)
      modifies `device, `queue, `armed, `phase, `asked, `trace, `history
      ensures Valid()
      ensures ok ==> Working(Fill)
      ensures phase == if ok then old(phase).(at := Fill) else Idle
      ensures Followed(WaitPlan(old(armed), cursor), if ok then Pass else Fail(EventSynchronize))
      ensures armed == if ok then old(armed)[cursor % STAGE_SLOTS := false] else old(armed)
    {
      FollowsNone(driver, asked);
      GpuRuns();
      if armed[cursor % STAGE_SLOTS] {
        ok := SyncEvent(cursor % STAGE_SLOTS);
        if !ok {
          GiveUpWaiting();
          return;
        }
      }
      TakeSlot();
      return true;
    }

    /** The pinned bytes `wide_copy` leaves, with a pool of some size or none. */
    static method WidelyCopied(src: seq<byte>) returns (chunk: seq<byte>)
      ensures chunk == src
    {
      var pinned := new byte[|src|];
      var workers: seq<bool> := *;
      var pool: bool := *;
      WideCopy.WideCopy(src, pinned, if pool then Some(workers) else None);
      return pinned[..];
    }

    /** `wide_copy` of the chunk at address `src` into the first `n` bytes of the slot. */
    method FillSlot(src: nat, n: nat, ghost chunk: seq<byte>)
      requires Working(Fill) && src == phase.from + phase.off && n == ChunkLen(View())
      requires src + n <= |user| && user[src..src + n] == chunk == Chunk(View())
      modifies `device, `queue, `slots, `trace, `history
      ensures Working(Fill)
      ensures slots[Cur(View())][..n] == chunk
    {
      var i := cursor % STAGE_SLOTS;
      GpuRuns();
      var pinned := WidelyCopied(user[src..src + n]);
      ghost var was := View();
      slots := slots[i := Splice(slots[i], 0, pinned)];
      Took(FillPart(0, n), was);
      assert slots[i][..n] == pinned;
    }

    /** Queue the copy of the chunk out of its slot. */
    method SubmitSlot(dst: nat, n: nat, ghost chunk: seq<byte>) returns (ok: bool)
      requires Working(Fill) && dst == phase.dst + phase.off && n == ChunkLen(View())
      requires slots[Cur(View())][..n] == chunk == Chunk(View())
      modifies `device, `queue, `phase, `wanted, `dirty, `asked, `trace, `history
      ensures Valid()
      ensures asked == old(asked) + [ChunkCopy(dst, cursor % STAGE_SLOTS, n)] && ok == driver(|old(asked)|)
      ensures ok ==> Working(Queued)
      ensures phase == if ok then old(phase).(at := Queued) else Idle
      ensures Landed(old(wanted), old(dirty), wanted, dirty, dst, if ok then chunk else [], {})
    {
      GpuRuns();
      ok := Ask(ChunkCopy(dst, cursor % STAGE_SLOTS, n));
      if ok {
        Enqueue(dst, n, chunk);
      } else {
        GiveUpSubmitting(n, chunk);
        LandedNone(wanted, dirty, dst, [], 0);
      }
    }

    /** The driver refuses the copy. */
    ghost method GiveUpSubmitting(n: nat, chunk: seq<byte>)
      requires Working(Fill) && n == ChunkLen(View()) && slots[Cur(View())][..n] == chunk == Chunk(View())
      modifies `phase, `trace, `history
      ensures Valid() && phase == Idle
    {
      ghost var was := View();
      phase := Idle;
      Took(Submit(false), was);
    }

    /** The driver accepts the copy. */
    method Enqueue(dst: nat, n: nat, ghost chunk: seq<byte>)
      requires Working(Fill) && dst == phase.dst + phase.off && n == ChunkLen(View())
      requires slots[Cur(View())][..n] == chunk == Chunk(View())
      modifies `queue, `phase, `wanted, `dirty, `trace, `history
      ensures Working(Queued) && phase == old(phase).(at := Queued)
      ensures Landed(old(wanted), old(dirty), wanted, dirty, dst, chunk, {})
    {
      ghost var was := View();
      queue := queue + [Staged(dst, cursor % STAGE_SLOTS, n)];
      wanted := Splice(wanted, dst, chunk);
      dirty := dirty - Range(dst, n);
      phase := phase.(at := Queued);
      Took(Submit(true), was);
    }

    /** The event record fails behind the queued copy. */
    ghost method LoseRecord(dst: nat, n: nat)
      requires Working(Queued) && dst == phase.dst + phase.off && n == ChunkLen(View())
      modifies `phase, `dirty, `trace, `history
      ensures Valid() && phase == Idle && dirty == old(dirty) + Range(dst, n)
    {
      ghost var was := View();
      phase := Idle;
      dirty := dirty + Range(dst, n);
      Took(Mark(false), was);
    }

    /** Record the slot's event behind the copy and move on to the next slot. */
    method MarkSlot(dst: nat, n: nat) returns (ok: bool)
      requires Working(Queued) && dst == phase.dst + phase.off && n == ChunkLen(View())
      modifies `device, `queue, `armed, `cursor, `phase, `dirty, `asked, `trace, `history
      ensures Valid()
      ensures asked == old(asked) + [EventMark(old(cursor) % STAGE_SLOTS)] && ok == driver(|old(asked)|)
      ensures ok ==> cursor == old(cursor) + 1 && armed == old(armed)[old(cursor) % STAGE_SLOTS := true]
      ensures !ok ==> cursor == old(cursor) && armed == old(armed)
      ensures phase == if ok then old(phase).(at := Top, off := old(phase).off + n) else Idle
      ensures dirty == if ok then old(dirty) else old(dirty) + Range(dst, n)
    {
      GpuRuns();
      ok := Ask(EventMark(cursor % STAGE_SLOTS));
      if !ok {
        LoseRecord(dst, n);
        return;
      }
      ghost var was := View();
      queue := queue + [Record(cursor % STAGE_SLOTS)];
      armed := armed[cursor % STAGE_SLOTS := true];
      cursor := cursor + 1;
      phase := phase.(at := Top, off := phase.off + n);
      Took(Mark(true), was);
    }

    /** One iteration of the staging loop, for the chunk of `n` bytes from `src`. The driver
        accepts all of it or nothing; a failed event record taints it. */
    method StageChunk(dst: nat, src: nat, n: nat, ghost chunk: seq<byte>) returns (r: Outcome)
      requires Working(Top) && dst == phase.dst + phase.off && src == phase.from + phase.off && n == ChunkLen(View())
      requires src + n <= |user| && user[src..src + n] == chunk == Chunk(View())
      modifies `device, `queue, `slots, `armed, `cursor, `phase, `wanted, `dirty, `asked, `trace, `history
      ensures Valid()
      ensures Followed(ChunkPlan(old(armed), old(cursor), dst, n), r)
      ensures r.Pass? ==> cursor == old(cursor) + 1 && armed == old(armed)[old(cursor) % STAGE_SLOTS := true]
      ensures phase == if r.Pass? then old(phase).(off := old(phase).off + n) else Idle
      ensures Landed(old(wanted), old(dirty), wanted, dirty, dst, if Accepted(r) then chunk else [], Taint(r, dst, n))
      ensures Broken(r)
    {
      LandedNone(wanted, dirty, dst, [], 0);
      ghost var wait, publish := WaitPlan(armed, cursor), PublishPlan(cursor, dst, n);
      var ok := PrepareSlot(src, n, chunk);
      if !ok {
        FollowsCut(wait, publish, driver, old(asked), asked, Fail(EventSynchronize));
        return Fail(EventSynchronize);
      }
      ghost var waited := asked;
      r := PublishSlot(dst, n, chunk);
      FollowsJoin(wait, publish, driver, old(asked), waited, asked, r);
    }

    /** The host's half of an iteration: wait for the slot, then fill it. */
    method PrepareSlot(src: nat, n: nat, ghost chunk: seq<byte>) returns (ok: bool)
      requires Working(Top) && src == phase.from + phase.off && n == ChunkLen(View())
      requires src + n <= |user| && user[src..src + n] == chunk == Chunk(View())
      modifies `device, `queue, `slots, `armed, `phase, `asked, `trace, `history
      ensures Valid()
      ensures Followed(WaitPlan(old(armed), cursor), if ok then Pass else Fail(EventSynchronize))
      ensures ok ==> armed == old(armed)[cursor % STAGE_SLOTS := false]
      ensures phase == if ok then old(phase).(at := Fill) else Idle
      ensures ok ==> Working(Fill) && slots[Cur(View())][..n] == chunk
    {
      ok := WaitForSlot();
      if ok {
        FillSlot(src, n, chunk);
      }
    }

    /** The driver's half: queue the copy, then record the slot's event behind it. */
    method PublishSlot(dst: nat, n: nat, ghost chunk: seq<byte>) returns (r: Outcome)
      requires Working(Fill) && dst == phase.dst + phase.off && n == ChunkLen(View())
      requires slots[Cur(View())][..n] == chunk == Chunk(View())
      modifies `device, `queue, `armed, `cursor, `phase, `wanted, `dirty, `asked, `trace, `history
      ensures Valid()
      ensures Followed(PublishPlan(old(cursor), dst, n), r)
      ensures r.Pass? ==> cursor == old(cursor) + 1 && armed == old(armed)[old(cursor) % STAGE_SLOTS := true]
      ensures phase == if r.Pass? then old(phase).(at := Top, off := old(phase).off + n) else Idle
      ensures Landed(old(wanted), old(dirty), wanted, dirty, dst, if Accepted(r) then chunk else [], Taint(r, dst, n))
      ensures r == Pass || r == Fail(Memcpy) || r == Fail(EventRecord)
    {
      ghost var copy, mark := ChunkCopy(dst, cursor % STAGE_SLOTS, n), EventMark(cursor % STAGE_SLOTS);
      var ok := SubmitSlot(dst, n, chunk);
      ghost var d, submitted := dirty, asked;
      if !ok {
        FollowsTwo(copy, mark, driver, old(asked), submitted, asked, false, false);
        return Fail(Memcpy);
      }
      ok := MarkSlot(dst, n);
      FollowsTwo(copy, mark, driver, old(asked), submitted, asked, true, ok);
      r := if ok then Pass else Fail(EventRecord);
      if !ok {
        LandedTaint(old(wanted), old(dirty), wanted, d, dst, chunk);
      }
    }

    /** The same, accounted from the start `(w0, d0)` of the call. */
    method StageNext(ptr: nat, from: nat, off: nat, n: nat, ghost w0: seq<byte>, ghost d0: set<nat>)
      returns (r: Outcome, ghost sent: nat, ghost tainted: set<nat>)
      requires Working(Top) && ptr == phase.dst && from == phase.from && off == phase.off && n == ChunkLen(View())
      requires from + off <= |user| && Landed(w0, d0, wanted, dirty, ptr, user[from..from + off], {})
      modifies `device, `queue, `slots, `armed, `cursor, `phase, `wanted, `dirty, `asked, `trace, `history
      ensures Valid()
      ensures Followed(ChunkPlan(old(armed), old(cursor), ptr + off, n), r)
      ensures r.Pass? ==> cursor == old(cursor) + 1 && armed == old(armed)[old(cursor) % STAGE_SLOTS := true]
      ensures phase == if r.Pass? then old(phase).(off := off + n) else Idle
      ensures off <= sent <= off + n && (r.Pass? ==> sent == off + n) && from + sent <= |user|
      ensures Landed(w0, d0, wanted, dirty, ptr, user[from..from + sent], tainted)
      ensures (r != Fail(EventRecord) ==> tainted == {}) && Broken(r)
    {
      SourceChunk(View());
      ghost var w, d := wanted, dirty;
      r := StageChunk(ptr + off, from + off, n, user[from + off..from + off + n]);
      sent := if Accepted(r) then off + n else off;
      tainted := Taint(r, ptr + off, n);
      LandedChunk(w0, d0, w, d, wanted, dirty, ptr, user, from, off, n, r, sent);
    }

    /** The same, with the driver calls of the rest of the copy. */
    method StageOn(ptr: nat, from: nat, off: nat, n: nat, ghost bytes: nat, ghost w0: seq<byte>, ghost d0: set<nat>,
                   ghost end: Played)
      returns (r: Outcome, ghost sent: nat, ghost tainted: set<nat>)
      requires Working(Top) && ptr == phase.dst && from == phase.from && off == phase.off && n == ChunkLen(View())
      requires off < bytes && n == Min(bytes - off, STAGE_CHUNK) && Left(ptr, bytes, off) == end
      requires from + off <= |user| && Landed(w0, d0, wanted, dirty, ptr, user[from..from + off], {})
      modifies `device, `queue, `slots, `armed, `cursor, `phase, `wanted, `dirty, `asked, `trace, `history
      ensures Valid()
      ensures phase == if r.Pass? then old(phase).(off := off + n) else Idle
      ensures off <= sent <= off + n && (r.Pass? ==> sent == off + n) && from + sent <= |user|
      ensures Landed(w0, d0, wanted, dirty, ptr, user[from..from + sent], tainted)
      ensures (r != Fail(EventRecord) ==> tainted == {}) && Broken(r)
      ensures end == if r.Pass? then Left(ptr, bytes, off + n) else Played(asked, r)
    {
      ghost var a, c, s1 := armed, cursor, asked;
      r, sent, tainted := StageNext(ptr, from, off, n, w0, d0);
      PlanGoesOn(a, c, ptr + off, bytes - off, driver, s1, asked, r);
    }

    /** How a staged copy of `bytes` bytes will end that has `off` of them behind it. */
    ghost function Left(ptr: nat, bytes: nat, off: nat): Played
      requires |armed| == STAGE_SLOTS && off <= bytes
      reads this
    {
      Play(StagePlan(armed, cursor, ptr + off, bytes - off), driver, asked)
    }

    static lemma {:induction false} SourceChunk(s: State)
      requires WellFormed(s) && s.phase.Busy?
      ensures var src := s.phase.from + s.phase.off;
              src + ChunkLen(s) <= |s.user| && Chunk(s) == s.user[src..src + ChunkLen(s)]
    {
      var p := s.phase;
      SliceOfSlice(s.user, p.from, |p.src|, p.off, ChunkLen(s));
      assert p.src == s.user[p.from..p.from + |p.src|];
    }

    /** Take the ring's lock for a copy of `bytes` bytes. */
    ghost method LockRing(ptr: nat, from: nat, bytes: nat)
      requires Ready() && InBounds(ptr, from, bytes)
      modifies `phase, `trace, `history
      ensures Valid() && phase == Busy(ptr, from, user[from..from + bytes], 0, Top)
    {
      ghost var was := View();
      phase := Busy(ptr, from, user[from..from + bytes], 0, Top);
      Took(Begin(ptr, from, bytes), was);
    }

    /** Release it at the end of the loop. */
    ghost method UnlockRing()
      requires Valid() && phase.Busy? && phase.at == Top && phase.off == |phase.src|
      modifies `phase, `trace, `history
      ensures Valid() && phase.Idle?
    {
      ghost var was := View();
      phase := Idle;
      Took(Finish, was);
    }

    /** The staging loop, the ring's lock held. */
    method StageAll(ptr: nat, from: nat, bytes: nat)
      returns (r: Outcome, ghost sent: nat, ghost tainted: set<nat>)
      requires Valid() && !freed && InBounds(ptr, from, bytes)
      requires phase.Busy? && phase.at == Top && phase.off == 0
      requires phase.dst == ptr && phase.from == from && |phase.src| == bytes
      modifies `device, `queue, `slots, `armed, `cursor, `phase, `wanted, `dirty, `asked, `trace, `history
      ensures Valid() && phase == if r.Pass? then old(phase).(off := bytes) else Idle
      ensures Played(asked, r) == old(Left(ptr, bytes, 0))
      ensures if r.Pass? then sent == bytes else sent <= bytes
      ensures Landed(old(wanted), old(dirty), wanted, dirty, ptr, user[from..from + sent], tainted)
      ensures (r != Fail(EventRecord) ==> tainted == {}) && Broken(r)
    {
      var off := 0;
      r, sent, tainted := Pass, 0, {};
      LandedNone(wanted, dirty, ptr, user, from);
      ghost var call, end := phase, Left(ptr, bytes, 0);
      while off < bytes
        invariant sent == off <= bytes && Valid() && r.Pass? && tainted == {}
        invariant phase == call.(off := off)
        invariant Landed(old(wanted), old(dirty), wanted, dirty, ptr, user[from..from + sent], tainted)
        invariant Left(ptr, bytes, off) == end
      {
        var n := Min(bytes - off, STAGE_CHUNK);
        r, sent, tainted := StageOn(ptr, from, off, n, bytes, old(wanted), old(dirty), end);
        if r.Fail? {
          return;
        }
        off := off + n;
      }
    }

    /** The staged copy. `sent` bytes were handed to the driver, all of them on success; the
        reference is a memcpy of those and only a failed event record taints any. */
    method CopyFromHostStaged(ptr: nat, from: nat, bytes: nat)
      returns (r: Outcome, ghost sent: nat, ghost tainted: set<nat>)
      requires Ready() && InBounds(ptr, from, bytes)
      modifies `device, `queue, `slots, `armed, `cursor, `phase, `wanted, `dirty, `asked, `trace, `history
      ensures Ready()
      ensures Followed(StagePlan(old(armed), old(cursor), ptr, bytes), r)
      ensures sent <= bytes && (r.Pass? ==> sent == bytes)
      ensures Landed(old(wanted), old(dirty), wanted, dirty, ptr, user[from..from + sent], tainted)
      ensures (r != Fail(EventRecord) ==> tainted == {}) && Broken(r)
    {
      LockRing(ptr, from, bytes);
      r, sent, tainted := StageAll(ptr, from, bytes);
      if r.Pass? {
        UnlockRing();
      }
    }

    /** The driver takes its own copy of the source and queues it. */
    method QueueDirect(dst: nat, from: nat, n: nat)
      requires Ready() && InBounds(dst, from, n)
      modifies `queue, `wanted, `dirty, `trace, `history
      ensures Ready()
      ensures Landed(old(wanted), old(dirty), wanted, dirty, dst, user[from..from + n], {})
    {
      LandedWrite(wanted, dirty, dst, user[from..from + n]);
      ghost var was := View();
      queue := queue + [Direct(dst, user[from..from + n])];
      wanted := Splice(wanted, dst, user[from..from + n]);
      dirty := dirty - Range(dst, n);
      Took(Async(dst, from, n), was);
    }

    /** `cuMemcpyHtoDAsync` from pageable memory: all of the source is queued before it returns,
        or, when it fails, nothing is. */
    method MemcpyAsync(dst: nat, from: nat, n: nat) returns (r: Outcome, ghost sent: nat)
      requires Ready() && InBounds(dst, from, n)
      modifies `device, `queue, `wanted, `dirty, `asked, `trace, `history
      ensures Ready()
      ensures Followed([AsyncCopy(dst, from, n)], r)
      ensures if r.Pass? then sent == n else r == Fail(Memcpy) && sent == 0
      ensures Landed(old(wanted), old(dirty), wanted, dirty, dst, user[from..from + sent], {})
    {
      GpuRuns();
      var queued := Ask(AsyncCopy(dst, from, n));
      if queued {
        QueueDirect(dst, from, n);
        return Pass, n;
      }
      LandedNone(wanted, dirty, dst, user, from);
      return Fail(Memcpy), 0;
    }

    /** From the threshold up through the ring, below it in one driver call. */
    method Send(ptr: nat, from: nat, n: nat) returns (r: Outcome, ghost sent: nat, ghost tainted: set<nat>)
      requires Ready() && InBounds(ptr, from, n) && n > 0
      modifies `device, `queue, `slots, `armed, `cursor, `phase, `wanted, `dirty, `asked, `trace, `history
      ensures Ready()
      ensures Followed(SendPlan(old(armed), old(cursor), ptr, from, n), r)
      ensures sent <= n && (r.Pass? ==> sent == n)
      ensures Landed(old(wanted), old(dirty), wanted, dirty, ptr, user[from..from + sent], tainted)
      ensures (r != Fail(EventRecord) ==> tainted == {}) && r != Fail(LengthMismatch)
    {
      tainted := {};
      if n >= STAGE_THRESHOLD {
        r, sent, tainted := CopyFromHostStaged(ptr, from, n);
      } else {
        r, sent := MemcpyAsync(ptr, from, n);
      }
    }

    /** `copy_from_host`: nothing for an empty buffer, staged from two chunks up, one
        asynchronous driver call in between. It fails exactly when the lengths differ or the
        driver refuses one of these calls. */
    method CopyFromHost(buf: DeviceBuf, from: nat, n: nat)
      returns (r: Outcome, ghost sent: nat, ghost tainted: set<nat>)
      requires Ready() && buf.ptr + buf.len <= size && from + n <= |user|
      modifies `device, `queue, `slots, `armed, `cursor, `phase, `wanted, `dirty, `asked, `trace, `history
      ensures Ready()
      ensures n != buf.len ==> r == Fail(LengthMismatch) && Untouched()
      ensures n == buf.len ==> Followed(SendPlan(old(armed), old(cursor), buf.ptr, from, n), r)
      ensures r == Fail(LengthMismatch) <==> n != buf.len
      ensures sent <= n && (r.Pass? ==> sent == n) && (n != buf.len ==> sent == 0)
      ensures Landed(old(wanted), old(dirty), wanted, dirty, buf.ptr, user[from..from + sent], tainted)
      ensures tainted != {} ==> r == Fail(EventRecord)
    {
      LandedNone(wanted, dirty, buf.ptr, user, from);
      if n != buf.len {
        return Fail(LengthMismatch), 0, {};
      }
      if n == 0 {
        FollowsNone(driver, asked);
        return Pass, 0, {};
      }
      r, sent, tainted := Send(buf.ptr, from, n);
    }

    /** No driver call, no step of the stream. */
    twostate predicate Untouched()
      reads this
    {
      asked == old(asked) && trace == old(trace) && View() == old(View())
    }

    /** `cuMemcpyHtoD`. On a legacy-ordered stream the driver orders it after everything
        queued; on a non-blocking one the caller must have drained the stream. */
    method MemcpyBlocking(dst: nat, from: nat, n: nat) returns (r: Outcome)
      requires Ready() && InBounds(dst, from, n)
      requires !legacyOrdered ==> queue == []
      modifies `device, `queue, `wanted, `dirty, `asked, `trace, `history
      ensures Ready()
      ensures Followed([WriteCopy(dst, from, n)], r)
      ensures r.Pass? ==> queue == [] && Landed(old(wanted), old(dirty), wanted, dirty, dst, user[from..from + n], {})
      ensures r.Fail? ==> r == Fail(Memcpy) && wanted == old(wanted) && dirty == old(dirty)
    {
      var ok := Ask(WriteCopy(dst, from, n));
      if !ok {
        GpuRuns();
        return Fail(Memcpy);
      }
      WriteThrough(dst, from, n);
      return Pass;
    }

    /** The driver writes the device once everything queued has run. */
    method WriteThrough(dst: nat, from: nat, n: nat)
      requires Ready() && InBounds(dst, from, n)
      modifies `device, `queue, `wanted, `dirty, `trace, `history
      ensures Ready() && queue == []
      ensures Landed(old(wanted), old(dirty), wanted, dirty, dst, user[from..from + n], {})
    {
      GpuFinishes();
      LandedWrite(wanted, dirty, dst, user[from..from + n]);
      ghost var was := View();
      device := Splice(device, dst, user[from..from + n]);
      wanted := Splice(wanted, dst, user[from..from + n]);
      dirty := dirty - Range(dst, n);
      Took(Blocking(dst, from, n), was);
    }

    /** A blocking write of `n > 0` bytes: drain unless the stream is legacy ordered, then copy. */
    method DrainAndWrite(dst: nat, from: nat, n: nat) returns (r: Outcome, ghost idle: bool)
      requires Ready() && InBounds(dst, from, n)
      modifies `device, `queue, `wanted, `dirty, `asked, `trace, `history
      ensures Ready()
      ensures Followed(DrainPlan(legacyOrdered, idle) + [WriteCopy(dst, from, n)], r) && Polled(idle)
      ensures r.Pass? ==> queue == [] && Landed(old(wanted), old(dirty), wanted, dirty, dst, user[from..from + n], {})
      ensures r.Fail? ==> wanted == old(wanted) && dirty == old(dirty) && !r.error.LengthMismatch?
    {
      r, idle := DrainUnlessOrdered();
      ghost var drain, drained := DrainPlan(legacyOrdered, idle), asked;
      if r.Fail? {
        FollowsCut(drain, [WriteCopy(dst, from, n)], driver, old(asked), asked, r);
        return;
      }
      r := MemcpyBlocking(dst, from, n);
      FollowsJoin(drain, [WriteCopy(dst, from, n)], driver, old(asked), drained, asked, r);
    }

    /** `copy_from_host_blocking`. */
    method CopyFromHostBlocking(buf: DeviceBuf, from: nat, n: nat) returns (r: Outcome, ghost idle: bool)
      requires Ready() && buf.ptr + buf.len <= size && from + n <= |user|
      modifies `device, `queue, `wanted, `dirty, `asked, `trace, `history
      ensures Ready()
      ensures n != buf.len ==> r == Fail(LengthMismatch) && Untouched()
      ensures n == buf.len == 0 ==> r == Pass && Untouched()
      ensures n == buf.len > 0 ==>
                Followed(DrainPlan(legacyOrdered, idle) + [WriteCopy(buf.ptr, from, n)], r) && Polled(idle)
      ensures r == Fail(LengthMismatch) <==> n != buf.len
      ensures r.Pass? ==> Landed(old(wanted), old(dirty), wanted, dirty, buf.ptr, user[from..from + n], {})
      ensures r.Pass? && n > 0 ==> queue == []
      ensures r.Fail? ==> wanted == old(wanted) && dirty == old(dirty)
    {
      idle := false;
      if n != buf.len {
        return Fail(LengthMismatch), false;
      }
      LandedNone(wanted, dirty, buf.ptr, user, from);
      if n == 0 {
        return Pass, false;
      }
      r, idle := DrainAndWrite(buf.ptr, from, n);
    }

    /** From the threshold up: the staged copy, then the wait for the stream. */
    method SendAndWait(buf: DeviceBuf, from: nat, n: nat)
      returns (r: Outcome, ghost sent: nat, ghost tainted: set<nat>)
      requires Ready() && buf.ptr + buf.len <= size && from + n <= |user| && n == buf.len >= STAGE_THRESHOLD
      modifies `device, `queue, `slots, `armed, `cursor, `phase, `wanted, `dirty, `asked, `trace, `history
      ensures Ready()
      ensures Followed(StagePlan(old(armed), old(cursor), buf.ptr, n) + [StreamSync], r)
      ensures r.Pass? ==> queue == []
      ensures sent <= n && (r.Pass? ==> sent == n) && (tainted != {} ==> r == Fail(EventRecord))
      ensures Landed(old(wanted), old(dirty), wanted, dirty, buf.ptr, user[from..from + sent], tainted)
      ensures r != Fail(LengthMismatch)
    {
      ghost var plan := StagePlan(armed, cursor, buf.ptr, n);
      r, sent, tainted := CopyFromHost(buf, from, n);
      if r.Fail? {
        FollowsCut(plan, [StreamSync], driver, old(asked), asked, r);
        return;
      }
      ghost var staged := asked;
      r := Synchronize();
      FollowsJoin(plan, [StreamSync], driver, old(asked), staged, asked, r);
    }

    /** The faster path for the size. */
    method SendBySize(buf: DeviceBuf, from: nat, n: nat)
      returns (r: Outcome, ghost idle: bool, ghost sent: nat, ghost tainted: set<nat>)
      requires Ready() && buf.ptr + buf.len <= size && from + n <= |user| && n == buf.len
      modifies `device, `queue, `slots, `armed, `cursor, `phase, `wanted, `dirty, `asked, `trace, `history
      ensures Ready()
      ensures n == 0 ==> r == Pass && Untouched()
      ensures n > 0 ==> Followed(SyncPlan(old(armed), old(cursor), legacyOrdered, idle, buf.ptr, from, n), r)
      ensures 0 < n < STAGE_THRESHOLD ==> Polled(idle)
      ensures r != Fail(LengthMismatch)
      ensures sent <= n && (r.Pass? ==> sent == n) && (tainted != {} ==> r == Fail(EventRecord))
      ensures Landed(old(wanted), old(dirty), wanted, dirty, buf.ptr, user[from..from + sent], tainted)
      ensures r.Pass? && n > 0 ==> queue == []
    {
      if n >= STAGE_THRESHOLD {
        idle := false;
        r, sent, tainted := SendAndWait(buf, from, n);
      } else {
        LandedNone(wanted, dirty, buf.ptr, user, from);
        r, idle := CopyFromHostBlocking(buf, from, n);
        sent, tainted := if r.Pass? then n else 0, {};
      }
    }

    /** `copy_from_host_sync`: on success the buffer holds the source on the device itself and,
        unless the buffer is empty, the stream is idle, on either kind of stream and on either
        side of the staging threshold. Otherwise the reference has changed by what was sent. */
    method CopyFromHostSync(buf: DeviceBuf, from: nat, n: nat)
      returns (r: Outcome, ghost idle: bool, ghost sent: nat, ghost tainted: set<nat>)
      requires Ready() && buf.ptr + buf.len <= size && from + n <= |user|
      modifies `device, `queue, `slots, `armed, `cursor, `phase, `wanted, `dirty, `asked, `trace, `history
      ensures Ready()
      ensures n != buf.len ==> r == Fail(LengthMismatch) && Untouched()
      ensures n == buf.len == 0 ==> r == Pass && Untouched()
      ensures n == buf.len > 0 ==> Followed(SyncPlan(old(armed), old(cursor), legacyOrdered, idle, buf.ptr, from, n), r)
      ensures 0 < n == buf.len < STAGE_THRESHOLD ==> Polled(idle)
      ensures r == Fail(LengthMismatch) <==> n != buf.len
      ensures sent <= n && (r.Pass? ==> sent == n) && (tainted != {} ==> r == Fail(EventRecord))
      ensures Landed(old(wanted), old(dirty), wanted, dirty, buf.ptr, user[from..from + sent], tainted)
      ensures r.Pass? && n > 0 ==> queue == [] && device[buf.ptr..buf.ptr + n] == user[from..from + n]
    {
      if n != buf.len {
        LandedNone(wanted, dirty, buf.ptr, user, from);
        return Fail(LengthMismatch), false, 0, {};
      }
      r, idle, sent, tainted := SendBySize(buf, from, n);
      if r.Pass? && n > 0 {
        LandedIsRead(buf.ptr, user[from..from + n], old(wanted), old(dirty));
      }
    }

    /** Bytes that have just landed are on the device once the queue is empty. */
    lemma {:induction false} LandedIsRead(ptr: nat, data: seq<byte>, w0: seq<byte>, d0: set<nat>)
      requires Valid() && queue == [] && |w0| == size && Landed(w0, d0, wanted, dirty, ptr, data, {})
      ensures device[ptr..ptr + |data|] == data
    {
      Reached();
      assert wanted[ptr..ptr + |data|] == data;
      HeldIsRead(View(), ptr, data);
    }

    // ---- device to host ----

    /** `cuMemcpyDtoH`, ordered like `cuMemcpyHtoD`. */
    method ReadBlocking(ptr: nat, dst: array<byte>) returns (r: Outcome)
      requires Ready() && ptr + dst.Length <= size
      requires !legacyOrdered ==> queue == []
      modifies `device, `queue, `asked, `trace, `history, dst
      ensures Ready()
      ensures Followed([ReadCopy(ptr, dst.Length)], r)
      ensures r.Pass? ==> queue == [] && dst[..] == device[ptr..ptr + dst.Length]
      ensures r.Fail? ==> r == Fail(Memcpy) && dst[..] == old(dst[..])
    {
      var ok := Ask(ReadCopy(ptr, dst.Length));
      if !ok {
        GpuRuns();
        return Fail(Memcpy);
      }
      GpuFinishes();
      forall a | 0 <= a < dst.Length {
        dst[a] := device[ptr + a];
      }
      return Pass;
    }

    /** Fault the destination's pages in, then read. */
    method FaultInAndRead(ptr: nat, dst: array<byte>) returns (r: Outcome)
      requires Ready() && ptr + dst.Length <= size
      requires !legacyOrdered ==> queue == []
      modifies `device, `queue, `asked, `trace, `history, dst
      ensures Ready()
      ensures Followed([ReadCopy(ptr, dst.Length)], r)
      ensures r.Pass? ==> queue == [] && dst[..] == device[ptr..ptr + dst.Length]
      ensures r.Fail? ==> r == Fail(Memcpy) && FaultedIn(old(dst[..]), dst[..])
    {
      var workers: seq<bool> := *;
      var pool: bool := *;
      ghost var touched := WideCopy.Prefault(dst, if pool then Some(workers) else None);
      assert FaultedIn(old(dst[..]), dst[..]);
      r := ReadBlocking(ptr, dst);
    }

    /** A read of at least one byte: drain unless the stream is legacy ordered, then read. */
    method DrainAndRead(ptr: nat, dst: array<byte>) returns (r: Outcome, ghost idle: bool)
      requires Ready() && ptr + dst.Length <= size
      modifies `device, `queue, `asked, `trace, `history, dst
      ensures Ready()
      ensures Followed(DrainPlan(legacyOrdered, idle) + [ReadCopy(ptr, dst.Length)], r) && Polled(idle)
      ensures r.Pass? ==> queue == [] && dst[..] == device[ptr..ptr + dst.Length]
      ensures r.Fail? ==> r != Fail(LengthMismatch) && FaultedIn(old(dst[..]), dst[..])
      ensures r == Fail(StreamSynchronize) ==> dst[..] == old(dst[..])
    {
      r, idle := DrainUnlessOrdered();
      ghost var drain, drained := DrainPlan(legacyOrdered, idle), asked;
      if r.Fail? {
        FollowsCut(drain, [ReadCopy(ptr, dst.Length)], driver, old(asked), asked, r);
        return;
      }
      r := FaultInAndRead(ptr, dst);
      FollowsJoin(drain, [ReadCopy(ptr, dst.Length)], driver, old(asked), drained, asked, r);
    }

    /** `copy_to_host_blocking`: on success `dst` holds what the reference holds, except where
        a failed event record tainted it, that is, everything written before by whatever path,
        in order. It fails exactly when the lengths differ or the driver refuses one of its calls. */
    method CopyToHostBlocking(buf: DeviceBuf, dst: array<byte>) returns (r: Outcome, ghost idle: bool)
      requires Ready() && buf.ptr + buf.len <= size
      modifies `device, `queue, `asked, `trace, `history, dst
      ensures Ready()
      ensures dst.Length != buf.len ==> r == Fail(LengthMismatch) && Untouched() && dst[..] == old(dst[..])
      ensures dst.Length == buf.len == 0 ==> r == Pass && Untouched()
      ensures dst.Length == buf.len > 0 ==>
                Followed(DrainPlan(legacyOrdered, idle) + [ReadCopy(buf.ptr, buf.len)], r) && Polled(idle)
      ensures r == Fail(LengthMismatch) <==> dst.Length != buf.len
      ensures r.Pass? ==> forall a :: 0 <= a < buf.len && buf.ptr + a !in dirty ==> dst[a] == wanted[buf.ptr + a]
      ensures r.Pass? && buf.len > 0 ==> queue == []
      ensures r.Fail? ==> FaultedIn(old(dst[..]), dst[..])
      ensures r == Fail(StreamSynchronize) ==> dst[..] == old(dst[..])
    {
      Reached();
      idle := false;
      if dst.Length != buf.len {
        return Fail(LengthMismatch), false;
      }
      if buf.len == 0 {
        return Pass, false;
      }
      r, idle := DrainAndRead(buf.ptr, dst);
      if r.Pass? {
        IdleIsReference();
      }
    }

    /** `copy_to_host_sync` always takes the blocking path. */
    method CopyToHostSync(buf: DeviceBuf, dst: array<byte>) returns (r: Outcome, ghost idle: bool)
      requires Ready() && buf.ptr + buf.len <= size
      modifies `device, `queue, `asked, `trace, `history, dst
      ensures Ready()
      ensures dst.Length != buf.len ==> r == Fail(LengthMismatch) && Untouched() && dst[..] == old(dst[..])
      ensures dst.Length == buf.len == 0 ==> r == Pass && Untouched()
      ensures dst.Length == buf.len > 0 ==>
                Followed(DrainPlan(legacyOrdered, idle) + [ReadCopy(buf.ptr, buf.len)], r) && Polled(idle)
      ensures r == Fail(LengthMismatch) <==> dst.Length != buf.len
      ensures r.Pass? ==> forall a :: 0 <= a < buf.len && buf.ptr + a !in dirty ==> dst[a] == wanted[buf.ptr + a]
      ensures r.Pass? && buf.len > 0 ==> queue == []
      ensures r.Fail? ==> FaultedIn(old(dst[..]), dst[..])
      ensures r == Fail(StreamSynchronize) ==> dst[..] == old(dst[..])
    {
      Reached();
      idle := false;
      if dst.Length != buf.len {
        return Fail(LengthMismatch), false;
      }
      if buf.len == 0 {
        return Pass, false;
      }
      r, idle := CopyToHostBlocking(buf, dst);
    }

    lemma {:induction false} IdleIsReference()
      requires Valid() && queue == []
      ensures |device| == |wanted| && forall a :: 0 <= a < |device| && a !in dirty ==> device[a] == wanted[a]
    {
      Reached();
      DrainedDeviceIsReference(history[0], trace);
    }

    /** `Stream::drop`: synchronise, ignoring the result, then free the ring. The one driver
        call is the synchronisation; when the driver answers it nothing pending reads the
        freed chunks, and the step taken is the harmless drop. */
    method Destroy() returns (synced: bool)
      requires Ready()
      modifies `device, `queue, `asked, `freed, `trace, `history
      ensures Valid() && freed
      ensures asked == old(asked) + [StreamSync] && synced == driver(|old(asked)|)
      ensures synced ==> queue == []
      ensures trace != [] && trace[|trace| - 1] == Drop(synced)
    {
      var s := Synchronize();
      synced := s.Pass?;
      ghost var was := View();
      freed := true;
      Took(Drop(synced), was);
    }
  }

  /** Prefaulting leaves every byte as it was or zero, and only a page's first byte can be zeroed. */
  ghost predicate FaultedIn(was: seq<byte>, now: seq<byte>) {
    |now| == |was| && forall a :: 0 <= a < |was| ==>
      now[a] == was[a] || (now[a] == 0 && a % PAGE == 0 && |was| >= PREFAULT_MIN)
  }

  /** Going from reference `(w0, d0)` to `(w1, d1)` is a memcpy of `data` to `ptr` that clears
      the taint of its range, except for `tainted`. */
  ghost predicate Landed(w0: seq<byte>, d0: set<nat>, w1: seq<byte>, d1: set<nat>, ptr: nat, data: seq<byte>,
                         tainted: set<nat>) {
    && ptr + |data| <= |w0|
    && w1 == Splice(w0, ptr, data)
    && d1 == d0 - Range(ptr, |data|) + tainted
    && tainted <= Range(ptr, |data|)
  }

  lemma {:induction false} LandedNone(w: seq<byte>, d: set<nat>, ptr: nat, user: seq<byte>, from: nat)
    requires ptr <= |w| && from <= |user|
    ensures Landed(w, d, w, d, ptr, [], {}) && Landed(w, d, w, d, ptr, user[from..from + 0], {})
  {
  }

  lemma {:induction false} LandedWrite(w: seq<byte>, d: set<nat>, ptr: nat, data: seq<byte>)
    requires ptr + |data| <= |w|
    ensures Landed(w, d, Splice(w, ptr, data), d - Range(ptr, |data|), ptr, data, {})
  {
  }

  lemma {:induction false} LandedTaint(w0: seq<byte>, d0: set<nat>, w1: seq<byte>, d1: set<nat>, ptr: nat,
                                       data: seq<byte>)
    requires Landed(w0, d0, w1, d1, ptr, data, {})
    ensures Landed(w0, d0, w1, d1 + Range(ptr, |data|), ptr, data, Range(ptr, |data|))
  {
  }

  /** The bytes sent before the chunk, and the chunk if the driver took it. */
  lemma {:induction false} LandedChunk(w0: seq<byte>, d0: set<nat>, w1: seq<byte>, d1: set<nat>, w2: seq<byte>,
                                       d2: set<nat>, ptr: nat, user: seq<byte>, from: nat, off: nat, n: nat,
                                       r: Outcome, sent: nat)
    requires from + off + n <= |user| && sent == if Accepted(r) then off + n else off
    requires Landed(w0, d0, w1, d1, ptr, user[from..from + off], {})
    requires Landed(w1, d1, w2, d2, ptr + off, if Accepted(r) then user[from + off..from + off + n] else [],
                    Taint(r, ptr + off, n))
    ensures Landed(w0, d0, w2, d2, ptr, user[from..from + sent], Taint(r, ptr + off, n))
  {
    if Accepted(r) {
      LandedNext(w0, d0, w1, d1, w2, d2, ptr, user, from, off, n, Taint(r, ptr + off, n));
    } else {
      assert user[from + off..from + off + 0] == [];
      LandedNext(w0, d0, w1, d1, w2, d2, ptr, user, from, off, 0, {});
    }
  }

  lemma {:induction false} LandedNext(w0: seq<byte>, d0: set<nat>, w1: seq<byte>, d1: set<nat>, w2: seq<byte>,
                                      d2: set<nat>, ptr: nat, user: seq<byte>, from: nat, off: nat, n: nat,
                                      tainted: set<nat>)
    requires from + off + n <= |user|
    requires Landed(w0, d0, w1, d1, ptr, user[from..from + off], {})
    requires Landed(w1, d1, w2, d2, ptr + off, user[from + off..from + off + n], tainted)
    ensures Landed(w0, d0, w2, d2, ptr, user[from..from + off + n], tainted)
  {
    var first, second := user[from..from + off], user[from + off..from + off + n];
    SpliceAdjacent(w0, ptr, first, second);
    assert first + second == user[from..from + off + n];
    assert Range(ptr, off + n) == Range(ptr, off) + Range(ptr + off, n);
  }
}
