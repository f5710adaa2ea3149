/** Safety of the pinned ring over whole runs: exactly which driver failures break it, and what
    a run without them promises. */
module RingSafety {
  import opened Wrappers
  import opened Memory
  import opened StageModel
  import opened StageProofs
  import opened StageTheorems

  // ---- counting pending copies ----

  function CountReads(q: seq<Op>, i: nat): (c: nat)
    ensures c == 0 ==> forall k :: 0 <= k < |q| ==> !Reads(q[k], i)
  {
    if q == [] then 0 else (if Reads(q[0], i) then 1 else 0) + CountReads(q[1..], i)
  }

  function CountStaged(q: seq<Op>): nat {
    if q == [] then 0 else (if q[0].Staged? then 1 else 0) + CountStaged(q[1..])
  }

  lemma {:induction false} CountReadsSnoc(q: seq<Op>, op: Op, i: nat)
    ensures CountReads(q + [op], i) == CountReads(q, i) + if Reads(op, i) then 1 else 0
  {
    if q == [] {
      assert CountReads([op][1..], i) == 0;
    } else {
      CountReadsSnoc(q[1..], op, i);
      assert (q + [op])[1..] == q[1..] + [op];
    }
  }

  lemma {:induction false} CountReadsZero(q: seq<Op>, i: nat)
    requires forall k :: 0 <= k < |q| ==> !Reads(q[k], i)
    ensures CountReads(q, i) == 0
  {
    if q != [] { CountReadsZero(q[1..], i); }
  }

  lemma {:induction false} CountStagedSplit(q: seq<Op>, size: nat)
    requires QueueOk(q, size)
    ensures CountStaged(q) == CountReads(q, 0) + CountReads(q, 1) + CountReads(q, 2) + CountReads(q, 3)
  {
    if q != [] {
      CountStagedSplit(q[1..], size);
      assert OpOk(q[0], size);
    }
  }

  /** An unarmed slot has no pending copy and a protected one at most one; a destroyed ring
      has none. */
  ghost predicate RingSafe(s: State)
    requires WellFormed(s)
  {
    && (forall i :: 0 <= i < STAGE_SLOTS ==> CountReads(s.queue, i) <= if Protected(s, i) then 1 else 0)
    && (s.freed ==> s.phase.Idle? && CountStaged(s.queue) == 0)
  }

  // ---- harmful failures ----

  /** A failing event record while the chunk's copy is still queued, or a failing
      synchronisation in `Stream::drop` while any copy out of the ring is. */
  predicate Harmful(s: State, l: Label) {
    match l
    case Mark(ok) => !ok && exists k :: 0 <= k < |s.queue| && Reads(s.queue[k], Cur(s))
    case Drop(ok) => !ok && CountStaged(s.queue) > 0
    case _ => false
  }

  /** No step of the run is harmful. */
  predicate Harmless(s: State, ls: seq<Label>)
    requires WellFormed(s) && Run(s, ls).Some?
    decreases |ls|
  {
    ls == [] || (Harmless(s, ls[..|ls| - 1]) && !Harmful(Run(s, ls[..|ls| - 1]).value, ls[|ls| - 1]))
  }

  /** The ring is safe in every state of the run. */
  ghost predicate SafeThroughout(s: State, ls: seq<Label>)
    requires WellFormed(s) && Run(s, ls).Some?
    decreases |ls|
  {
    RingSafe(Run(s, ls).value) && (ls != [] ==> SafeThroughout(s, ls[..|ls| - 1]))
  }

  lemma {:induction false} CountsMarkFailed(s: State, i: nat)
    requires RingSafeAt(s) && Enabled(s, Mark(false)) && !Harmful(s, Mark(false)) && i < STAGE_SLOTS
    ensures CountReads(s.queue, i) <= if Protected(Apply(s, Mark(false)), i) then 1 else 0
  {
    if i == Cur(s) {
      CountReadsZero(s.queue, i);
    } else {
      assert CountReads(s.queue, i) <= if Protected(s, i) then 1 else 0;
    }
  }

  /** `RingSafe`, of any state. */
  ghost predicate RingSafeAt(s: State) { WellFormed(s) && RingSafe(s) }

  lemma {:induction false} CountsQueued(s: State, l: Label, i: nat)
    requires Inv(s) && RingSafe(s) && Enabled(s, l) && i < STAGE_SLOTS
    requires l == Submit(true) || l == Mark(true) || l.Async?
    ensures WellFormed(Apply(s, l))
    ensures CountReads(Apply(s, l).queue, i) <= if Protected(Apply(s, l), i) then 1 else 0
    ensures Apply(s, l).freed ==> CountReads(Apply(s, l).queue, i) == 0
  {
    ApplyWellFormed(s, l);
    assert CountReads(s.queue, i) <= if Protected(s, i) then 1 else 0;
    if s.freed { CountStagedSplit(s.queue, |s.device|); }
    CountReadsSnoc(s.queue, Apply(s, l).queue[|s.queue|], i);
  }

  lemma {:induction false} CountsStep(s: State, l: Label, i: nat)
    requires Inv(s) && RingSafe(s) && Enabled(s, l) && !Harmful(s, l) && i < STAGE_SLOTS
    ensures WellFormed(Apply(s, l))
    ensures CountReads(Apply(s, l).queue, i) <= if Protected(Apply(s, l), i) then 1 else 0
    ensures Apply(s, l).freed ==> CountReads(Apply(s, l).queue, i) == 0
  {
    if l == Submit(true) || l == Mark(true) || l.Async? {
      CountsQueued(s, l, i);
    } else {
      ApplyWellFormed(s, l);
      assert CountReads(s.queue, i) <= if Protected(s, i) then 1 else 0;
      CountStagedSplit(s.queue, |s.device|);
      if l == Mark(false) {
        CountsMarkFailed(s, i);
      } else if l == Wait(true) && i == Cur(s) && s.armed[i] {
        UnreadWhenRecorded(s);
        CountReadsZero(s.queue, i);
      }
    }
  }

  lemma {:induction false} RingStep(s: State, l: Label)
    requires Inv(s) && RingSafe(s) && Enabled(s, l) && !Harmful(s, l)
    ensures WellFormed(Apply(s, l)) && RingSafe(Apply(s, l))
  {
    ApplyWellFormed(s, l);
    var t := Apply(s, l);
    forall i | 0 <= i < STAGE_SLOTS
      ensures CountReads(t.queue, i) <= if Protected(t, i) then 1 else 0
      ensures t.freed ==> CountReads(t.queue, i) == 0
    {
      CountsStep(s, l, i);
    }
    CountStagedSplit(t.queue, |t.device|);
  }

  /** A failing record leaves the chunk's copy pending out of an unarmed slot. */
  lemma {:induction false} HarmfulMark(s: State)
    requires Inv(s) && Enabled(s, Mark(false)) && Harmful(s, Mark(false))
    ensures WellFormed(Apply(s, Mark(false))) && !RingSafe(Apply(s, Mark(false)))
  {
    ApplyWellFormed(s, Mark(false));
    assert !Protected(Apply(s, Mark(false)), Cur(s));
    assert CountReads(s.queue, Cur(s)) != 0;
  }

  /** A failing synchronisation frees the ring under a pending copy. */
  lemma {:induction false} HarmfulDrop(s: State)
    requires Inv(s) && Enabled(s, Drop(false)) && Harmful(s, Drop(false))
    ensures WellFormed(Apply(s, Drop(false))) && !RingSafe(Apply(s, Drop(false)))
  {
    ApplyWellFormed(s, Drop(false));
  }

  /** A step out of a safe state stays safe if and only if it is not harmful. */
  lemma {:induction false} StepExact(s: State, l: Label)
    requires Inv(s) && RingSafe(s) && Enabled(s, l)
    ensures WellFormed(Apply(s, l)) && (RingSafe(Apply(s, l)) <==> !Harmful(s, l))
  {
    if !Harmful(s, l) {
      RingStep(s, l);
    } else if l.Mark? {
      HarmfulMark(s);
    } else {
      HarmfulDrop(s);
    }
  }

  lemma {:induction false} InitSafe(s: State)
    requires Init(s)
    ensures Inv(s) && RingSafe(s)
  {
    InitInv(s);
  }

  /** Over every run, across any number of calls, interleavings and failures: the ring is safe
      all along if and only if no step is harmful. */
  lemma {:induction false} RingSafetyExact(s0: State, ls: seq<Label>)
    requires Init(s0) && Run(s0, ls).Some?
    ensures SafeThroughout(s0, ls) <==> Harmless(s0, ls)
    decreases |ls|
  {
    InitSafe(s0);
    if ls != [] {
      var init, l := ls[..|ls| - 1], ls[|ls| - 1];
      RingSafetyExact(s0, init);
      if Harmless(s0, init) {
        Reachable(s0, init);
        StepExact(Run(s0, init).value, l);
      }
    }
  }

  lemma {:induction false} SafeAtEnd(s0: State, ls: seq<Label>, t: State)
    requires Init(s0) && Run(s0, ls) == Some(t) && Harmless(s0, ls)
    ensures Inv(t) && RingSafe(t)
  {
    RingSafetyExact(s0, ls);
    Reachable(s0, ls);
  }

  // ---- what harmless runs promise ----

  /** In every state `t` that a harmless run reaches: an unarmed slot has no pending copy, an
      armed slot at most one, followed by its own record. */
  lemma {:induction false} RingIsSafe(s0: State, ls: seq<Label>, t: State)
    requires Init(s0) && Run(s0, ls) == Some(t) && Harmless(s0, ls)
    ensures RingSafe(t) && Fences(t)
  {
    SafeAtEnd(s0, ls, t);
  }

  /** At most four copies out of the ring are pending at once. */
  lemma {:induction false} FourPending(s0: State, ls: seq<Label>, t: State)
    requires Init(s0) && Run(s0, ls) == Some(t) && Harmless(s0, ls)
    ensures CountStaged(t.queue) <= STAGE_SLOTS
  {
    SafeAtEnd(s0, ls, t);
    CountStagedSplit(t.queue, |t.device|);
    assert forall i :: 0 <= i < STAGE_SLOTS ==> CountReads(t.queue, i) <= 1;
  }

  /** The slot that the host is writing is read by nothing pending. */
  lemma {:induction false} SlotInHandUnread(s0: State, ls: seq<Label>, t: State, k: nat)
    requires Init(s0) && Run(s0, ls) == Some(t) && Harmless(s0, ls)
    requires t.phase.Busy? && t.phase.at == Fill && k < |t.queue|
    ensures !Reads(t.queue[k], Cur(t))
  {
    SafeAtEnd(s0, ls, t);
    assert CountReads(t.queue, Cur(t)) == 0;
  }

  /** Nothing pending reads a slot of a destroyed ring. */
  lemma {:induction false} FreedRingUnread(s0: State, ls: seq<Label>, t: State, k: nat)
    requires Init(s0) && Run(s0, ls) == Some(t) && Harmless(s0, ls)
    requires t.freed && k < |t.queue|
    ensures !t.queue[k].Staged?
  {
    SafeAtEnd(s0, ls, t);
    CountStagedZero(t.queue, k);
  }

  lemma {:induction false} CountStagedZero(q: seq<Op>, k: nat)
    requires CountStaged(q) == 0 && k < |q|
    ensures !q[k].Staged?
  {
    if k > 0 { CountStagedZero(q[1..], k - 1); }
  }

  // ---- the reference, without exception ----

  /** The state with its taint forgotten. */
  function Clean(s: State): State { s.(dirty := {}) }

  /** Steps that write the reference clear taint, of which there is none. */
  lemma {:induction false} CleanWrite(s: State, l: Label)
    requires WellFormed(s) && Enabled(s, l) && (l == Submit(true) || l.Async? || l.Blocking?)
    ensures Enabled(Clean(s), l) && Apply(Clean(s), l) == Clean(Apply(s, l))
  {
  }

  lemma {:induction false} CleanHost(s: State, l: Label)
    requires WellFormed(s) && Enabled(s, l)
    requires l.Wait? || l.FillPart? || l == Submit(false) || l == Mark(true) || l.Finish?
    ensures Enabled(Clean(s), l) && Apply(Clean(s), l) == Clean(Apply(s, l))
  {
  }

  lemma {:induction false} CleanStep(s: State, l: Label)
    requires WellFormed(s) && Enabled(s, l) && l != Mark(false)
    ensures Enabled(Clean(s), l) && Apply(Clean(s), l) == Clean(Apply(s, l))
  {
    if l == Submit(true) || l.Async? || l.Blocking? {
      CleanWrite(s, l);
    } else if l.Wait? || l.FillPart? || l.Submit? || l.Mark? || l.Finish? {
      CleanHost(s, l);
    }
  }

  lemma {:induction false} CleanMark(s: State)
    requires Inv(Clean(s)) && Enabled(s, Mark(false)) && !Harmful(s, Mark(false))
    ensures Inv(Clean(Apply(s, Mark(false))))
  {
    var c, t := Clean(s), Clean(Apply(s, Mark(false)));
    ApplyWellFormed(s, Mark(false));
    forall a | 0 <= a < |t.device| ensures SettledAt(t, a) {
      assert SettledAt(c, a);
      var k := LastWriter(s.queue, a);
      if k >= 0 { assert Sound(c, k); }
    }
  }

  lemma {:induction false} CleanRun(s: State, ls: seq<Label>)
    requires WellFormed(s) && Inv(Clean(s)) && Run(s, ls).Some? && Harmless(s, ls)
    ensures Inv(Clean(Run(s, ls).value))
    decreases |ls|
  {
    if ls != [] {
      var l := ls[|ls| - 1];
      CleanRun(s, ls[..|ls| - 1]);
      var t := Run(s, ls[..|ls| - 1]).value;
      if l == Mark(false) {
        CleanMark(t);
      } else {
        CleanStep(t, l);
        StepInv(Clean(t), l);
      }
    }
  }

  /** After a harmless run the drained device is the reference everywhere: every accepted chunk
      and copy has landed as a plain memcpy would have left it, failed records included. */
  lemma {:induction false} HarmlessRunIsMemcpy(s0: State, ls: seq<Label>, t: State)
    requires Init(s0) && Run(s0, ls) == Some(t) && Harmless(s0, ls) && t.queue == []
    ensures t.device == t.wanted
  {
    InitInv(s0);
    assert Clean(s0) == s0;
    CleanRun(s0, ls);
    forall a | 0 <= a < |t.device| ensures t.device[a] == t.wanted[a] {
      assert SettledAt(Clean(t), a);
    }
  }

  // ---- the harmful runs exist ----

  /** The run so far, one step longer. */
  lemma {:induction false} Longer(s0: State, ls: seq<Label>, n: nat)
    requires WellFormed(s0) && n < |ls| && Run(s0, ls[..n]).Some? && Enabled(Run(s0, ls[..n]).value, ls[n])
    ensures Run(s0, ls[..n + 1]) == Some(Apply(Run(s0, ls[..n]).value, ls[n]))
  {
    RunOne(s0, ls[..n], ls[n]);
    assert ls[..n] + [ls[n]] == ls[..n + 1];
  }

  /** A new stream over memories of at least two bytes, its cursor at slot 0. */
  ghost predicate Small(s: State) { Init(s) && |s.device| >= 2 && |s.user| >= 2 && Cur(s) == 0 }

  /** A one-byte copy waits for slot 0, fills it and submits it. */
  const FIRST_CHUNK: seq<Label> := [Begin(0, 0, 1), Wait(true), FillPart(0, 1), Submit(true)]

  /** The byte is queued out of slot 0 and its record is next; nothing else has happened. */
  ghost predicate FirstSubmitted(s0: State, t: State) {
    && WellFormed(t) && !t.freed && t.user == s0.user && t.device == s0.device
    && |t.device| >= 2 && |t.user| >= 2 && Cur(t) == 0 && !t.armed[0]
    && t.phase == Busy(0, 0, t.user[0..1], 0, Queued)
    && t.queue == [Staged(0, 0, 1)] && t.wanted[0] == t.user[0] && t.dirty == {}
  }

  lemma {:induction false} FirstWaited(s0: State) returns (t: State)
    requires Small(s0)
    ensures Run(s0, FIRST_CHUNK[..2]) == Some(t)
    ensures t == s0.(armed := s0.armed[0 := false], phase := Busy(0, 0, s0.user[0..1], 0, Fill))
  {
    assert FIRST_CHUNK[..0] == [];
    Longer(s0, FIRST_CHUNK, 0);
    Longer(s0, FIRST_CHUNK, 1);
    t := Run(s0, FIRST_CHUNK[..2]).value;
  }

  lemma {:induction false} FillFirst(s0: State) returns (t: State)
    requires Small(s0)
    ensures Run(s0, FIRST_CHUNK[..3]) == Some(t) && Enabled(t, Submit(true))
    ensures t == s0.(armed := s0.armed[0 := false], phase := Busy(0, 0, s0.user[0..1], 0, Fill), slots := t.slots)
  {
    var r := FirstWaited(s0);
    Longer(s0, FIRST_CHUNK, 2);
    t := Apply(r, FillPart(0, 1));
    assert t.slots[0][..1] == Chunk(t);
  }

  lemma {:induction false} SubmitFirst(s0: State) returns (t: State)
    requires Small(s0)
    ensures Run(s0, FIRST_CHUNK) == Some(t) && FirstSubmitted(s0, t)
  {
    var f := FillFirst(s0);
    Longer(s0, FIRST_CHUNK, 3);
    assert FIRST_CHUNK[..4] == FIRST_CHUNK;
    t := Apply(f, Submit(true));
  }

  /** The record fails, and the next call, for another byte, gets as far as its slot. */
  const RECORD_LOST: seq<Label> := FIRST_CHUNK + [Mark(false), Begin(1, 1, 1), Wait(true), FillPart(0, 1), Gpu]

  lemma {:induction false} RecordLostParts()
    ensures |RECORD_LOST| == 9 && RECORD_LOST[..4] == FIRST_CHUNK && RECORD_LOST[..9] == RECORD_LOST
  {
  }

  /** The call has failed, its copy still pending out of a slot that is not armed. */
  lemma {:induction false} LoseRecord(s0: State) returns (t: State)
    requires Small(s0)
    ensures Run(s0, RECORD_LOST[..5]) == Some(t)
    ensures WellFormed(t) && !t.freed && t.user == s0.user && t.device == s0.device && Cur(t) == 0 && !t.armed[0]
    ensures t.phase.Idle? && t.queue == [Staged(0, 0, 1)] && t.wanted[0] == t.user[0]
  {
    var r := SubmitFirst(s0);
    RecordLostParts();
    Longer(s0, RECORD_LOST, 4);
    t := Run(s0, RECORD_LOST[..5]).value;
  }

  /** The next call begins: no other copy is queued. */
  lemma {:induction false} BeginNext(s0: State) returns (t: State)
    requires Small(s0)
    ensures Run(s0, RECORD_LOST[..6]) == Some(t)
    ensures WellFormed(t) && t.user == s0.user && t.device == s0.device && Cur(t) == 0 && !t.armed[0]
    ensures |t.user| >= 2 && |t.device| >= 2 && t.phase == Busy(1, 1, t.user[1..2], 0, Top)
    ensures t.queue == [Staged(0, 0, 1)] && t.wanted[0] == t.user[0]
  {
    var r := LoseRecord(s0);
    Longer(s0, RECORD_LOST, 5);
    t := Apply(r, Begin(1, 1, 1));
  }

  /** The harmful record failure is real: the next call may overwrite a pinned slot that a
      pending copy still reads. */
  lemma {:induction false} RecordFailureBreaksRing(s0: State) returns (t: State)
    requires Small(s0)
    ensures Run(s0, RECORD_LOST[..7]) == Some(t) && Enabled(t, FillPart(0, 1))
    ensures t.queue == [Staged(0, 0, 1)] && Reads(t.queue[0], Cur(t))
    ensures |t.user| >= 2 && |t.device| >= 2 && t.user == s0.user && t.device == s0.device
    ensures t.wanted[0] == s0.user[0] && t.phase == Busy(1, 1, t.user[1..2], 0, Fill)
  {
    var r := BeginNext(s0);
    Longer(s0, RECORD_LOST, 6);
    t := Apply(r, Wait(true));
  }

  /** The second call's byte is in the slot that the first call's copy has yet to read. */
  lemma {:induction false} FillAgain(s0: State) returns (t: State)
    requires Small(s0)
    ensures Run(s0, RECORD_LOST[..8]) == Some(t)
    ensures WellFormed(t) && |t.device| >= 2 && t.queue == [Staged(0, 0, 1)] && t.wanted[0] == s0.user[0]
    ensures t.slots[0][0] == s0.user[1]
  {
    var r := RecordFailureBreaksRing(s0);
    Longer(s0, RECORD_LOST, 7);
    t := Apply(r, FillPart(0, 1));
    ApplyWellFormed(r, FillPart(0, 1));
  }

  /** And it does: the drained device then holds the second call's byte where a memcpy would
      have left the first one's. */
  lemma {:induction false} RecordFailureCorrupts(s0: State) returns (t: State)
    requires Small(s0) && s0.user[0] != s0.user[1]
    ensures Run(s0, RECORD_LOST) == Some(t) && t.queue == [] && |t.device| >= 2
    ensures t.wanted[0] == s0.user[0] && t.device[0] == s0.user[1] && t.device[0] != t.wanted[0]
  {
    var f := FillAgain(s0);
    Longer(s0, RECORD_LOST, 8);
    RecordLostParts();
    t := Apply(f, Gpu);
  }

  /** The copy returns Ok, then the stream is dropped and its synchronisation fails. */
  const SYNC_LOST: seq<Label> := FIRST_CHUNK + [Mark(true), Finish, Drop(false)]

  lemma {:induction false} MarkedFirst(s0: State, r: State)
    requires FirstSubmitted(s0, r)
    ensures Enabled(r, Mark(true)) && WellFormed(Apply(r, Mark(true)))
    ensures Apply(r, Mark(true)).queue == [Staged(0, 0, 1), Record(0)]
    ensures Apply(r, Mark(true)).phase == Busy(0, 0, r.user[0..1], 1, Top)
  {
    ApplyWellFormed(r, Mark(true));
    assert [Staged(0, 0, 1)] + [Record(0)] == [Staged(0, 0, 1), Record(0)];
  }

  lemma {:induction false} SyncStart()
    ensures |SYNC_LOST| == 7 && SYNC_LOST[..4] == FIRST_CHUNK && SYNC_LOST[..7] == SYNC_LOST
  {
  }

  /** The copy is queued, its record behind it, and the call about to return. */
  lemma {:induction false} MarkFirst(s0: State) returns (t: State)
    requires Small(s0)
    ensures Run(s0, SYNC_LOST[..5]) == Some(t)
    ensures WellFormed(t) && !t.freed && t.queue == [Staged(0, 0, 1), Record(0)]
    ensures t.phase == Busy(0, 0, t.user[0..1], 1, Top)
  {
    var r := SubmitFirst(s0);
    SyncStart();
    MarkedFirst(s0, r);
    Longer(s0, SYNC_LOST, 4);
    t := Apply(r, Mark(true));
  }

  lemma {:induction false} FinishFirst(s0: State) returns (t: State)
    requires Small(s0)
    ensures Run(s0, SYNC_LOST[..6]) == Some(t)
    ensures WellFormed(t) && !t.freed && t.queue == [Staged(0, 0, 1), Record(0)] && t.phase.Idle?
  {
    var r := MarkFirst(s0);
    Longer(s0, SYNC_LOST, 5);
    t := Apply(r, Finish);
  }

  /** The harmful drop is real: the ring is freed while the copy is still queued. */
  lemma {:induction false} FailedDropFreesUnderCopy(s0: State) returns (t: State)
    requires Small(s0)
    ensures Run(s0, SYNC_LOST) == Some(t) && t.freed && t.queue != [] && Reads(t.queue[0], 0)
  {
    var r := FinishFirst(s0);
    Longer(s0, SYNC_LOST, 6);
    SyncStart();
    t := Apply(r, Drop(false));
  }
}
