/** What every run of the staging pipeline keeps. */
module StageProofs {
  import opened Wrappers
  import opened Memory
  import opened StageModel

  // ---- the drained memory, address by address ----

  /** The drained memory at `a` is decided by the last queued writer of `a` alone. */
  lemma {:induction false} DrainAt(device: seq<byte>, slots: seq<seq<byte>>, q: seq<Op>, a: nat)
    requires QueueOk(q, |device|) && SlotsOk(slots) && a < |device|
    ensures var k := LastWriter(q, a);
            Drain(device, slots, q)[a] == if k < 0 then device[a] else ByteAt(q[k], slots, |device|, a)
    decreases |q|
  {
    if q != [] {
      DrainAt(device, slots, q[..|q| - 1], a);
    }
  }

  /** Executing the head of the queue early does not change the drained memory. */
  lemma {:induction false} DrainHead(device: seq<byte>, slots: seq<seq<byte>>, q: seq<Op>)
    requires QueueOk(q, |device|) && SlotsOk(slots) && q != []
    ensures Drain(Execute(device, slots, q[0]), slots, q[1..]) == Drain(device, slots, q)
    decreases |q|
  {
    if |q| > 1 {
      DrainHead(device, slots, q[..|q| - 1]);
      assert q[..|q| - 1][1..] == q[1..][..|q[1..]| - 1];
    } else {
      assert q[..0] == [];
      assert Drain(device, slots, q[..0]) == device;
    }
  }

  lemma {:induction false} DrainSnoc(device: seq<byte>, slots: seq<seq<byte>>, q: seq<Op>, op: Op)
    requires QueueOk(q, |device|) && SlotsOk(slots) && OpOk(op, |device|)
    ensures QueueOk(q + [op], |device|)
    ensures Drain(device, slots, q + [op]) == Execute(Drain(device, slots, q), slots, op)
  {
    assert (q + [op])[..|q + [op]| - 1] == q;
  }

  lemma {:induction false} LastWriterUnique(q: seq<Op>, a: nat, k: int)
    requires -1 <= k < |q|
    requires k >= 0 ==> Covers(q[k], a)
    requires forall j :: k < j < |q| ==> !Covers(q[j], a)
    ensures LastWriter(q, a) == k
  {
    var m := LastWriter(q, a);
    assert m <= k;
  }

  lemma {:induction false} LastWriterTail(q: seq<Op>, a: nat)
    requires q != []
    ensures LastWriter(q[1..], a) == if LastWriter(q, a) <= 0 then -1 else LastWriter(q, a) - 1
  {
    var k := LastWriter(q, a);
    LastWriterUnique(q[1..], a, if k <= 0 then -1 else k - 1);
  }

  lemma {:induction false} LastWriterSnoc(q: seq<Op>, op: Op, a: nat)
    ensures LastWriter(q + [op], a) == if Covers(op, a) then |q| else LastWriter(q, a)
  {
    LastWriterUnique(q + [op], a, if Covers(op, a) then |q| else LastWriter(q, a));
  }

  // ---- the invariant ----

  /** Slot `i` is promised not to be written before its queued copy has run. */
  predicate Protected(s: State, i: nat)
    requires |s.armed| == STAGE_SLOTS
  {
    i < STAGE_SLOTS && (s.armed[i] || (s.phase.Busy? && s.phase.at == Queued && i == Cur(s)))
  }

  /** No later entry of `q` copies out of the same slot as entry `k`. */
  predicate Newest(q: seq<Op>, k: int)
    requires 0 <= k < |q|
  {
    q[k].Staged? ==> forall j :: k < j < |q| ==> !Reads(q[j], q[k].slot)
  }

  /** Entry `k` will store the bytes it was queued for. */
  predicate Sound(s: State, k: int)
    requires |s.armed| == STAGE_SLOTS && 0 <= k < |s.queue|
  {
    s.queue[k].Staged? ==> Protected(s, s.queue[k].slot) && Newest(s.queue, k)
  }

  predicate SettledAt(s: State, a: nat)
    requires WellFormed(s) && a < |s.device|
  {
    && Drain(s.device, s.slots, s.queue)[a] == s.wanted[a]
    && (LastWriter(s.queue, a) >= 0 ==> Sound(s, LastWriter(s.queue, a)))
  }

  ghost predicate Settled(s: State)
    requires WellFormed(s)
  {
    forall a :: 0 <= a < |s.device| && a !in s.dirty ==> SettledAt(s, a)
  }

  /** Every queued copy out of slot `i` is followed by a record of slot `i`'s event. */
  ghost predicate Fenced(q: seq<Op>, i: nat) {
    forall k :: 0 <= k < |q| && Reads(q[k], i) ==> Record(i) in q[k..]
  }

  ghost predicate Fences(s: State)
    requires |s.armed| == STAGE_SLOTS
  {
    forall i :: 0 <= i < STAGE_SLOTS && s.armed[i] ==> Fenced(s.queue, i)
  }

  /** The slot in use is unarmed, and while its record is outstanding the newest copy out
      of it is the chunk of this iteration. */
  ghost predicate InHand(s: State)
    requires WellFormed(s)
  {
    s.phase.Busy? && s.phase.at != Top ==>
      && !s.armed[Cur(s)]
      && (s.phase.at == Queued ==>
            forall k :: 0 <= k < |s.queue| && Reads(s.queue[k], Cur(s)) && Newest(s.queue, k) ==>
                          s.queue[k] == Staged(s.phase.dst + s.phase.off, Cur(s), ChunkLen(s)))
  }

  /** Bytes the call in progress has handed to the driver. */
  function Sent(s: State): nat
    requires s.phase.Busy? && s.phase.off <= |s.phase.src|
  {
    s.phase.off + if s.phase.at == Queued then ChunkLen(s) else 0
  }

  /** The reference holds `data` at `[dst, dst + |data|)`, untainted. */
  ghost predicate Holds(s: State, dst: nat, data: seq<byte>)
    requires WellFormed(s)
  {
    && dst + |data| <= |s.device|
    && s.wanted[dst..dst + |data|] == data
    && forall a :: dst <= a < dst + |data| ==> a !in s.dirty
  }

  ghost predicate Progress(s: State)
    requires WellFormed(s)
  {
    s.phase.Busy? ==> Holds(s, s.phase.dst, s.phase.src[..Sent(s)])
  }

  ghost predicate Inv(s: State) {
    WellFormed(s) && Settled(s) && Fences(s) && InHand(s) && Progress(s)
  }

  lemma {:induction false} InitInv(s: State)
    requires Init(s)
    ensures Inv(s)
  {
    assert Drain(s.device, s.slots, s.queue) == s.device;
  }

  // ---- Settled ----

  lemma {:induction false} SettledGpuAt(s: State, a: nat)
    requires Inv(s) && s.queue != [] && a < |s.device| && a !in s.dirty
    ensures WellFormed(Apply(s, Gpu)) && SettledAt(Apply(s, Gpu), a)
  {
    ApplyWellFormed(s, Gpu);
    DrainHead(s.device, s.slots, s.queue);
    assert SettledAt(s, a);
    LastWriterTail(s.queue, a);
    var k := LastWriter(s.queue[1..], a);
    if k >= 0 {
      assert s.queue[1..][k] == s.queue[k + 1];
      assert Sound(s, k + 1);
    }
  }

  lemma {:induction false} SettledGpu(s: State)
    requires Inv(s) && s.queue != []
    ensures Settled(Apply(s, Gpu))
  {
    var t := Apply(s, Gpu);
    forall a | 0 <= a < |t.device| && a !in t.dirty ensures SettledAt(t, a) {
      SettledGpuAt(s, a);
    }
  }

  /** An unarmed slot may be overwritten: only addresses whose record failed, or that a
      later operation rewrites, are still to be read from it. */
  lemma {:induction false} SettledFill(s: State, lo: nat, hi: nat)
    requires Inv(s) && Enabled(s, FillPart(lo, hi))
    ensures Settled(Apply(s, FillPart(lo, hi)))
  {
    var t := Apply(s, FillPart(lo, hi));
    forall a | 0 <= a < |t.device| && a !in t.dirty ensures SettledAt(t, a) {
      SettledFillAt(s, lo, hi, a);
    }
  }

  lemma {:induction false} SettledFillAt(s: State, lo: nat, hi: nat, a: nat)
    requires Inv(s) && Enabled(s, FillPart(lo, hi)) && a < |s.device| && a !in s.dirty
    ensures SettledAt(Apply(s, FillPart(lo, hi)), a)
  {
    var t := Apply(s, FillPart(lo, hi));
    assert SettledAt(s, a);
    DrainAt(s.device, s.slots, s.queue, a);
    DrainAt(t.device, t.slots, t.queue, a);
    var k := LastWriter(s.queue, a);
    if k >= 0 {
      assert Sound(s, k);
      assert s.queue[k].Staged? ==> s.queue[k].slot != Cur(s);
    }
  }

  /** Appending a write that is recorded in the reference keeps every address settled. */
  lemma {:induction false} SettledSnoc(s: State, t: State, op: Op, at: nat, data: seq<byte>)
    requires Inv(s) && WellFormed(t) && OpOk(op, |s.device|) && at + |data| <= |s.device|
    requires t.device == s.device && t.slots == s.slots && t.armed == s.armed && t.cursor == s.cursor
    requires t.queue == s.queue + [op]
    requires t.wanted == Splice(s.wanted, at, data) && t.dirty == s.dirty - Range(at, |data|)
    requires Execute(s.device, s.slots, op) == Splice(s.device, at, data)
    requires forall a: nat :: Covers(op, a) <==> at <= a < at + |data|
    requires forall a :: at <= a < at + |data| ==> ByteAt(op, s.slots, |s.device|, a) == data[a - at]
    requires op.Staged? ==> Protected(t, op.slot) && !Protected(s, op.slot)
    requires forall i: nat :: Protected(s, i) ==> Protected(t, i)
    ensures Settled(t)
  {
    forall a | 0 <= a < |t.device| && a !in t.dirty ensures SettledAt(t, a) {
      LastWriterSnoc(s.queue, op, a);
      DrainAt(t.device, t.slots, t.queue, a);
      DrainAt(s.device, s.slots, s.queue, a);
      if !Covers(op, a) {
        assert SettledAt(s, a);
        var k := LastWriter(s.queue, a);
        if k >= 0 {
          assert Sound(s, k);
          assert t.queue[k] == s.queue[k];
        }
      }
    }
  }

  lemma {:induction false} SettledSubmit(s: State)
    requires Inv(s) && Enabled(s, Submit(true))
    ensures Settled(Apply(s, Submit(true)))
  {
    var t := Apply(s, Submit(true));
    ApplyWellFormed(s, Submit(true));
    var at := s.phase.dst + s.phase.off;
    var op := Staged(at, Cur(s), ChunkLen(s));
    var slot := s.slots[Cur(s)];
    forall a | at <= a < at + ChunkLen(s) ensures ByteAt(op, s.slots, |s.device|, a) == Chunk(s)[a - at] {
      assert slot[..ChunkLen(s)][a - at] == Chunk(s)[a - at];
    }
    SettledSnoc(s, t, op, at, Chunk(s));
  }

  lemma {:induction false} SettledAsync(s: State, dst: nat, from: nat, n: nat)
    requires Inv(s) && Enabled(s, Async(dst, from, n))
    ensures Settled(Apply(s, Async(dst, from, n)))
  {
    ApplyWellFormed(s, Async(dst, from, n));
    var data := s.user[from..from + n];
    SettledSnoc(s, Apply(s, Async(dst, from, n)), Direct(dst, data), dst, data);
  }

  lemma {:induction false} SettledMarkOk(s: State)
    requires Inv(s) && Enabled(s, Mark(true))
    ensures Settled(Apply(s, Mark(true)))
  {
    var t := Apply(s, Mark(true));
    var op := Record(Cur(s));
    DrainSnoc(s.device, s.slots, s.queue, op);
    forall a | 0 <= a < |t.device| && a !in t.dirty ensures SettledAt(t, a) {
      assert SettledAt(s, a);
      LastWriterSnoc(s.queue, op, a);
      var k := LastWriter(s.queue, a);
      if k >= 0 {
        assert Sound(s, k);
        assert t.queue[k] == s.queue[k];
      }
    }
  }

  lemma {:induction false} SettledMarkFailed(s: State)
    requires Inv(s) && Enabled(s, Mark(false))
    ensures Settled(Apply(s, Mark(false)))
  {
    var t := Apply(s, Mark(false));
    forall a | 0 <= a < |t.device| && a !in t.dirty ensures SettledAt(t, a) {
      assert SettledAt(s, a);
      var k := LastWriter(s.queue, a);
      if k >= 0 {
        assert Sound(s, k);
      }
    }
  }

  lemma {:induction false} UnreadWhenRecorded(s: State)
    requires Inv(s) && Enabled(s, Wait(true)) && s.armed[Cur(s)]
    ensures forall k :: 0 <= k < |s.queue| ==> !Reads(s.queue[k], Cur(s))
  {
    assert Fenced(s.queue, Cur(s));
    forall k | 0 <= k < |s.queue| ensures !Reads(s.queue[k], Cur(s)) {
      assert Record(Cur(s)) !in s.queue[k..];
    }
  }

  lemma {:induction false} SettledWait(s: State)
    requires Inv(s) && Enabled(s, Wait(true))
    ensures Settled(Apply(s, Wait(true)))
  {
    var t := Apply(s, Wait(true));
    if s.armed[Cur(s)] { UnreadWhenRecorded(s); }
    forall a | 0 <= a < |t.device| && a !in t.dirty ensures SettledAt(t, a) {
      assert SettledAt(s, a);
      var k := LastWriter(s.queue, a);
      if k >= 0 {
        assert Sound(s, k);
        assert !Reads(s.queue[k], Cur(s)) || !s.armed[Cur(s)];
      }
    }
  }

  /** With nothing queued into a range, no address of it has a queued writer. */
  lemma {:induction false} Unwritten(q: seq<Op>, dst: nat, n: nat, a: nat)
    requires dst <= a < dst + n && forall k :: 0 <= k < |q| ==> !Overlaps(q[k], dst, n)
    ensures LastWriter(q, a) == -1
  {
    forall k | 0 <= k < |q| ensures !Covers(q[k], a) {
      assert !Overlaps(q[k], dst, n);
    }
    LastWriterUnique(q, a, -1);
  }

  lemma {:induction false} SettledBlocking(s: State, dst: nat, from: nat, n: nat)
    requires Inv(s) && Enabled(s, Blocking(dst, from, n))
    ensures Settled(Apply(s, Blocking(dst, from, n)))
  {
    var t := Apply(s, Blocking(dst, from, n));
    forall a | 0 <= a < |t.device| && a !in t.dirty ensures SettledAt(t, a) {
      DrainAt(t.device, t.slots, t.queue, a);
      DrainAt(s.device, s.slots, s.queue, a);
      var k := LastWriter(s.queue, a);
      if dst <= a < dst + n {
        Unwritten(s.queue, dst, n, a);
      } else {
        assert SettledAt(s, a);
        if k >= 0 { assert Sound(s, k); }
      }
    }
  }

  lemma {:induction false} SettledQuiet(s: State, l: Label)
    requires Inv(s) && Enabled(s, l)
    requires l.Scribble? || l.Begin? || l.Finish? || l.Drop? || l == Wait(false) || l == Submit(false)
    ensures Settled(Apply(s, l))
  {
    var t := Apply(s, l);
    forall a | 0 <= a < |t.device| && a !in t.dirty ensures SettledAt(t, a) {
      assert SettledAt(s, a);
      var k := LastWriter(s.queue, a);
      if k >= 0 { assert Sound(s, k); }
    }
  }

  lemma {:induction false} SettledStep(s: State, l: Label)
    requires Inv(s) && Enabled(s, l)
    ensures WellFormed(Apply(s, l)) && Settled(Apply(s, l))
  {
    ApplyWellFormed(s, l);
    match l
    case Gpu => SettledGpu(s);
    case FillPart(lo, hi) => SettledFill(s, lo, hi);
    case Submit(ok) => if ok { SettledSubmit(s); } else { SettledQuiet(s, l); }
    case Mark(ok) => if ok { SettledMarkOk(s); } else { SettledMarkFailed(s); }
    case Wait(ok) => if ok { SettledWait(s); } else { SettledQuiet(s, l); }
    case Async(dst, from, n) => SettledAsync(s, dst, from, n);
    case Blocking(dst, from, n) => SettledBlocking(s, dst, from, n);
    case _ => SettledQuiet(s, l);
  }

  // ---- the other clauses ----

  lemma {:induction false} FencedTail(q: seq<Op>, i: nat)
    requires q != [] && Fenced(q, i)
    ensures Fenced(q[1..], i)
  {
    forall k | 0 <= k < |q[1..]| && Reads(q[1..][k], i) ensures Record(i) in q[1..][k..] {
      assert q[1..][k] == q[k + 1];
      assert q[1..][k..] == q[k + 1..];
    }
  }

  lemma {:induction false} FencedSnoc(q: seq<Op>, op: Op, i: nat)
    requires op == Record(i) || (Fenced(q, i) && !Reads(op, i))
    ensures Fenced(q + [op], i)
  {
    forall k | 0 <= k < |q + [op]| && Reads((q + [op])[k], i) ensures Record(i) in (q + [op])[k..] {
      assert (q + [op])[k] == q[k];
      assert (q + [op])[k..] == q[k..] + [op];
      if op != Record(i) { assert Record(i) in q[k..]; }
    }
  }

  lemma {:induction false} FencesStep(s: State, l: Label)
    requires Inv(s) && Enabled(s, l)
    ensures Fences(Apply(s, l))
  {
    var t := Apply(s, l);
    forall i | 0 <= i < STAGE_SLOTS && t.armed[i] ensures Fenced(t.queue, i) {
      match l
      case Gpu => FencedTail(s.queue, i);
      case Submit(ok) => if ok { FencedSnoc(s.queue, t.queue[|s.queue|], i); }
      case Mark(ok) => if ok { FencedSnoc(s.queue, Record(Cur(s)), i); }
      case Async(_, _, _) => FencedSnoc(s.queue, t.queue[|s.queue|], i);
      case _ => assert Fenced(s.queue, i);
    }
  }

  lemma {:induction false} InHandStep(s: State, l: Label)
    requires Inv(s) && Enabled(s, l)
    ensures WellFormed(Apply(s, l)) && InHand(Apply(s, l))
  {
    ApplyWellFormed(s, l);
    var t := Apply(s, l);
    if t.phase.Busy? && t.phase.at == Queued {
      forall k | 0 <= k < |t.queue| && Reads(t.queue[k], Cur(t)) && Newest(t.queue, k)
        ensures t.queue[k] == Staged(t.phase.dst + t.phase.off, Cur(t), ChunkLen(t))
      {
        if l == Gpu {
          assert s.queue[k + 1] == t.queue[k];
          assert Newest(s.queue, k + 1) by {
            forall j | k + 1 < j < |s.queue| ensures !Reads(s.queue[j], s.queue[k + 1].slot) {
              assert t.queue[j - 1] == s.queue[j];
            }
          }
        } else if l.Async? {
          assert k < |s.queue| && t.queue[k] == s.queue[k];
          assert Newest(s.queue, k) by {
            forall j | k < j < |s.queue| ensures !Reads(s.queue[j], s.queue[k].slot) {
              assert t.queue[j] == s.queue[j];
            }
          }
        } else if l == Submit(true) {
          assert Reads(t.queue[|s.queue|], Cur(t));
          assert k == |s.queue|;
        }
      }
    }
  }

  /** What the reference holds stays, unless the step writes there. */
  lemma {:induction false} HoldsStep(s: State, l: Label, dst: nat, data: seq<byte>)
    requires WellFormed(s) && Enabled(s, l) && Holds(s, dst, data)
    requires Untouched(s, l, dst, |data|)
    ensures WellFormed(Apply(s, l)) && Holds(Apply(s, l), dst, data)
  {
    ApplyWellFormed(s, l);
    var t := Apply(s, l);
    forall a | dst <= a < dst + |data| ensures t.wanted[a] == data[a - dst] && a !in t.dirty {
      assert s.wanted[dst..dst + |data|][a - dst] == s.wanted[a];
    }
    assert t.wanted[dst..dst + |data|] == data;
  }

  /** Step `l` neither writes nor taints `[dst, dst + n)`. */
  predicate Untouched(s: State, l: Label, dst: nat, n: nat)
    requires WellFormed(s)
  {
    match l
    case Submit(_) => s.phase.Busy? ==> Disjoint(dst, n, s.phase.dst + s.phase.off, ChunkLen(s))
    case Mark(_) => s.phase.Busy? ==> Disjoint(dst, n, s.phase.dst + s.phase.off, ChunkLen(s))
    case Async(d, _, m) => Disjoint(dst, n, d, m)
    case Blocking(d, _, m) => Disjoint(dst, n, d, m)
    case _ => true
  }

  lemma {:induction false} ProgressStep(s: State, l: Label)
    requires Inv(s) && Enabled(s, l)
    ensures WellFormed(Apply(s, l)) && Progress(Apply(s, l))
  {
    ApplyWellFormed(s, l);
    var t := Apply(s, l);
    if l == Submit(true) {
      ProgressSubmit(s);
    } else if t.phase.Busy? && l.Mark? {
      ProgressMark(s, l.ok);
    } else if t.phase.Busy? && (l.Async? || l.Blocking?) {
      ProgressOther(s, l);
    } else if t.phase.Busy? && !l.Begin? {
      ProgressQuiet(s, l);
    }
  }

  lemma {:induction false} ProgressMark(s: State, ok: bool)
    requires WellFormed(s) && Progress(s) && Enabled(s, Mark(ok)) && Apply(s, Mark(ok)).phase.Busy?
    ensures WellFormed(Apply(s, Mark(ok))) && Progress(Apply(s, Mark(ok)))
  {
    ApplyWellFormed(s, Mark(ok));
  }

  lemma {:induction false} ProgressQuiet(s: State, l: Label)
    requires WellFormed(s) && Progress(s) && Enabled(s, l) && (l.Gpu? || l.Wait? || l.FillPart?)
    requires Apply(s, l).phase.Busy?
    ensures WellFormed(Apply(s, l)) && Progress(Apply(s, l))
  {
    ApplyWellFormed(s, l);
  }

  /** Another thread's copy keeps clear of the buffer that the staged call is filling. */
  lemma {:induction false} OtherKeepsClear(s: State, l: Label)
    requires WellFormed(s) && Enabled(s, l) && (l.Async? || l.Blocking?) && s.phase.Busy?
    ensures Untouched(s, l, s.phase.dst, Sent(s)) && Sent(s) <= |s.phase.src| && Apply(s, l).phase == s.phase
  {
  }

  lemma {:induction false} ProgressOther(s: State, l: Label)
    requires WellFormed(s) && Progress(s) && Enabled(s, l) && (l.Async? || l.Blocking?) && s.phase.Busy?
    ensures WellFormed(Apply(s, l)) && Progress(Apply(s, l))
  {
    OtherKeepsClear(s, l);
    HoldsStep(s, l, s.phase.dst, s.phase.src[..Sent(s)]);
  }

  lemma {:induction false} ProgressSubmit(s: State)
    requires WellFormed(s) && Progress(s) && Enabled(s, Submit(true))
    ensures WellFormed(Apply(s, Submit(true))) && Progress(Apply(s, Submit(true)))
  {
    var t := Apply(s, Submit(true));
    ApplyWellFormed(s, Submit(true));
    HoldsSplice(s, t, s.phase.dst, s.phase.src[..s.phase.off], Chunk(s));
    PrefixGrows(s.phase.src, s.phase.off, ChunkLen(s));
  }

  lemma {:induction false} PrefixGrows(data: seq<byte>, off: nat, n: nat)
    requires off + n <= |data|
    ensures data[..off] + data[off..off + n] == data[..off + n]
  {
  }

  /** Splicing the next bytes right after held bytes leaves both held. */
  lemma {:induction false} HoldsSplice(s: State, t: State, dst: nat, held: seq<byte>, next: seq<byte>)
    requires WellFormed(s) && WellFormed(t) && Holds(s, dst, held) && dst + |held| + |next| <= |s.device|
    requires |t.device| == |s.device|
    requires t.wanted == Splice(s.wanted, dst + |held|, next) && t.dirty == s.dirty - Range(dst + |held|, |next|)
    ensures Holds(t, dst, held + next)
  {
    var data := held + next;
    forall a | dst <= a < dst + |data| ensures t.wanted[a] == data[a - dst] && a !in t.dirty {
      if a < dst + |held| {
        assert s.wanted[dst..dst + |held|][a - dst] == s.wanted[a];
      }
    }
    assert t.wanted[dst..dst + |data|] == data;
  }

  lemma {:induction false} StepInv(s: State, l: Label)
    requires Inv(s) && Enabled(s, l)
    ensures Inv(Apply(s, l))
  {
    SettledStep(s, l);
    FencesStep(s, l);
    InHandStep(s, l);
    ProgressStep(s, l);
  }

  lemma {:induction false} RunInv(s: State, ls: seq<Label>)
    requires Inv(s) && Run(s, ls).Some?
    ensures Inv(Run(s, ls).value)
    decreases |ls|
  {
    if ls != [] {
      RunInv(s, ls[..|ls| - 1]);
      StepInv(Run(s, ls[..|ls| - 1]).value, ls[|ls| - 1]);
    }
  }
}
