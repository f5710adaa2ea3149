/** The promises of the staging pipeline, over every schedule. */
module StageTheorems {
  import opened Wrappers
  import opened Memory
  import opened StageModel
  import opened StageProofs

  // ---- runs, forwards ----

  lemma {:induction false} Reachable(s0: State, ls: seq<Label>)
    requires Init(s0) && Run(s0, ls).Some?
    ensures Inv(Run(s0, ls).value)
  {
    InitInv(s0);
    RunInv(s0, ls);
  }

  /** `states[k + 1]` is where step `ls[k]` takes `states[k]`. */
  ghost predicate Stepped(ls: seq<Label>, states: seq<State>, k: nat)
    requires k < |ls| && |states| == |ls| + 1
  {
    WellFormed(states[k]) && Enabled(states[k], ls[k]) && states[k + 1] == Apply(states[k], ls[k])
  }

  /** `states` are the states a run of `ls` from a fresh stream goes through. */
  ghost predicate History(ls: seq<Label>, states: seq<State>) {
    && |states| == |ls| + 1
    && Init(states[0])
    && forall k :: 0 <= k < |ls| ==> Stepped(ls, states, k)
  }

  lemma {:induction false} HistorySnoc(ls: seq<Label>, states: seq<State>, l: Label, s: State)
    requires History(ls, states) && WellFormed(states[|ls|]) && Enabled(states[|ls|], l)
    requires s == Apply(states[|ls|], l)
    ensures History(ls + [l], states + [s])
  {
    forall k | 0 <= k < |ls + [l]| ensures Stepped(ls + [l], states + [s], k) {
      assert k < |ls| ==> Stepped(ls, states, k);
    }
  }

  lemma {:induction false} HistoryRuns(ls: seq<Label>, states: seq<State>)
    requires History(ls, states)
    ensures Run(states[0], ls) == Some(states[|ls|])
    decreases |ls|
  {
    if ls != [] {
      var n := |ls| - 1;
      var ls', states' := ls[..n], states[..n + 1];
      forall k | 0 <= k < n ensures Stepped(ls', states', k) {
        assert Stepped(ls, states, k);
      }
      HistoryRuns(ls', states');
      assert Stepped(ls, states, n);
      RunOne(states[0], ls', ls[n]);
      assert ls[..n] + [ls[n]] == ls;
    }
  }

  /** Step `l` starts no write into `[dst, dst + n)`. */
  predicate Avoids(l: Label, dst: nat, n: nat) {
    match l
    case Begin(d, _, m) => Disjoint(dst, n, d, m)
    case Async(d, _, m) => Disjoint(dst, n, d, m)
    case Blocking(d, _, m) => Disjoint(dst, n, d, m)
    case _ => true
  }

  /** The call in progress, if any, writes elsewhere. */
  predicate Elsewhere(s: State, dst: nat, n: nat) {
    s.phase.Busy? ==> Disjoint(dst, n, s.phase.dst, |s.phase.src|)
  }

  lemma {:induction false} HoldsRun(s: State, ls: seq<Label>, dst: nat, data: seq<byte>)
    requires Inv(s) && Run(s, ls).Some? && Holds(s, dst, data) && Elsewhere(s, dst, |data|)
    requires forall l :: l in ls ==> Avoids(l, dst, |data|)
    ensures Inv(Run(s, ls).value) && Holds(Run(s, ls).value, dst, data)
    ensures Elsewhere(Run(s, ls).value, dst, |data|)
    decreases |ls|
  {
    if ls != [] {
      var n := |ls| - 1;
      HoldsRun(s, ls[..n], dst, data);
      var t := Run(s, ls[..n]).value;
      assert Avoids(ls[n], dst, |data|);
      HoldsStep(t, ls[n], dst, data);
      StepInv(t, ls[n]);
    }
  }

  // ---- refinement of memcpy ----

  /** Once the queue has drained, every address outside the chunks whose event record failed
      holds what a plain memcpy of each accepted chunk would have left there. */
  lemma {:induction false} DrainedDeviceIsReference(s0: State, ls: seq<Label>)
    requires Init(s0) && Run(s0, ls).Some? && Run(s0, ls).value.queue == []
    ensures var t := Run(s0, ls).value;
            forall a :: 0 <= a < |t.device| && a !in t.dirty ==> t.device[a] == t.wanted[a]
  {
    Reachable(s0, ls);
    var t := Run(s0, ls).value;
    forall a | 0 <= a < |t.device| && a !in t.dirty ensures t.device[a] == t.wanted[a] {
      assert SettledAt(t, a);
    }
  }

  /** Data the reference holds is what the drained device holds. */
  lemma {:induction false} HeldIsRead(t: State, dst: nat, data: seq<byte>)
    requires Inv(t) && Holds(t, dst, data) && t.queue == []
    ensures t.device[dst..dst + |data|] == data
  {
    forall a | dst <= a < dst + |data| ensures t.device[a] == data[a - dst] {
      assert SettledAt(t, a);
      assert t.wanted[dst..dst + |data|][a - dst] == t.wanted[a];
    }
  }

  /** In state `s` a staged copy returns Ok; it is a memcpy of the source as it was at the call,
      whatever ran before it on the same ring, however the GPU was scheduled, and whatever
      the caller does to the source afterwards: whenever the queue is next empty, the
      destination holds exactly those bytes, as long as nothing else writes there. */
  lemma {:induction false} StagedCopyIsMemcpy(s0: State, before: seq<Label>, s: State, f: State, after: seq<Label>,
                                              t: State, dst: nat, from: nat, src: seq<byte>)
    requires Init(s0) && Run(s0, before) == Some(s) && s.phase == Busy(dst, from, src, |src|, Top)
    requires f == s.(phase := Idle) && WellFormed(f) && Run(f, after) == Some(t) && t.queue == []
    requires forall l :: l in after ==> Avoids(l, dst, |src|)
    ensures dst + |src| <= |t.device| && t.device[dst..dst + |src|] == src
  {
    Reachable(s0, before);
    assert Enabled(s, Finish) && f == Apply(s, Finish);
    StepInv(s, Finish);
    assert src[..|src|] == src;
    HoldsStep(s, Finish, dst, src);
    HoldsRun(f, after, dst, src);
    HeldIsRead(t, dst, src);
  }

  /** `p` is the phase of the call that `Begin(dst, from, n)` started with source `src`. */
  predicate CallOf(p: Phase, dst: nat, from: nat, src: seq<byte>) {
    p.Busy? ==> p.dst == dst && p.from == from && p.src == src
  }

  lemma {:induction false} CallStep(s: State, l: Label, dst: nat, from: nat, src: seq<byte>)
    requires WellFormed(s) && Enabled(s, l) && !l.Begin? && CallOf(s.phase, dst, from, src)
    ensures CallOf(Apply(s, l).phase, dst, from, src)
  {
  }

  lemma {:induction false} CallRun(s: State, ls: seq<Label>, dst: nat, from: nat, src: seq<byte>)
    requires WellFormed(s) && Run(s, ls).Some? && CallOf(s.phase, dst, from, src)
    requires forall l :: l in ls ==> !l.Begin?
    ensures CallOf(Run(s, ls).value.phase, dst, from, src)
    decreases |ls|
  {
    if ls != [] {
      var n := |ls| - 1;
      CallRun(s, ls[..n], dst, from, src);
      CallStep(Run(s, ls[..n]).value, ls[n], dst, from, src);
    }
  }

  /** The bytes a call in progress works with are those its source held when it began. */
  lemma {:induction false} SourceAsOfCall(s: State, ls: seq<Label>, dst: nat, from: nat, n: nat)
    requires WellFormed(s) && Enabled(s, Begin(dst, from, n))
    requires WellFormed(Apply(s, Begin(dst, from, n))) && Run(Apply(s, Begin(dst, from, n)), ls).Some?
    requires forall l :: l in ls ==> !l.Begin?
    ensures CallOf(Run(Apply(s, Begin(dst, from, n)), ls).value.phase, dst, from, s.user[from..from + n])
  {
    CallRun(Apply(s, Begin(dst, from, n)), ls, dst, from, s.user[from..from + n]);
  }

  lemma {:induction false} TaintStep(s: State, l: Label)
    requires WellFormed(s) && Enabled(s, l) && s.dirty == {} && l != Mark(false)
    ensures Apply(s, l).dirty == {}
  {
  }

  /** Taint comes from failed event records only. */
  lemma {:induction false} NoTaintWithoutRecordFailure(s: State, ls: seq<Label>)
    requires WellFormed(s) && s.dirty == {} && Run(s, ls).Some?
    requires Mark(false) !in ls
    ensures Run(s, ls).value.dirty == {}
    decreases |ls|
  {
    if ls != [] {
      var n := |ls| - 1;
      NoTaintWithoutRecordFailure(s, ls[..n]);
      TaintStep(Run(s, ls[..n]).value, ls[n]);
    }
  }
}
