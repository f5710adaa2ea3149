/** What the other threads can and cannot do while one thread is inside the pool. */
module PoolThreads {
  import opened Wrappers
  import opened PoolSizes
  import opened PoolModel
  import opened PoolProofs
  import opened PoolInvariant
  import opened PoolRuns

  predicate ByThread(l: Label, t: nat) {
    match l
    case AllocFront(u, _, _) => u == t
    case AllocMiss(u, _, _) => u == t
    case AllocBack(u) => u == t
    case AllocDriver(u, _) => u == t
    case AllocBypass(u, _, _, _) => u == t
    case AllocEmpty(u) => u == t
    case DropFront(u, _) => u == t
    case DropMiss(u, _) => u == t
    case DropBack(u) => u == t
    case DropBypass(u, _) => u == t
    case _ => false
  }

  /** Thread `t` is inside `alloc` or a drop, with its lock released. */
  predicate Inside(s: State, t: nat) { t < |s.phases| && t < |s.fronts| && !s.phases[t].Idle? && !s.closed }

  /** Thread `t` finds itself, its front cache and a buffer it is dropping as it left them. */
  predicate Undisturbed(s: State, u: State, t: nat)
    requires Inside(s, t)
  {
    && Inside(u, t) && u.phases[t] == s.phases[t] && u.fronts[t] == s.fronts[t]
    && |s.fronts| <= |u.fronts| && u.max == s.max
    && (s.phases[t].PushBack? && s.phases[t].ptr in s.clients ==>
          s.phases[t].ptr in u.clients && u.clients[s.phases[t].ptr] == s.clients[s.phases[t].ptr])
  }

  lemma {:induction false} AllocKeeps(s: State, l: Label, t: nat)
    requires Inv(s) && Enabled(s, l) && !ByThread(l, t) && Inside(s, t) && (l.AllocFront? || l.AllocBack?)
    ensures Undisturbed(s, Apply(s, l), t)
  {
    if l.AllocFront? {
      CachedOwned(s, l.t, IdxOf(l.len, l.size), Last(s.fronts[l.t][IdxOf(l.len, l.size)]));
    } else if s.back[s.phases[l.t].idx] != [] {
      CachedOwned(s, |s.fronts|, s.phases[l.t].idx, Last(s.back[s.phases[l.t].idx]));
    }
  }

  lemma {:induction false} FreshKeeps(s: State, l: Label, t: nat)
    requires Inv(s) && Enabled(s, l) && !ByThread(l, t) && Inside(s, t) && (l.AllocDriver? || l.AllocBypass?)
    ensures Undisturbed(s, Apply(s, l), t)
  {
    if l.given.Some? { DeadUnmentioned(s, l.given.value); }
  }

  lemma {:induction false} DropKeeps(s: State, l: Label, t: nat)
    requires Inv(s) && Enabled(s, l) && !ByThread(l, t) && Inside(s, t)
    requires l.DropFront? || l.DropMiss? || l.DropBypass? || l.IntoInner?
    ensures Undisturbed(s, Apply(s, l), t)
  {
    assert s.phases[t] != PushBack(l.ptr);
  }

  lemma {:induction false} DropBackKeeps(s: State, l: Label, t: nat)
    requires Inv(s) && Enabled(s, l) && !ByThread(l, t) && Inside(s, t) && l.DropBack?
    ensures Undisturbed(s, Apply(s, l), t)
  {
    assert s.phases[t] != s.phases[l.t] by {
      if l.t < t { assert s.phases[l.t] != s.phases[t]; } else { assert t < l.t; }
    }
  }

  lemma {:induction false} StepKeeps(s: State, l: Label, t: nat)
    requires Inv(s) && Enabled(s, l) && !ByThread(l, t) && Inside(s, t)
    ensures Undisturbed(s, Apply(s, l), t)
  {
    if l.AllocFront? || l.AllocBack? {
      AllocKeeps(s, l, t);
    } else if l.AllocDriver? || l.AllocBypass? {
      FreshKeeps(s, l, t);
    } else if l.DropFront? || l.DropMiss? || l.DropBypass? || l.IntoInner? {
      DropKeeps(s, l, t);
    } else if l.DropBack? {
      DropBackKeeps(s, l, t);
    }
  }

  lemma {:induction false} OthersKeep(s: State, ls: seq<Label>, t: nat)
    requires Inv(s) && Run(s, ls).Some? && Inside(s, t) && forall l :: l in ls ==> !ByThread(l, t)
    ensures Inv(Run(s, ls).value) && Undisturbed(s, Run(s, ls).value, t)
    decreases |ls|
  {
    if ls != [] {
      var l := ls[|ls| - 1];
      assert l in ls;
      OthersKeep(s, ls[..|ls| - 1], t);
      StepKeeps(Run(s, ls[..|ls| - 1]).value, l, t);
      StepInv(Run(s, ls[..|ls| - 1]).value, l);
    }
  }

  /** `u` is what the other threads make of `s`. */
  ghost predicate ByOthers(s: State, u: State, t: nat) {
    Shaped(s) ==> exists ls :: Run(s, ls) == Some(u) && forall l :: l in ls ==> !ByThread(l, t)
  }

  /** No other thread is running. */
  ghost predicate Quiet(others: State -> State) { forall s: State :: others(s) == s }
}
