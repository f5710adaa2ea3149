/** What becomes of the modules a process loads: each is cached under one key, or in the hands
    of one call, or has been unloaded once. */
module KernelModules {
  import opened Wrappers
  import opened Counting
  import opened KernelModel
  import opened KernelTheorems

  predicate InHand(s: State, t: int, id: nat) { At(s, t) && s.phases[t].Loaded? && s.phases[t].module_.id == id }

  predicate CachedAs(s: State, k: Key, id: nat) { k in s.memory && s.memory[k].id == id }

  /** The running process has loaded it. */
  predicate Mine(s: State, id: nat) { s.born <= id < s.loads }

  predicate Gone(s: State, id: nat) { Count(s.unloaded, id) > 0 }

  /** No module has two owners, and none of the running process's modules has none. */
  ghost predicate Owned(s: State) {
    && (forall id: nat :: Mine(s, id) ==>
        Gone(s, id) || (exists k :: CachedAs(s, k, id)) || exists t :: InHand(s, t, id))
    && (forall k, id :: CachedAs(s, k, id) ==> Mine(s, id) && !Gone(s, id))
    && (forall t, id :: InHand(s, t, id) ==> Mine(s, id) && !Gone(s, id))
    && (forall k, j, id :: CachedAs(s, k, id) && CachedAs(s, j, id) ==> k == j)
    && (forall t, u, id :: InHand(s, t, id) && InHand(s, u, id) ==> t == u)
    && (forall k, t, id :: CachedAs(s, k, id) ==> !InHand(s, t, id))
  }

  /** Nothing is unloaded twice, nor before it is loaded. */
  ghost predicate Once(s: State) {
    s.born <= s.loads && forall id: nat :: Count(s.unloaded, id) <= if Mine(s, id) then 1 else 0
  }

  /** A key with a NUL in the function's name is never cached. */
  ghost predicate CleanNames(s: State) { forall k :: k in s.memory ==> NUL !in k.fnName }

  ghost predicate Accounted(s: State) { Owned(s) && Once(s) && CleanNames(s) }

  lemma {:induction false} AccountedSame(s: State, u: State)
    requires Accounted(s) && u.memory == s.memory && u.born == s.born && u.loads == s.loads && u.unloaded == s.unloaded
    requires forall t, id :: InHand(u, t, id) <==> InHand(s, t, id)
    ensures Accounted(u)
  {
    assert forall k, id :: CachedAs(u, k, id) <==> CachedAs(s, k, id);
    assert forall id: nat :: Mine(u, id) <==> Mine(s, id);
    assert forall id: nat :: Gone(u, id) <==> Gone(s, id);
  }

  lemma {:induction false} AccountedLoad(w: World, s: State, t: nat)
    requires Accounted(s) && Enabled(w, s, Load(t))
    ensures Accounted(Apply(w, s, Load(t)))
  {
    var u := Apply(w, s, Load(t));
    assert InHand(u, t, s.loads);
    assert forall v, id :: InHand(u, v, id) <==> InHand(s, v, id) || (v == t && id == s.loads);
    assert forall k, id :: CachedAs(u, k, id) <==> CachedAs(s, k, id);
    assert forall id: nat :: Gone(u, id) <==> Gone(s, id);
    assert forall id: nat :: Mine(u, id) <==> Mine(s, id) || id == s.loads;
  }

  /** The call unloads the module it has in hand. */
  lemma {:induction false} AccountedUnload(s: State, u: State, t: nat)
    requires Accounted(s) && At(s, t) && s.phases[t].Loaded? && u.unloaded == s.unloaded + [s.phases[t].module_.id]
    requires u.memory == s.memory && u.born == s.born && u.loads == s.loads
    requires forall v, id :: InHand(u, v, id) <==> InHand(s, v, id) && v != t
    ensures Accounted(u)
  {
    var gone := s.phases[t].module_.id;
    assert InHand(s, t, gone);
    forall id: nat ensures Count(u.unloaded, id) == Count(s.unloaded, id) + if id == gone then 1 else 0 {
      CountSnoc(s.unloaded, gone, id);
    }
    assert forall k, id :: CachedAs(u, k, id) <==> CachedAs(s, k, id);
    assert forall id: nat :: Gone(u, id) <==> Gone(s, id) || id == gone;
    assert forall id: nat :: Mine(u, id) <==> Mine(s, id);
  }

  lemma {:induction false} AccountedCache(w: World, s: State, t: nat)
    requires Accounted(s) && Enabled(w, s, Insert(t)) && KeyOf(w, s.phases[t].req) !in s.memory
    ensures Accounted(Apply(w, s, Insert(t)))
  {
    var u := Apply(w, s, Insert(t));
    var key, id0 := KeyOf(w, s.phases[t].req), s.phases[t].module_.id;
    assert InHand(s, t, id0) && CachedAs(u, key, id0);
    assert forall v, id :: InHand(u, v, id) <==> InHand(s, v, id) && v != t;
    assert forall k, id :: CachedAs(u, k, id) <==> CachedAs(s, k, id) || (k == key && id == id0);
    assert forall id: nat :: Gone(u, id) <==> Gone(s, id);
    assert forall id: nat :: Mine(u, id) <==> Mine(s, id);
  }

  lemma {:induction false} AccountedCrash(w: World, s: State)
    requires Accounted(s)
    ensures Accounted(Apply(w, s, Crash))
  {
    var u := Apply(w, s, Crash);
    assert forall id: nat :: !Mine(u, id) && !Gone(u, id);
    assert forall k, id :: !CachedAs(u, k, id);
    assert forall t, id :: !InHand(u, t, id);
  }

  /** Every step keeps the account. */
  lemma {:induction false} AccountStep(w: World, s: State, l: Label)
    requires Accounted(s) && Enabled(w, s, l)
    ensures Accounted(Apply(w, s, l))
  {
    var u := Apply(w, s, l);
    if l.Load? {
      AccountedLoad(w, s, l.t);
    } else if l.BadName? {
      AccountedUnload(s, u, l.t);
    } else if l.Insert? {
      if KeyOf(w, s.phases[l.t].req) in s.memory { AccountedUnload(s, u, l.t); } else { AccountedCache(w, s, l.t); }
    } else if l.Crash? {
      AccountedCrash(w, s);
    } else {
      NoModuleMoves(w, s, l);
      AccountedSame(s, u);
    }
  }

  lemma {:induction false} NoModuleMoves(w: World, s: State, l: Label)
    requires Enabled(w, s, l) && !l.Load? && !l.BadName? && !l.Insert? && !l.Crash?
    ensures var u := Apply(w, s, l);
            && u.memory == s.memory && u.born == s.born && u.loads == s.loads && u.unloaded == s.unloaded
            && forall t, id :: InHand(u, t, id) <==> InHand(s, t, id)
  {
  }

  lemma {:induction false} RunAccounted(w: World, ls: seq<Label>)
    requires Run(w, Origin(), ls).Some?
    ensures Accounted(Run(w, Origin(), ls).value)
    decreases |ls|
  {
    if ls == [] {
      assert Accounted(Origin());
    } else {
      RunAccounted(w, ls[..|ls| - 1]);
      AccountStep(w, Run(w, Origin(), ls[..|ls| - 1]).value, ls[|ls| - 1]);
    }
  }

  ghost predicate Resting(s: State) { forall t :: At(s, t) ==> s.phases[t].Idle? }

  /** When no call is in progress, a module that the process has loaded is cached, under one
      key, or has been unloaded, once: each redundant one is dropped. */
  lemma {:induction false} RedundantModulesUnloaded(w: World, ls: seq<Label>, id: nat)
    requires Run(w, Origin(), ls).Some? && Resting(Run(w, Origin(), ls).value)
    ensures var s := Run(w, Origin(), ls).value;
            && (if Mine(s, id) then 1 else 0)
               == Count(s.unloaded, id) + (if exists k :: CachedAs(s, k, id) then 1 else 0)
            && forall j, k :: CachedAs(s, j, id) && CachedAs(s, k, id) ==> j == k
  {
    RunAccounted(w, ls);
    var s := Run(w, Origin(), ls).value;
    assert forall t :: !InHand(s, t, id);
    assert Count(s.unloaded, id) <= if Mine(s, id) then 1 else 0;
  }

  /** A module that a caller of the running process holds is never unloaded under it. */
  lemma {:induction false} ReturnedStaysLoaded(w: World, ls: seq<Label>, i: nat)
    requires Run(w, Origin(), ls).Some? && i < |Run(w, Origin(), ls).value.returned|
    requires Run(w, Origin(), ls).value.returned[i].epoch == Run(w, Origin(), ls).value.epoch
    ensures var s := Run(w, Origin(), ls).value;
            Mine(s, s.returned[i].module_.id) && !Gone(s, s.returned[i].module_.id)
  {
    RunAccounted(w, ls);
    OneModulePerKey(w, ls, i, i);
    var s := Run(w, Origin(), ls).value;
    assert CachedAs(s, KeyOf(w, s.returned[i].req), s.returned[i].module_.id);
  }
}
