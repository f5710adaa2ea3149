/** The get-or-create handle caches shared by cuDNN, cuBLASLt, cuSOLVER, cuSPARSE and cuTENSOR:
    one map from device ordinal to handle behind a lock that is not held while a handle is
    being created. Any number of threads, any interleaving of the gaps. */
module HandleModel {
  import opened Wrappers
  import opened Counting

  /** Where a call to `handle_for` is. */
  datatype Phase =
    | Idle
    | Creating(key: nat, stream: nat)            // the lookup missed; no lock is held
    | Made(key: nat, stream: nat, obj: nat)      // a handle of its own is in its hands
    | Sharing(key: nat, stream: nat, obj: nat)   // it holds the cached handle, not yet bound

  datatype Return = Return(key: nat, stream: nat, obj: nat)

  /** `alive` are the library's live handles; `created` and `destroyed` log its create and
      destroy calls; `bound` is the stream each handle is set to. `rebinds` is false for
      cuBLASLt and cuTENSOR, whose handles carry no stream. */
  datatype State = State(
    rebinds: bool,
    entries: map<nat, nat>,
    phases: seq<Phase>,
    alive: set<nat>,
    created: seq<nat>,
    destroyed: seq<nat>,
    bound: map<nat, nat>,
    returned: seq<Return>)

  datatype Label =
    | Spawn
    | Hit(t: nat, key: nat, stream: nat, ok: bool)
    | Miss(t: nat, key: nat, stream: nat)
    | Create(t: nat, made: Option<nat>)    // None: the create call failed
    | Insert(t: nat)
    | Finish(t: nat, ok: bool)             // bind the caller's stream, then return

  predicate At(s: State, t: int) { 0 <= t < |s.phases| }

  predicate Enabled(s: State, l: Label) {
    match l
    case Spawn => true
    case Hit(t, key, _, ok) => At(s, t) && s.phases[t].Idle? && key in s.entries && (s.rebinds || ok)
    case Miss(t, key, _) => At(s, t) && s.phases[t].Idle? && key !in s.entries
    case Create(t, made) => At(s, t) && s.phases[t].Creating? && (made.Some? ==> made.value !in s.alive)
    case Insert(t) => At(s, t) && s.phases[t].Made?
    case Finish(t, ok) => At(s, t) && s.phases[t].Sharing? && (s.rebinds || ok)
  }

  function SetPhase(s: State, t: nat, p: Phase): State
    requires At(s, t)
  {
    s.(phases := s.phases[t := p])
  }

  /** Set the handle's stream and give the handle to the caller. */
  function Give(s: State, key: nat, stream: nat, obj: nat): State {
    s.(bound := if s.rebinds then s.bound[obj := stream] else s.bound,
    returned := s.returned + [Return(key, stream, obj)])
  }

  function Adopt(s: State, t: nat, obj: nat): State
    requires At(s, t)
  {
    SetPhase(s.(alive := s.alive + {obj}, created := s.created + [obj]), t,
             if s.phases[t].Creating? then Made(s.phases[t].key, s.phases[t].stream, obj) else s.phases[t])
  }

  /** `or_insert`: keep what is there and drop the newcomer, or publish it. */
  function Publish(s: State, t: nat, key: nat, stream: nat, obj: nat): State
    requires At(s, t)
  {
    if key in s.entries then
      SetPhase(s.(alive := s.alive - {obj}, destroyed := s.destroyed + [obj]), t, Sharing(key, stream, s.entries[key]))
    else SetPhase(s.(entries := s.entries[key := obj]), t, Sharing(key, stream, obj))
  }

  function Apply(s: State, l: Label): State
    requires Enabled(s, l)
  {
    match l
    case Spawn => s.(phases := s.phases + [Idle])
    case Hit(t, key, stream, ok) => if ok then Give(s, key, stream, s.entries[key]) else s
    case Miss(t, key, stream) => SetPhase(s, t, Creating(key, stream))
    case Create(t, made) => if made.None? then SetPhase(s, t, Idle) else Adopt(s, t, made.value)
    case Insert(t) => Publish(s, t, s.phases[t].key, s.phases[t].stream, s.phases[t].obj)
    case Finish(t, ok) =>
      var p := s.phases[t];
      if ok then Give(SetPhase(s, t, Idle), p.key, p.stream, p.obj) else SetPhase(s, t, Idle)
  }

  function Run(s: State, ls: seq<Label>): Option<State>
    decreases |ls|
  {
    if ls == [] then Some(s)
    else
      match Run(s, ls[..|ls| - 1])
      case None => None
      case Some(u) => if Enabled(u, ls[|ls| - 1]) then Some(Apply(u, ls[|ls| - 1])) else None
  }

  lemma {:induction false} RunOne(s: State, ls: seq<Label>, l: Label)
    requires Run(s, ls).Some? && Enabled(Run(s, ls).value, l)
    ensures Run(s, ls + [l]) == Some(Apply(Run(s, ls).value, l))
  {
    assert (ls + [l])[..|ls + [l]| - 1] == ls;
  }

  lemma {:induction false} RunConcat(s: State, a: seq<Label>, b: seq<Label>)
    requires Run(s, a).Some? && Run(Run(s, a).value, b).Some?
    ensures Run(s, a + b) == Run(Run(s, a).value, b)
    decreases |b|
  {
    if b == [] {
      assert a + b == a;
    } else {
      RunConcat(s, a, b[..|b| - 1]);
      assert (a + b)[..|a + b| - 1] == a + b[..|b| - 1];
    }
  }

  predicate Start(s: State) {
    s.entries == map[] && s.phases == [] && s.alive == {} && s.created == [] && s.destroyed == []
    && s.bound == map[] && s.returned == []
  }

  // ---- the invariant ----

  predicate InHand(s: State, t: int, obj: nat) { At(s, t) && s.phases[t].Made? && s.phases[t].obj == obj }

  predicate CachedAs(s: State, key: nat, obj: nat) { key in s.entries && s.entries[key] == obj }

  /** A live handle has exactly one owner: one key of the cache, or one call. */
  ghost predicate OneOwner(s: State) {
    && (forall o :: o in s.alive ==> (exists k :: CachedAs(s, k, o)) || exists t :: InHand(s, t, o))
    && (forall k, o :: CachedAs(s, k, o) ==> o in s.alive)
    && (forall t, o :: InHand(s, t, o) ==> o in s.alive)
    && (forall k, j, o :: CachedAs(s, k, o) && CachedAs(s, j, o) ==> k == j)
    && (forall t, u, o :: InHand(s, t, o) && InHand(s, u, o) ==> t == u)
    && (forall k, t, o :: CachedAs(s, k, o) && InHand(s, t, o) ==> false)
  }

  /** Every create is matched by a destroy, or the handle is alive. */
  ghost predicate Balanced(s: State) {
    forall o: nat :: Count(s.created, o) == Count(s.destroyed, o) + if o in s.alive then 1 else 0
  }

  /** Whoever shares or got a handle for a key has the one in the cache. */
  ghost predicate Agreed(s: State) {
    && (forall t :: At(s, t) && s.phases[t].Sharing? ==> CachedAs(s, s.phases[t].key, s.phases[t].obj))
    && (forall i :: 0 <= i < |s.returned| ==> CachedAs(s, s.returned[i].key, s.returned[i].obj))
  }

  /** The stream of the most recent caller that got handle `o`. */
  function LastStream(returned: seq<Return>, o: nat): Option<nat>
    decreases |returned|
  {
    if returned == [] then None
    else if returned[|returned| - 1].obj == o then Some(returned[|returned| - 1].stream)
    else LastStream(returned[..|returned| - 1], o)
  }

  ghost predicate BoundToLast(s: State) {
    s.rebinds ==> forall o: nat :: LastStream(s.returned, o) == if o in s.bound then Some(s.bound[o]) else None
  }

  ghost predicate Inv(s: State) { OneOwner(s) && Balanced(s) && Agreed(s) && BoundToLast(s) }

  lemma {:induction false} OwnerSetPhase(s: State, t: nat, p: Phase)
    requires OneOwner(s) && At(s, t) && !s.phases[t].Made? && !p.Made?
    ensures OneOwner(SetPhase(s, t, p))
  {
    var u := SetPhase(s, t, p);
    assert forall v, o :: InHand(u, v, o) <==> InHand(s, v, o);
    assert forall k, o :: CachedAs(u, k, o) <==> CachedAs(s, k, o);
  }

  lemma {:induction false} OwnerAdopt(s: State, t: nat, obj: nat)
    requires OneOwner(s) && At(s, t) && s.phases[t].Creating? && obj !in s.alive
    ensures OneOwner(Adopt(s, t, obj))
  {
    var u := Adopt(s, t, obj);
    assert InHand(u, t, obj);
    assert forall v, o :: InHand(u, v, o) <==> InHand(s, v, o) || (v == t && o == obj);
    assert forall k, o :: CachedAs(u, k, o) <==> CachedAs(s, k, o);
  }

  lemma {:induction false} OwnerPublish(s: State, t: nat)
    requires OneOwner(s) && At(s, t) && s.phases[t].Made?
    ensures OneOwner(Publish(s, t, s.phases[t].key, s.phases[t].stream, s.phases[t].obj))
  {
    var p := s.phases[t];
    var u := Publish(s, t, p.key, p.stream, p.obj);
    assert InHand(s, t, p.obj);
    assert forall v, o :: InHand(u, v, o) <==> InHand(s, v, o) && v != t;
    if p.key in s.entries {
      assert forall k, o :: CachedAs(u, k, o) <==> CachedAs(s, k, o);
    } else {
      assert CachedAs(u, p.key, p.obj);
      assert forall k, o :: CachedAs(u, k, o) <==> CachedAs(s, k, o) || (k == p.key && o == p.obj);
    }
  }

  lemma {:induction false} OwnerSame(s: State, u: State)
    requires OneOwner(s) && u.entries == s.entries && u.alive == s.alive
    requires forall t, o :: InHand(u, t, o) <==> InHand(s, t, o)
    ensures OneOwner(u)
  {
    assert forall k, o :: CachedAs(u, k, o) <==> CachedAs(s, k, o);
  }

  lemma {:induction false} OwnerStep(s: State, l: Label)
    requires OneOwner(s) && Enabled(s, l)
    ensures OneOwner(Apply(s, l))
  {
    match l
    case Spawn => OwnerSame(s, Apply(s, l));
    case Hit(_, _, _, _) => OwnerSame(s, Apply(s, l));
    case Miss(t, key, stream) => OwnerSetPhase(s, t, Creating(key, stream));
    case Create(t, made) =>
      if made.Some? { OwnerAdopt(s, t, made.value); } else { OwnerSetPhase(s, t, Idle); }
    case Insert(t) => OwnerPublish(s, t);
    case Finish(t, _) =>
      OwnerSetPhase(s, t, Idle);
      OwnerSame(SetPhase(s, t, Idle), Apply(s, l));
  }

  lemma {:induction false} BalanceStep(s: State, l: Label)
    requires OneOwner(s) && Balanced(s) && Enabled(s, l)
    ensures Balanced(Apply(s, l))
  {
    var u := Apply(s, l);
    forall o: nat
      ensures Count(u.created, o) == Count(u.destroyed, o) + if o in u.alive then 1 else 0
    {
      assert Count(s.created, o) == Count(s.destroyed, o) + if o in s.alive then 1 else 0;
      if l.Create? && l.made.Some? {
        CountSnoc(s.created, l.made.value, o);
      } else if l.Insert? && s.phases[l.t].key in s.entries {
        assert InHand(s, l.t, s.phases[l.t].obj);
        CountSnoc(s.destroyed, s.phases[l.t].obj, o);
      }
    }
  }

  lemma {:induction false} AgreeStep(s: State, l: Label)
    requires Agreed(s) && Enabled(s, l)
    ensures Agreed(Apply(s, l))
  {
    var u := Apply(s, l);
    assert forall k, o :: CachedAs(s, k, o) ==> CachedAs(u, k, o);
    forall i | 0 <= i < |u.returned| ensures CachedAs(u, u.returned[i].key, u.returned[i].obj) {
      if i < |s.returned| { assert CachedAs(s, s.returned[i].key, s.returned[i].obj); }
    }
  }

  lemma {:induction false} BoundGive(s: State, key: nat, stream: nat, obj: nat)
    requires BoundToLast(s)
    ensures BoundToLast(Give(s, key, stream, obj))
  {
    var u := Give(s, key, stream, obj);
    assert u.returned[..|u.returned| - 1] == s.returned;
  }

  lemma {:induction false} BoundStep(s: State, l: Label)
    requires BoundToLast(s) && Enabled(s, l)
    ensures BoundToLast(Apply(s, l))
  {
    match l
    case Hit(t, key, stream, ok) => BoundGive(s, key, stream, s.entries[key]);
    case Finish(t, ok) => BoundGive(SetPhase(s, t, Idle), s.phases[t].key, s.phases[t].stream, s.phases[t].obj);
    case _ =>
  }

  lemma {:induction false} RunInv(s: State, ls: seq<Label>)
    requires Inv(s) && Run(s, ls).Some?
    ensures Inv(Run(s, ls).value)
    decreases |ls|
  {
    if ls != [] {
      RunInv(s, ls[..|ls| - 1]);
      var u := Run(s, ls[..|ls| - 1]).value;
      OwnerStep(u, ls[|ls| - 1]);
      BalanceStep(u, ls[|ls| - 1]);
      AgreeStep(u, ls[|ls| - 1]);
      BoundStep(u, ls[|ls| - 1]);
    }
  }

  lemma {:induction false} StartInv(s: State)
    requires Start(s)
    ensures Inv(s)
  {
  }

  // ---- theorems ----

  lemma {:induction false} EntryStep(s: State, l: Label, key: nat, obj: nat)
    requires OneOwner(s) && Enabled(s, l) && CachedAs(s, key, obj)
    ensures CachedAs(Apply(s, l), key, obj) && Count(Apply(s, l).destroyed, obj) == Count(s.destroyed, obj)
  {
    if l.Insert? {
      assert InHand(s, l.t, s.phases[l.t].obj);
      CountSnoc(s.destroyed, s.phases[l.t].obj, obj);
    }
  }

  /** Once a key is cached, nothing any thread does changes its entry, and its handle is never
      destroyed. */
  lemma {:induction false} EntryNeverChanges(s: State, ls: seq<Label>, key: nat)
    requires Inv(s) && Run(s, ls).Some? && key in s.entries
    ensures CachedAs(Run(s, ls).value, key, s.entries[key])
    ensures Count(Run(s, ls).value.destroyed, s.entries[key]) == Count(s.destroyed, s.entries[key])
    decreases |ls|
  {
    if ls != [] {
      EntryNeverChanges(s, ls[..|ls| - 1], key);
      RunInv(s, ls[..|ls| - 1]);
      EntryStep(Run(s, ls[..|ls| - 1]).value, ls[|ls| - 1], key, s.entries[key]);
    }
  }

  /** All calls that return for one key return the same handle. */
  lemma {:induction false} OneHandlePerKey(s0: State, ls: seq<Label>, i: nat, j: nat)
    requires Start(s0) && Run(s0, ls).Some?
    requires i < |Run(s0, ls).value.returned| && j < |Run(s0, ls).value.returned|
    ensures var r := Run(s0, ls).value.returned;
            (r[i].key == r[j].key) == (r[i].obj == r[j].obj)
  {
    StartInv(s0);
    RunInv(s0, ls);
    var s := Run(s0, ls).value;
    assert CachedAs(s, s.returned[i].key, s.returned[i].obj) && CachedAs(s, s.returned[j].key, s.returned[j].obj);
  }

  /** When no call is in progress, every handle ever created is the one its key is cached
      under, or has been destroyed, as many times as it was created. */
  lemma {:induction false} RedundantHandlesDropped(s0: State, ls: seq<Label>, o: nat)
    requires Start(s0) && Run(s0, ls).Some?
    requires forall t :: At(Run(s0, ls).value, t) ==> Run(s0, ls).value.phases[t].Idle?
    ensures var s := Run(s0, ls).value;
            Count(s.created, o) == Count(s.destroyed, o) + if (exists k :: CachedAs(s, k, o)) then 1 else 0
  {
    StartInv(s0);
    RunInv(s0, ls);
    var s := Run(s0, ls).value;
    assert forall t :: !InHand(s, t, o);
  }

  /** A shared handle is set to the stream of the caller that got it last. */
  lemma {:induction false} BoundToLastCaller(s0: State, ls: seq<Label>, o: nat)
    requires Start(s0) && s0.rebinds && Run(s0, ls).Some?
    ensures var s := Run(s0, ls).value;
            LastStream(s.returned, o) == if o in s.bound then Some(s.bound[o]) else None
  {
    StartInv(s0);
    RunInv(s0, ls);
    RebindsKept(s0, ls);
  }

  lemma {:induction false} RebindsKept(s: State, ls: seq<Label>)
    requires Run(s, ls).Some?
    ensures Run(s, ls).value.rebinds == s.rebinds
    decreases |ls|
  {
    if ls != [] { RebindsKept(s, ls[..|ls| - 1]); }
  }
}
