/** A hit is bound to the very stream asked for. */
module FftProofs {
  import opened Wrappers
  import opened FftModel

  /** Everything referred to exists. */
  ghost predicate InRange(s: State) {
    && (forall id :: id in s.arcs ==> id < |s.raws|)
    && (forall p :: p in s.held ==> p < |s.plans|)
    && (forall t :: At(s, t) && !s.phases[t].Idle? ==> Sane(s.phases[t].geom) && s.phases[t].stream < |s.raws|)
    && (forall p :: 0 <= p < |s.plans| ==> Sane(s.plans[p].geom) && s.plans[p].stream < |s.raws|)
  }

  predicate CachedRight(s: State, k: Key, p: nat) {
    && p < |s.plans| && Sane(s.plans[p].geom) && s.plans[p].stream < |s.raws|
    && k == KeyOf(s.plans[p].geom, s.raws[s.plans[p].stream])
  }

  /** Calls in progress and finished calls have the right plan. */
  ghost predicate PlansRight(s: State) {
    && (forall t :: At(s, t) && s.phases[t].Built? ==>
                      s.phases[t].plan < |s.plans|
                        && s.plans[s.phases[t].plan] == Plan(s.phases[t].geom, s.phases[t].stream))
    && (forall i :: 0 <= i < |s.returned| ==>
                      s.returned[i].plan < |s.plans|
                        && s.plans[s.returned[i].plan] == Plan(s.returned[i].geom, s.returned[i].stream))
  }

  ghost predicate Inv(s: State) {
    && InRange(s)
    && (forall a: nat, b: nat ::
          a < |s.raws| && b < |s.raws| && StreamLives(s, a) && StreamLives(s, b) && s.raws[a] == s.raws[b] ==> a == b)
    && (forall k :: k in s.cache ==> CachedRight(s, k, s.cache[k]))
    && PlansRight(s)
  }

  /** A call that is given plan `q`, which lived before, brings no other plan to life. */
  lemma {:induction false} GiveKeeps(s: State, r: State, t: nat, q: nat, p: nat)
    requires At(s, t) && !s.phases[t].Idle? && r.held == s.held && r.phases == s.phases
    requires PlanLives(s, q) && PlanLives(Give(r, t, q), p)
    requires forall k, x :: Has(r, k, x) ==> Has(s, k, x) || x == q
    ensures PlanLives(s, p)
  {
    var u := Give(r, t, q);
    if p != q {
      if p in u.held {
        assert p in s.held;
      } else if k :| Has(u, k, p) {
        assert Has(r, k, p);
      } else {
        var v :| At(u, v) && u.phases[v].Built? && u.phases[v].plan == p;
        assert At(s, v) && s.phases[v].Built? && s.phases[v].plan == p;
      }
    }
  }

  /** Fewer references keep no more plans alive. */
  lemma {:induction false} FewerPlans(s: State, u: State, p: nat)
    requires PlanLives(u, p)
    requires (forall x :: x in u.held ==> x in s.held) && (forall k, x :: Has(u, k, x) ==> Has(s, k, x))
    requires forall t :: At(u, t) && u.phases[t].Built? && u.phases[t].plan == p ==>
             At(s, t) && s.phases[t] == u.phases[t]
    ensures PlanLives(s, p)
  {
  }

  /** A plan that lives after a step lived before it, or is the one just built. */
  lemma {:induction false} PlanLived(s: State, l: Label, p: nat)
    requires InRange(s) && Enabled(s, l) && PlanLives(Apply(s, l), p)
    ensures PlanLives(s, p) || (l.Build? && l.ok && p == |s.plans|)
  {
    if l.Hit? {
      assert Has(s, KeyAt(s, l.t), s.cache[KeyAt(s, l.t)]);
      GiveKeeps(s, s, l.t, s.cache[KeyAt(s, l.t)], p);
    } else if l.Insert? {
      var q := s.phases[l.t];
      GiveKeeps(s, s.(cache := s.cache[KeyOf(q.geom, s.raws[q.stream]) := q.plan]), l.t, q.plan, p);
    } else if !(l.Build? && l.ok && p == |s.plans|) {
      FewerPlans(s, Apply(s, l), p);
    }
  }

  /** A living plan's stream lived before the step. */
  lemma {:induction false} PlanStreamLived(s: State, l: Label, p: nat, id: nat)
    requires InRange(s) && Enabled(s, l) && BoundTo(Apply(s, l), p, id)
    ensures StreamLives(s, id)
  {
    PlanLived(s, l, p);
    if l.Build? && l.ok && p == |s.plans| {
      assert Uses(s.phases[l.t], id);
    } else {
      assert BoundTo(s, p, id);
    }
  }

  /** No step brings a dead stream back to life. */
  lemma {:induction false} NoResurrection(s: State, l: Label, id: nat)
    requires InRange(s) && Enabled(s, l) && StreamLives(Apply(s, l), id)
    ensures StreamLives(s, id) || (l.NewStream? && id == |s.raws|)
  {
    var u := Apply(s, l);
    if p :| BoundTo(u, p, id) {
      PlanStreamLived(s, l, p, id);
    } else if t :| At(u, t) && Uses(u.phases[t], id) {
      if !(At(s, t) && Uses(s.phases[t], id)) {
        assert l.Call? && id == s.arcs[l.i];
      }
    }
  }

  lemma {:induction false} RangeGive(s: State, t: nat, p: nat)
    requires InRange(s) && At(s, t) && !s.phases[t].Idle? && p < |s.plans|
    ensures InRange(Give(s, t, p))
  {
  }

  lemma {:induction false} RangeStep(s: State, l: Label)
    requires Inv(s) && Enabled(s, l)
    ensures InRange(Apply(s, l))
  {
    match l
    case Hit(t) =>
      assert CachedRight(s, KeyAt(s, t), s.cache[KeyAt(s, t)]);
      RangeGive(s, t, s.cache[KeyAt(s, t)]);
    case Insert(t) =>
      RangeGive(s, t, s.phases[t].plan);
    case Call(t, i, geom) =>
      assert s.arcs[i] in s.arcs;
    case CloneStream(i) =>
      assert s.arcs[i] in s.arcs;
    case _ =>
  }

  /** Living streams keep distinct handles. */
  lemma {:induction false} DistinctStep(s: State, l: Label, a: nat, b: nat)
    requires Inv(s) && Enabled(s, l)
    requires var u := Apply(s, l);
             a < |u.raws| && b < |u.raws| && StreamLives(u, a) && StreamLives(u, b) && u.raws[a] == u.raws[b]
    ensures a == b
  {
    NoResurrection(s, l, a);
    NoResurrection(s, l, b);
  }

  lemma {:induction false} CacheStep(s: State, l: Label)
    requires Inv(s) && Enabled(s, l)
    ensures forall k :: k in Apply(s, l).cache ==> CachedRight(Apply(s, l), k, Apply(s, l).cache[k])
  {
    var u := Apply(s, l);
    forall k | k in u.cache ensures CachedRight(u, k, u.cache[k]) {
      if k in s.cache && u.cache[k] == s.cache[k] { assert CachedRight(s, k, s.cache[k]); }
    }
  }

  /** The cached plan a lookup finds has the geometry and the stream asked for. */
  lemma {:induction false} HitIsRight(s: State, t: nat)
    requires Inv(s) && Enabled(s, Hit(t))
    ensures var p := s.cache[KeyAt(s, t)];
            p < |s.plans| && s.plans[p] == Plan(s.phases[t].geom, s.phases[t].stream)
  {
    var k := KeyAt(s, t);
    var p := s.cache[k];
    assert CachedRight(s, k, p) && Has(s, k, p);
    KeyTellsGeometry(s.plans[p].geom, s.phases[t].geom, s.raws[s.plans[p].stream], s.raws[s.phases[t].stream]);
    assert BoundTo(s, p, s.plans[p].stream);
    assert Uses(s.phases[t], s.phases[t].stream);
  }

  lemma {:induction false} PlansStep(s: State, l: Label)
    requires Inv(s) && Enabled(s, l)
    ensures PlansRight(Apply(s, l))
  {
    if l.Hit? { HitIsRight(s, l.t); }
  }

  lemma {:induction false} InvStep(s: State, l: Label)
    requires Inv(s) && Enabled(s, l)
    ensures Inv(Apply(s, l))
  {
    var u := Apply(s, l);
    RangeStep(s, l);
    CacheStep(s, l);
    PlansStep(s, l);
    forall a: nat, b: nat
      | a < |u.raws| && b < |u.raws| && StreamLives(u, a) && StreamLives(u, b) && u.raws[a] == u.raws[b]
      ensures a == b
    {
      DistinctStep(s, l, a, b);
    }
  }

  lemma {:induction false} RunInv(s: State, ls: seq<Label>)
    requires Inv(s) && Run(s, ls).Some?
    ensures Inv(Run(s, ls).value)
    decreases |ls|
  {
    if ls != [] {
      RunInv(s, ls[..|ls| - 1]);
      InvStep(Run(s, ls[..|ls| - 1]).value, ls[|ls| - 1]);
    }
  }

  lemma {:induction false} OriginInv()
    ensures Inv(Origin())
  {
  }

  // ---- theorems ----

  /** Every call that returned, on a hit or a miss, returned a plan of the geometry asked for,
      bound to the very stream it was given, however handles were reused in between. */
  lemma {:induction false} EveryReturnIsRight(ls: seq<Label>, i: nat)
    requires Run(Origin(), ls).Some? && i < |Run(Origin(), ls).value.returned|
    ensures var s := Run(Origin(), ls).value;
            s.returned[i].plan < |s.plans|
              && s.plans[s.returned[i].plan] == Plan(s.returned[i].geom, s.returned[i].stream)
  {
    OriginInv();
    RunInv(Origin(), ls);
  }

  /** A cached plan keeps its stream alive, so its key's handle is no other living stream's. */
  lemma {:induction false} CachedHandleIsOwn(ls: seq<Label>, k: Key, id: nat)
    requires Run(Origin(), ls).Some?
    requires var s := Run(Origin(), ls).value;
             k in s.cache && id < |s.raws| && StreamLives(s, id) && s.raws[id] == k.raw
    ensures var s := Run(Origin(), ls).value;
            s.cache[k] < |s.plans| && s.plans[s.cache[k]].stream == id
  {
    OriginInv();
    RunInv(Origin(), ls);
    var s := Run(Origin(), ls).value;
    assert CachedRight(s, k, s.cache[k]) && Has(s, k, s.cache[k]);
    assert BoundTo(s, s.cache[k], s.plans[s.cache[k]].stream);
  }
}
