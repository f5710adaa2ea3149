/** `FftPlanCache` as the code runs it: a map behind a lock that is not held while a plan is
    being built, with clients free to create, clone and drop streams and plans meanwhile. */
module FftPlanCache {
  import opened Wrappers
  import opened FftModel
  import opened FftProofs

  predicate ByThread(l: Label, t: nat) {
    (l.Call? || l.Hit? || l.Miss? || l.Build? || l.Insert?) && l.t == t
  }

  /** `u` is what everyone but thread `t` makes of `s`. */
  ghost predicate ByOthers(s: State, u: State, t: nat) {
    exists ls :: Run(s, ls) == Some(u) && forall l :: l in ls ==> !ByThread(l, t)
  }

  /** Nobody else is running. */
  ghost predicate Quiet(others: State -> State) { forall s: State :: others(s) == s }

  /** The steps of an undisturbed lookup. */
  function Steps(t: nat, hit: bool, works: bool): seq<Label> {
    if hit then [Hit(t)] else if works then [Miss(t), Build(t, true), Insert(t)] else [Miss(t), Build(t, false)]
  }

  lemma {:induction false} StepsJoin(ls: seq<Label>, t: nat)
    ensures ls + [Miss(t)] + [Build(t, false)] == ls + Steps(t, false, false)
    ensures ls + [Miss(t)] + [Build(t, true)] + [Insert(t)] == ls + Steps(t, false, true)
  {
  }

  lemma {:induction false} CallJoin(ls: seq<Label>, call: Label, steps: seq<Label>)
    ensures ls + [call] + steps == ls + ([call] + steps)
  {
  }

  /** Plans and handles are never renumbered. */
  predicate Extends(u: State, s: State) { s.plans <= u.plans && s.raws <= u.raws }

  lemma {:induction false} StepExtends(s: State, l: Label, t: nat)
    requires At(s, t) && Enabled(s, l)
    ensures At(Apply(s, l), t) && Extends(Apply(s, l), s)
    ensures !ByThread(l, t) ==> Apply(s, l).phases[t] == s.phases[t]
  {
  }

  lemma {:induction false} OthersKeep(s: State, ls: seq<Label>, t: nat)
    requires At(s, t) && Run(s, ls).Some? && forall l :: l in ls ==> !ByThread(l, t)
    ensures var u := Run(s, ls).value; At(u, t) && u.phases[t] == s.phases[t] && Extends(u, s)
    decreases |ls|
  {
    if ls != [] {
      assert ls[|ls| - 1] in ls;
      OthersKeep(s, ls[..|ls| - 1], t);
      StepExtends(Run(s, ls[..|ls| - 1]).value, ls[|ls| - 1], t);
    }
  }

  class FftPlanCache {
    var raws: seq<nat>
    var arcs: seq<nat>
    var plans: seq<Plan>
    var held: seq<nat>
    var cache: map<Key, nat>
    var phases: seq<Phase>
    var returned: seq<Return>
    ghost var trace: seq<Label>

    function View(): State
      reads this
    {
      State(raws, arcs, plans, held, cache, phases, returned)
    }

    ghost predicate Valid()
      reads this
    {
      Run(Origin(), trace) == Some(View())
    }

    constructor ()
      ensures Valid() && View() == Origin()
    {
      raws, arcs, plans, held, cache, phases, returned, trace := [], [], [], [], map[], [], [], [];
    }

    lemma {:induction false} Reached()
      requires Valid()
      ensures Inv(View())
    {
      OriginInv();
      RunInv(Origin(), trace);
    }

    ghost method Took(l: Label, was: State)
      requires Run(Origin(), trace) == Some(was) && Enabled(was, l) && View() == Apply(was, l)
      modifies `trace
      ensures Valid() && trace == old(trace) + [l]
    {
      RunOne(Origin(), trace, l);
      trace := trace + [l];
    }

    /** No lock is held: clients and other calls do as they like. */
    method Interlude(t: nat, others: State -> State)
      requires Valid() && At(View(), t) && ByOthers(View(), others(View()), t)
      modifies this
      ensures Valid() && At(View(), t) && phases[t] == old(phases[t]) && Extends(View(), old(View()))
      ensures others(old(View())) == old(View()) ==> View() == old(View()) && trace == old(trace)
    {
      var u := others(View());
      if u == View() {
        return;
      }
      ghost var ls :| Run(View(), ls) == Some(u) && forall l :: l in ls ==> !ByThread(l, t);
      OthersKeep(View(), ls, t);
      RunConcat(Origin(), trace, ls);
      raws, arcs, plans, held, cache, phases, returned := u.raws, u.arcs, u.plans, u.held, u.cache, u.phases,
        u.returned;
      trace := trace + ls;
    }

    /** Plan `p` has just been returned to the caller. */
    ghost predicate Given(geom: Geometry, stream: nat, p: nat)
      reads this
    {
      && p < |plans| && plans[p] == Plan(geom, stream)
      && held != [] && held[|held| - 1] == p
    }

    /** How a call for `key` went: it fails exactly on a miss whose build fails; a hit gives the
        cached plan and builds, caches and drops nothing; whatever it gives is cached. */
    twostate predicate Answered(key: Key, works: bool, new r: Option<nat>)
      reads this
    {
      && (r.None? <==> key !in old(cache) && !works)
      && (key in old(cache) ==> r == Some(old(cache)[key]) && plans == old(plans) && cache == old(cache))
      && (r.Some? ==> key in cache && cache[key] == r.value)
    }

    /** And if nobody else was running: a miss builds one plan and caches it, and every other key
        keeps its plan. */
    twostate predicate AnsweredAlone(key: Key, geom: Geometry, stream: nat, new r: Option<nat>)
      reads this
    {
      && cache == (if r.Some? then old(cache)[key := r.value] else old(cache))
      && (key !in old(cache) ==> plans == old(plans) + if r.Some? then [Plan(geom, stream)] else [])
      && (key !in old(cache) && r.Some? ==> r.value == |old(plans)|)
    }

    /** Under the read lock. */
    method LookUp(t: nat, geom: Geometry, stream: nat, key: Key) returns (r: Option<nat>)
      requires Valid() && At(View(), t) && phases[t] == Looking(geom, stream)
      requires Sane(geom) && stream < |raws| && key == KeyOf(geom, raws[stream])
      modifies `held, `phases, `returned, `trace
      ensures Valid() && At(View(), t)
      ensures r.Some? <==> key in cache
      ensures r.Some? ==> r.value == cache[key] && Given(geom, stream, r.value)
      ensures r.Some? ==> phases[t] == Idle && trace == old(trace) + [Hit(t)]
      ensures r.None? ==> phases[t] == Building(geom, stream) && held == old(held) && trace == old(trace) + [Miss(t)]
    {
      ghost var was := View();
      Reached();
      if key in cache {
        HitIsRight(was, t);
        var p := cache[key];
        held := held + [p];
        returned := returned + [Return(geom, stream, p)];
        phases := phases[t := Idle];
        Took(Hit(t), was);
        return Some(p);
      }
      phases := phases[t := Building(geom, stream)];
      Took(Miss(t), was);
      return None;
    }

    /** Create a plan and bind it to the stream; it keeps the stream reference. */
    method BuildPlan(t: nat, geom: Geometry, stream: nat, works: bool) returns (r: Option<nat>)
      requires Valid() && At(View(), t) && phases[t] == Building(geom, stream)
      modifies `plans, `phases, `trace
      ensures Valid() && At(View(), t) && raws == old(raws) && trace == old(trace) + [Build(t, works)]
      ensures r.Some? <==> works
      ensures plans == old(plans) + if works then [Plan(geom, stream)] else []
      ensures r.None? ==> phases[t] == Idle
      ensures r.Some? ==> phases[t] == Built(geom, stream, r.value) && r.value == |old(plans)|
    {
      ghost var was := View();
      if !works {
        phases := phases[t := Idle];
        Took(Build(t, false), was);
        return None;
      }
      r := Some(|plans|);
      plans := plans + [Plan(geom, stream)];
      phases := phases[t := Built(geom, stream, r.value)];
      Took(Build(t, true), was);
    }

    /** `insert` under the write lock: a plan that a racing call cached is replaced. */
    method InsertPlan(t: nat, geom: Geometry, stream: nat, plan: nat, key: Key)
      requires Valid() && At(View(), t) && phases[t] == Built(geom, stream, plan)
      requires Sane(geom) && stream < |raws| && key == KeyOf(geom, raws[stream])
      modifies `cache, `held, `phases, `returned, `trace
      ensures Valid() && phases == old(phases)[t := Idle] && cache == old(cache)[key := plan]
      ensures Given(geom, stream, plan) && trace == old(trace) + [Insert(t)]
    {
      ghost var was := View();
      Reached();
      cache := cache[key := plan];
      held := held + [plan];
      returned := returned + [Return(geom, stream, plan)];
      phases := phases[t := Idle];
      Took(Insert(t), was);
    }

    /** `get_or_insert`: whatever happens meanwhile, the plan returned has the geometry asked for
        and is bound to the stream asked for, and is the one now cached under the key. */
    method GetOrInsert(t: nat, geom: Geometry, stream: nat, key: Key, others: State -> State, works: bool)
      returns (r: Option<nat>)
      requires Valid() && At(View(), t) && phases[t] == Looking(geom, stream)
      requires Sane(geom) && stream < |raws| && key == KeyOf(geom, raws[stream])
      requires forall s: State :: ByOthers(s, others(s), t)
      modifies this
      ensures Valid() && At(View(), t) && phases[t] == Idle
      ensures Answered(key, works, r) && (Quiet(others) ==> AnsweredAlone(key, geom, stream, r))
      ensures r.Some? ==> Given(geom, stream, r.value)
      ensures key in old(cache) || Quiet(others) ==> trace == old(trace) + Steps(t, key in old(cache), works)
    {
      StepsJoin(trace, t);
      r := LookUp(t, geom, stream, key);
      if r.None? {
        Interlude(t, others);
        r := BuildPlan(t, geom, stream, works);
        if r.Some? {
          Interlude(t, others);
          InsertPlan(t, geom, stream, r.value, key);
        }
      }
    }

    /** A call takes over its stream reference. */
    method Begin(t: nat, i: nat, geom: Geometry) returns (stream: nat)
      requires Valid() && At(View(), t) && phases[t].Idle? && i < |arcs| && Sane(geom)
      modifies `arcs, `phases, `trace
      ensures Valid() && At(View(), t) && phases[t] == Looking(geom, stream)
      ensures stream == old(arcs)[i] && stream < |raws| && trace == old(trace) + [Call(t, i, geom)]
    {
      ghost var was := View();
      Reached();
      stream := arcs[i];
      assert stream in arcs;
      arcs := Without(arcs, i);
      phases := phases[t := Looking(geom, stream)];
      Took(Call(t, i, geom), was);
    }

    /** `plan_1d`. */
    method Plan1D(t: nat, i: nat, nx: int, ty: nat, batch: int, others: State -> State, works: bool)
      returns (r: Option<nat>)
      requires Valid() && At(View(), t) && phases[t].Idle? && i < |arcs|
      requires forall s: State :: ByOthers(s, others(s), t)
      modifies this
      ensures Valid() && At(View(), t) && phases[t] == Idle
      ensures old(arcs)[i] < |old(raws)|
      ensures var key := Key(nx, 0, 0, 1, ty, batch, old(raws)[old(arcs)[i]]);
              && Answered(key, works, r)
              && (Quiet(others) ==> AnsweredAlone(key, Geometry([nx], ty, batch), old(arcs)[i], r))
              && (key in old(cache) || Quiet(others) ==>
                    trace == old(trace) + ([Call(t, i, Geometry([nx], ty, batch))]
                      + Steps(t, key in old(cache), works)))
      ensures r.Some? ==> Given(Geometry([nx], ty, batch), old(arcs)[i], r.value)
    {
      var stream := Begin(t, i, Geometry([nx], ty, batch));
      var key := Key(nx, 0, 0, 1, ty, batch, raws[stream]);
      CallJoin(old(trace), Call(t, i, Geometry([nx], ty, batch)), Steps(t, key in cache, works));
      r := GetOrInsert(t, Geometry([nx], ty, batch), stream, key, others, works);
    }

    /** `plan_2d`: always a single transform. */
    method Plan2D(t: nat, i: nat, nx: int, ny: int, ty: nat, others: State -> State, works: bool)
      returns (r: Option<nat>)
      requires Valid() && At(View(), t) && phases[t].Idle? && i < |arcs|
      requires forall s: State :: ByOthers(s, others(s), t)
      modifies this
      ensures Valid() && At(View(), t) && phases[t] == Idle
      ensures old(arcs)[i] < |old(raws)|
      ensures var key := Key(nx, ny, 0, 2, ty, 1, old(raws)[old(arcs)[i]]);
              && Answered(key, works, r)
              && (Quiet(others) ==> AnsweredAlone(key, Geometry([nx, ny], ty, 1), old(arcs)[i], r))
              && (key in old(cache) || Quiet(others) ==>
                    trace == old(trace) + ([Call(t, i, Geometry([nx, ny], ty, 1))]
                      + Steps(t, key in old(cache), works)))
      ensures r.Some? ==> Given(Geometry([nx, ny], ty, 1), old(arcs)[i], r.value)
    {
      var stream := Begin(t, i, Geometry([nx, ny], ty, 1));
      var key := Key(nx, ny, 0, 2, ty, 1, raws[stream]);
      CallJoin(old(trace), Call(t, i, Geometry([nx, ny], ty, 1)), Steps(t, key in cache, works));
      r := GetOrInsert(t, Geometry([nx, ny], ty, 1), stream, key, others, works);
    }

    /** `plan_3d`: always a single transform. */
    method Plan3D(t: nat, i: nat, nx: int, ny: int, nz: int, ty: nat, others: State -> State, works: bool)
      returns (r: Option<nat>)
      requires Valid() && At(View(), t) && phases[t].Idle? && i < |arcs|
      requires forall s: State :: ByOthers(s, others(s), t)
      modifies this
      ensures Valid() && At(View(), t) && phases[t] == Idle
      ensures old(arcs)[i] < |old(raws)|
      ensures var key := Key(nx, ny, nz, 3, ty, 1, old(raws)[old(arcs)[i]]);
              && Answered(key, works, r)
              && (Quiet(others) ==> AnsweredAlone(key, Geometry([nx, ny, nz], ty, 1), old(arcs)[i], r))
              && (key in old(cache) || Quiet(others) ==>
                    trace == old(trace) + ([Call(t, i, Geometry([nx, ny, nz], ty, 1))]
                      + Steps(t, key in old(cache), works)))
      ensures r.Some? ==> Given(Geometry([nx, ny, nz], ty, 1), old(arcs)[i], r.value)
    {
      var stream := Begin(t, i, Geometry([nx, ny, nz], ty, 1));
      var key := Key(nx, ny, nz, 3, ty, 1, raws[stream]);
      CallJoin(old(trace), Call(t, i, Geometry([nx, ny, nz], ty, 1)), Steps(t, key in cache, works));
      r := GetOrInsert(t, Geometry([nx, ny, nz], ty, 1), stream, key, others, works);
    }

    /** `clear`: the cache lets go of every plan; clients keep theirs. */
    method ClearPlans()
      requires Valid()
      modifies `cache, `trace
      ensures Valid() && cache == map[] && trace == old(trace) + [Clear]
    {
      ghost var was := View();
      cache := map[];
      Took(Clear, was);
    }
  }
}
