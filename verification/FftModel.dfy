/** The FFT plan cache: keys hold the raw value of a stream handle, which the driver may give
    out again once the stream is destroyed. Streams and plans are reference counted, so each
    lives exactly as long as something refers to it. */
module FftModel {
  import opened Wrappers

  /** What a plan computes: 1 to 3 extents, the transform type and the batch. */
  datatype Geometry = Geometry(dims: seq<int>, ty: nat, batch: int)

  datatype Key = Key(d0: int, d1: int, d2: int, rank: nat, ty: nat, batch: int, raw: nat)

  /** A plan object holds a reference to the stream it is bound to. */
  datatype Plan = Plan(geom: Geometry, stream: nat)

  predicate Sane(g: Geometry) { 1 <= |g.dims| <= 3 }

  function KeyOf(g: Geometry, raw: nat): Key
    requires Sane(g)
  {
    Key(g.dims[0], if |g.dims| > 1 then g.dims[1] else 0, if |g.dims| > 2 then g.dims[2] else 0,
        |g.dims|, g.ty, g.batch, raw)
  }

  /** The key tells the geometry and the raw handle. */
  lemma {:induction false} KeyTellsGeometry(g: Geometry, h: Geometry, raw: nat, other: nat)
    requires Sane(g) && Sane(h) && KeyOf(g, raw) == KeyOf(h, other)
    ensures g == h && raw == other
  {
    assert g.dims == h.dims;
  }

  /** A call owns the stream reference it was given until it returns. */
  datatype Phase =
    | Idle
    | Looking(geom: Geometry, stream: nat)              // about to read the cache
    | Building(geom: Geometry, stream: nat)             // the lookup missed; no lock is held
    | Built(geom: Geometry, stream: nat, plan: nat)     // its own plan, about to be inserted

  datatype Return = Return(geom: Geometry, stream: nat, plan: nat)

  /** Streams and plans are numbered as they are made and are never renumbered: `raws` gives
      each stream's handle, `plans` each plan. `arcs` and `held` are the references to streams
      and to plans in clients' hands. */
  datatype State = State(
    raws: seq<nat>,
    arcs: seq<nat>,
    plans: seq<Plan>,
    held: seq<nat>,
    cache: map<Key, nat>,
    phases: seq<Phase>,
    returned: seq<Return>)

  datatype Label =
    | Spawn
    | NewStream(raw: nat)
    | CloneStream(i: nat)
    | DropStream(i: nat)
    | Call(t: nat, i: nat, geom: Geometry)
    | Hit(t: nat)
    | Miss(t: nat)
    | Build(t: nat, ok: bool)
    | Insert(t: nat)
    | DropPlan(i: nat)
    | Clear

  predicate At(s: State, t: int) { 0 <= t < |s.phases| }

  predicate Uses(p: Phase, id: nat) { !p.Idle? && p.stream == id }

  predicate Has(s: State, k: Key, p: nat) { k in s.cache && s.cache[k] == p }

  /** A plan lives while the cache, a client or a call refers to it. */
  ghost predicate PlanLives(s: State, p: nat) {
    || p in s.held
    || (exists k :: Has(s, k, p))
    || exists t :: At(s, t) && s.phases[t].Built? && s.phases[t].plan == p
  }

  ghost predicate BoundTo(s: State, p: nat, id: nat) {
    p < |s.plans| && s.plans[p].stream == id && PlanLives(s, p)
  }

  /** A stream lives while a client, a call or a living plan refers to it. */
  ghost predicate StreamLives(s: State, id: nat) {
    || id in s.arcs
    || (exists t :: At(s, t) && Uses(s.phases[t], id))
    || exists p :: BoundTo(s, p, id)
  }

  /** The driver gives out no handle that a living stream has. */
  ghost predicate FreshRaw(s: State, raw: nat) {
    forall id: nat :: id < |s.raws| && StreamLives(s, id) ==> s.raws[id] != raw
  }

  predicate KeyKnown(s: State, t: int) {
    At(s, t) && s.phases[t].Looking? && Sane(s.phases[t].geom) && s.phases[t].stream < |s.raws|
  }

  function KeyAt(s: State, t: nat): Key
    requires KeyKnown(s, t)
  {
    KeyOf(s.phases[t].geom, s.raws[s.phases[t].stream])
  }

  ghost predicate Enabled(s: State, l: Label) {
    match l
    case Spawn => true
    case NewStream(raw) => FreshRaw(s, raw)
    case CloneStream(i) => i < |s.arcs|
    case DropStream(i) => i < |s.arcs|
    case Call(t, i, geom) => At(s, t) && s.phases[t].Idle? && i < |s.arcs| && Sane(geom)
    case Hit(t) => KeyKnown(s, t) && KeyAt(s, t) in s.cache
    case Miss(t) => KeyKnown(s, t) && KeyAt(s, t) !in s.cache
    case Build(t, _) => At(s, t) && s.phases[t].Building?
    case Insert(t) => At(s, t) && s.phases[t].Built? && Sane(s.phases[t].geom) && s.phases[t].stream < |s.raws|
    case DropPlan(i) => i < |s.held|
    case Clear => true
  }

  function SetPhase(s: State, t: nat, p: Phase): State
    requires At(s, t)
  {
    s.(phases := s.phases[t := p])
  }

  function Without(bag: seq<nat>, i: nat): (r: seq<nat>)
    requires i < |bag|
    ensures forall x :: x in r ==> x in bag
  {
    bag[..i] + bag[i + 1..]
  }

  /** The call returns plan `p` and lets go of its stream reference. */
  function Give(s: State, t: nat, p: nat): State
    requires At(s, t) && !s.phases[t].Idle?
  {
    SetPhase(s.(held := s.held + [p],
             returned := s.returned + [Return(s.phases[t].geom, s.phases[t].stream, p)]), t, Idle)
  }

  function Apply(s: State, l: Label): State
    requires Enabled(s, l)
  {
    match l
    case Spawn => s.(phases := s.phases + [Idle])
    case NewStream(raw) => s.(raws := s.raws + [raw], arcs := s.arcs + [|s.raws|])
    case CloneStream(i) => s.(arcs := s.arcs + [s.arcs[i]])
    case DropStream(i) => s.(arcs := Without(s.arcs, i))
    case Call(t, i, geom) => SetPhase(s.(arcs := Without(s.arcs, i)), t, Looking(geom, s.arcs[i]))
    case Hit(t) => Give(s, t, s.cache[KeyAt(s, t)])
    case Miss(t) => SetPhase(s, t, Building(s.phases[t].geom, s.phases[t].stream))
    case Build(t, ok) =>
      var p := s.phases[t];
      if ok then SetPhase(s.(plans := s.plans + [Plan(p.geom, p.stream)]), t, Built(p.geom, p.stream, |s.plans|))
      else SetPhase(s, t, Idle)
    case Insert(t) =>
      var p := s.phases[t];
      Give(s.(cache := s.cache[KeyOf(p.geom, s.raws[p.stream]) := p.plan]), t, p.plan)
    case DropPlan(i) => s.(held := Without(s.held, i))
    case Clear => s.(cache := map[])
  }

  ghost function Run(s: State, ls: seq<Label>): Option<State>
    decreases |ls|
  {
    if ls == [] then Some(s)
    else
      match Run(s, ls[..|ls| - 1])
      case None => None
      case Some(u) => if Enabled(u, ls[|ls| - 1]) then Some(Apply(u, ls[|ls| - 1])) else None
  }

  lemma {:induction false} RunOne(s: State, ls: seq<Label>, l: Label)
    requires Run(s, ls).Some? && Enabled(Run(s, ls).value, l)
    ensures Run(s, ls + [l]) == Some(Apply(Run(s, ls).value, l))
  {
    assert (ls + [l])[..|ls + [l]| - 1] == ls;
  }

  lemma {:induction false} RunConcat(s: State, a: seq<Label>, b: seq<Label>)
    requires Run(s, a).Some? && Run(Run(s, a).value, b).Some?
    ensures Run(s, a + b) == Run(Run(s, a).value, b)
    decreases |b|
  {
    if b == [] {
      assert a + b == a;
    } else {
      RunConcat(s, a, b[..|b| - 1]);
      assert (a + b)[..|a + b| - 1] == a + b[..|b| - 1];
    }
  }

  function Origin(): State { State([], [], [], [], map[], [], []) }
}
