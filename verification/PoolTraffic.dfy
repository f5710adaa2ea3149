/** Driver traffic of a dispatch loop. */
module PoolTraffic {
  import opened Wrappers
  import opened PoolSizes
  import opened PoolModel
  import opened PoolProofs
  import opened PoolInvariant
  import opened PoolRuns

  /** A step of the pool's only thread that stays within bucket `b`. */
  predicate OnBucket(l: Label, b: nat) {
    match l
    case AllocFront(t, len, size) => t == 0 && Bucketed(len, size) && IdxOf(len, size) == b
    case AllocMiss(t, len, size) => t == 0 && Bucketed(len, size) && IdxOf(len, size) == b
    case AllocBack(t) => t == 0
    case AllocDriver(t, _) => t == 0
    case DropFront(t, _) => t == 0
    case DropMiss(t, _) => t == 0
    case DropBack(t) => t == 0
    case _ => false
  }

  /** Most buffers out at once, over a whole run. */
  function Peak(s: State, ls: seq<Label>): nat
    requires Shaped(s) && Run(s, ls).Some?
    decreases |ls|
  {
    if ls == [] then |s.clients| else Max(Peak(s, ls[..|ls| - 1]), |Run(s, ls).value.clients|)
  }

  /** One thread, one bucket: every block ever asked for is out or cached, none was freed, and
      a miss of a tier means that tier is empty (a full front stack on the way back). */
  ghost predicate Solo(s: State, b: nat, peak: nat) {
    && Shaped(s) && b < NUM_BUCKETS && |s.fronts| == 1 && !s.closed
    && s.driver.frees == 0
    && s.driver.allocs == |s.clients| + |s.fronts[0][b]| + |s.back[b]|
    && s.driver.allocs <= peak && |s.clients| <= peak
    && (forall p :: p in s.clients ==> s.clients[p].bucket == b)
    && match s.phases[0]
       case Idle => true
       case WantBack(i, _, _) => i == b && s.fronts[0][b] == []
       case WantDriver(i, _, _) => i == b && s.fronts[0][b] == [] && s.back[b] == []
       case PushBack(p) => p in s.clients && |s.fronts[0][b]| >= FRONT_CAP
  }

  lemma {:induction false} GrantCount(clients: map<nat, Buf>, p: nat, b: Buf)
    requires p !in clients
    ensures |clients[p := b]| == |clients| + 1
  {
    assert clients[p := b].Keys == clients.Keys + {p};
  }

  lemma {:induction false} ReleaseCount(s: State, p: nat)
    requires p in s.clients
    ensures |s.clients - {p}| == |s.clients| - 1
  {
    assert (s.clients - {p}).Keys == s.clients.Keys - {p};
  }

  /** A buffer of bucket `b` is granted to a thread that is idle afterwards. */
  lemma {:induction false} SoloGrant(s: State, u: State, b: nat, peak: nat, p: nat, len: nat, size: nat)
    requires Solo(s, b, peak) && Shaped(u) && u.phases == [Idle] && |u.fronts| == 1 && !u.closed
    requires u.driver.frees == 0 && u.clients == s.clients && p !in s.clients
    requires u.driver.allocs == |s.clients| + 1 + |u.fronts[0][b]| + |u.back[b]|
    requires u.driver.allocs <= peak && |Grant(u, p, len, size, b).clients| <= peak
    ensures Solo(Grant(u, p, len, size, b), b, peak)
  {
    GrantCount(s.clients, p, Buf(p, len, size, b));
  }

  lemma {:induction false} SoloAllocFront(s: State, b: nat, peak: nat, len: nat, size: nat)
    requires Inv(s) && Solo(s, b, peak) && Enabled(s, AllocFront(0, len, size)) && IdxOf(len, size) == b
    requires |Apply(s, AllocFront(0, len, size)).clients| <= peak
    ensures Solo(Apply(s, AllocFront(0, len, size)), b, peak)
  {
    var st := s.fronts[0][b];
    CachedOwned(s, 0, b, Last(st));
    SoloGrant(s, SetFront(s, 0, b, Init(st)), b, peak, Last(st), len, size);
  }

  lemma {:induction false} SoloAllocBack(s: State, b: nat, peak: nat)
    requires Inv(s) && Solo(s, b, peak) && Enabled(s, AllocBack(0)) && |Apply(s, AllocBack(0)).clients| <= peak
    ensures Solo(Apply(s, AllocBack(0)), b, peak)
  {
    var st := s.back[b];
    if st != [] {
      CachedOwned(s, 0, b, Last(st));
      SoloGrant(s, SetPhase(SetBack(s, b, Init(st)), 0, Idle), b, peak, Last(st), s.phases[0].len, s.phases[0].size);
    }
  }

  lemma {:induction false} SoloAllocDriver(s: State, b: nat, peak: nat, given: Option<nat>)
    requires Inv(s) && Solo(s, b, peak) && Enabled(s, AllocDriver(0, given))
             && |Apply(s, AllocDriver(0, given)).clients| <= peak
    ensures Solo(Apply(s, AllocDriver(0, given)), b, peak)
  {
    if given.Some? {
      var p := s.phases[0];
      DeadUnmentioned(s, given.value);
      GrantCount(s.clients, given.value, Buf(given.value, p.len, p.size, b));
      var u := SetPhase(s, 0, Idle).(driver := Allocate(s.driver, given.value, DriverBytes(b, p.size)));
      SoloGrant(s, u, b, peak, given.value, p.len, p.size);
    }
  }

  lemma {:induction false} SoloDropFront(s: State, b: nat, peak: nat, ptr: nat)
    requires Inv(s) && Solo(s, b, peak) && Enabled(s, DropFront(0, ptr))
    ensures Solo(Apply(s, DropFront(0, ptr)), b, peak)
  {
    ApplyShaped(s, DropFront(0, ptr));
    ReleaseCount(s, ptr);
  }

  lemma {:induction false} SoloDropBack(s: State, b: nat, peak: nat)
    requires Inv(s) && Solo(s, b, peak) && Enabled(s, DropBack(0)) && peak <= FRONT_CAP + s.max
    ensures Solo(Apply(s, DropBack(0)), b, peak)
  {
    ApplyShaped(s, DropBack(0));
    ReleaseCount(s, s.phases[0].ptr);
    assert |s.clients| >= 1;
    assert |s.back[b]| < s.max;
  }

  lemma {:induction false} SoloStep(s: State, b: nat, peak: nat, l: Label)
    requires Inv(s) && Solo(s, b, peak) && Enabled(s, l) && OnBucket(l, b)
    requires |Apply(s, l).clients| <= peak <= FRONT_CAP + s.max
    ensures Solo(Apply(s, l), b, peak)
  {
    match l
    case AllocFront(_, len, size) => SoloAllocFront(s, b, peak, len, size);
    case AllocBack(_) => SoloAllocBack(s, b, peak);
    case AllocDriver(_, given) => SoloAllocDriver(s, b, peak, given);
    case DropFront(_, ptr) => SoloDropFront(s, b, peak, ptr);
    case DropBack(_) => SoloDropBack(s, b, peak);
    case _ => ApplyShaped(s, l);
  }

  lemma {:induction false} MaxKept(s: State, l: Label)
    requires Shaped(s) && Enabled(s, l)
    ensures Apply(s, l).max == s.max
  {
  }

  lemma {:induction false} SoloRun(s: State, ls: seq<Label>, b: nat, peak: nat)
    requires Inv(s) && Solo(s, b, peak) && Run(s, ls).Some?
    requires forall l :: l in ls ==> OnBucket(l, b)
    requires Peak(s, ls) <= peak <= FRONT_CAP + s.max
    ensures Inv(Run(s, ls).value) && Solo(Run(s, ls).value, b, peak) && Run(s, ls).value.max == s.max
    decreases |ls|
  {
    if ls != [] {
      var n := |ls| - 1;
      SoloRun(s, ls[..n], b, peak);
      var t := Run(s, ls[..n]).value;
      assert OnBucket(ls[n], b);
      SoloStep(t, b, peak, ls[n]);
      StepInv(t, ls[n]);
      MaxKept(t, ls[n]);
    }
  }

  /** A single-threaded loop over one size class whose buffers out at once never exceed what
      the two tiers can cache asks the driver for at most that many blocks in all, and frees
      none, however long it runs. */
  lemma {:induction false} DriverTraffic(s0: State, s1: State, ls: seq<Label>, s: State, b: nat)
    requires Fresh(s0) && b < NUM_BUCKETS && s1 == Apply(s0, Spawn) && Shaped(s1) && Run(s1, ls) == Some(s)
    requires forall l :: l in ls ==> OnBucket(l, b)
    requires Peak(s1, ls) <= FRONT_CAP + s0.max
    ensures s.driver.allocs <= Peak(s1, ls) && s.driver.frees == 0
  {
    FreshInv(s0);
    StepInv(s0, Spawn);
    SoloRun(s1, ls, b, Peak(s1, ls));
  }
}
