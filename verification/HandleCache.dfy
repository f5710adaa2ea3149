/** `handle_for` as the code runs it, with every other thread free to run wherever the call
    holds no lock. */
module HandleCache {
  import opened Wrappers
  import opened HandleModel

  datatype Error = CreateFailed | BindFailed

  predicate ByThread(l: Label, t: nat) { !l.Spawn? && l.t == t }

  /** The other threads' steps leave thread `t` where it is. */
  lemma {:induction false} OthersKeepThread(s: State, ls: seq<Label>, t: nat)
    requires At(s, t) && Run(s, ls).Some? && forall l :: l in ls ==> !ByThread(l, t)
    ensures At(Run(s, ls).value, t) && Run(s, ls).value.phases[t] == s.phases[t]
    decreases |ls|
  {
    if ls != [] {
      assert ls[|ls| - 1] in ls;
      OthersKeepThread(s, ls[..|ls| - 1], t);
    }
  }

  /** Nobody else is running. */
  ghost predicate Quiet(others: State -> seq<Label>) { forall s: State :: others(s) == [] }

  /** The steps of an undisturbed miss, given what the library's create call answers. */
  function MissSteps(t: nat, key: nat, stream: nat, made: Option<nat>, bindOk: bool): seq<Label> {
    [Miss(t, key, stream), Create(t, made)] + if made.Some? then [Insert(t), Finish(t, bindOk)] else []
  }

  lemma {:induction false} StepsJoin(ls: seq<Label>, t: nat, key: nat, stream: nat, made: Option<nat>, bindOk: bool)
    ensures made.None? ==>
              ls + [Miss(t, key, stream)] + [Create(t, made)] == ls + MissSteps(t, key, stream, made, bindOk)
    ensures made.Some? ==>
              ls + [Miss(t, key, stream)] + [Create(t, made)] + [Insert(t)] + [Finish(t, bindOk)]
              == ls + MissSteps(t, key, stream, made, bindOk)
  {
  }

  function Origin(rebinds: bool): State {
    State(rebinds, map[], [], {}, [], [], map[], [])
  }

  /** What the other threads do in state `s`: nothing unless the plan is a run of theirs. */
  function Legal(s: State, ls: seq<Label>, t: nat): (r: seq<Label>)
    ensures Run(s, r).Some? && forall l :: l in r ==> !ByThread(l, t)
  {
    if Run(s, ls).Some? && forall l :: l in ls ==> !ByThread(l, t) then ls else []
  }

  class HandleCache {
    const rebinds: bool
    var entries: map<nat, nat>
    var bound: map<nat, nat>
    var phases: seq<Phase>
    var alive: set<nat>
    var created: seq<nat>
    var destroyed: seq<nat>
    var returned: seq<Return>
    ghost var trace: seq<Label>

    function View(): State
      reads this
    {
      State(rebinds, entries, phases, alive, created, destroyed, bound, returned)
    }

    ghost predicate Valid()
      reads this
    {
      Run(Origin(rebinds), trace) == Some(View())
    }

    constructor (rebinds: bool)
      ensures Valid() && View() == Origin(rebinds)
    {
      this.rebinds := rebinds;
      entries, bound, phases, alive := map[], map[], [], {};
      created, destroyed, returned, trace := [], [], [], [];
    }

    lemma {:induction false} Reached()
      requires Valid()
      ensures Inv(View())
    {
      StartInv(Origin(rebinds));
      RunInv(Origin(rebinds), trace);
    }

    /** The fields have just been changed as step `l` of state `was` says: log it. */
    ghost method Took(l: Label, was: State)
      requires Run(Origin(rebinds), trace) == Some(was) && Enabled(was, l) && View() == Apply(was, l)
      modifies `trace
      ensures Valid() && trace == old(trace) + [l]
    {
      RunOne(Origin(rebinds), trace, l);
      trace := trace + [l];
    }

    /** No lock is held: the other threads run as `others` says. */
    method Interlude(t: nat, others: State -> seq<Label>)
      requires Valid() && At(View(), t)
      modifies this
      ensures Valid() && At(View(), t) && phases[t] == old(phases[t]) && old(trace) <= trace
      ensures forall k :: k in old(entries) ==> k in entries && entries[k] == old(entries)[k]
      ensures others(old(View())) == [] ==> View() == old(View()) && trace == old(trace)
    {
      Reached();
      var s := View();
      var ls := Legal(s, others(s), t);
      OthersKeepThread(s, ls, t);
      RebindsKept(s, ls);
      forall k | k in entries ensures CachedAs(Run(s, ls).value, k, entries[k]) {
        EntryNeverChanges(s, ls, k);
      }
      RunConcat(Origin(rebinds), trace, ls);
      var u := Run(s, ls).value;
      entries, bound, phases, alive := u.entries, u.bound, u.phases, u.alive;
      created, destroyed, returned := u.created, u.destroyed, u.returned;
      trace := trace + ls;
    }

    /** Under the lock: a cached handle is bound to the caller's stream and returned. */
    method LookUp(t: nat, key: nat, stream: nat, bindOk: bool) returns (h: Option<nat>)
      requires Valid() && At(View(), t) && phases[t].Idle? && (rebinds || bindOk)
      modifies `bound, `phases, `returned, `trace
      ensures Valid() && At(View(), t)
      ensures h.Some? <==> key in entries
      ensures h.Some? ==> h.value == entries[key] && phases == old(phases)
      ensures h.Some? ==> trace == old(trace) + [Hit(t, key, stream, bindOk)]
      ensures h.Some? && bindOk ==> Given(key, stream, h.value)
      ensures h.None? ==> View() == SetPhase(old(View()), t, Creating(key, stream))
      ensures h.None? ==> trace == old(trace) + [Miss(t, key, stream)]
    {
      ghost var was := View();
      if key in entries {
        var o := entries[key];
        if bindOk {
          bound := if rebinds then bound[o := stream] else bound;
          returned := returned + [Return(key, stream, o)];
        }
        Took(Hit(t, key, stream, bindOk), was);
        return Some(o);
      }
      phases := phases[t := Creating(key, stream)];
      Took(Miss(t, key, stream), was);
      return None;
    }

    /** The caller has just been given handle `o`, set to its stream. */
    ghost predicate Given(key: nat, stream: nat, o: nat)
      reads this
    {
      && returned != [] && returned[|returned| - 1] == Return(key, stream, o)
      && (rebinds ==> o in bound && bound[o] == stream)
    }

    /** Step `k` is this thread's create call, answered as the library answers in the state in
        which it is asked. */
    ghost predicate AskedAt(k: nat, t: nat, create: State -> Option<nat>)
      reads this
    {
      && k < |trace| && Run(Origin(rebinds), trace[..k]).Some?
      && trace[k] == Create(t, create(Run(Origin(rebinds), trace[..k]).value))
    }

    /** The library's create call: `made` is a handle that is not live, or a failure. */
    method CreateHandle(t: nat, made: Option<nat>)
      requires Valid() && At(View(), t) && phases[t].Creating? && (made.Some? ==> made.value !in alive)
      modifies `phases, `alive, `created, `trace
      ensures Valid() && trace == old(trace) + [Create(t, made)]
      ensures var p := old(phases[t]);
              phases == old(phases)[t := if made.None? then Idle else Made(p.key, p.stream, made.value)]
    {
      ghost var was := View();
      if made.Some? {
        alive := alive + {made.value};
        created := created + [made.value];
        phases := phases[t := Made(phases[t].key, phases[t].stream, made.value)];
      } else {
        phases := phases[t := Idle];
      }
      Took(Create(t, made), was);
    }

    /** `entry(key).or_insert(obj)`: the handle that reached the cache first wins, and the
        other one is destroyed. */
    method OrInsert(t: nat, key: nat, stream: nat, obj: nat) returns (h: nat)
      requires Valid() && At(View(), t) && phases[t] == Made(key, stream, obj)
      modifies `entries, `phases, `alive, `destroyed, `trace
      ensures Valid() && trace == old(trace) + [Insert(t)] && phases == old(phases)[t := Sharing(key, stream, h)]
      ensures forall k :: k in old(entries) ==> k in entries && entries[k] == old(entries)[k]
      ensures CachedAs(View(), key, h)
      ensures key !in old(entries) ==> h == obj && destroyed == old(destroyed)
      ensures key in old(entries) ==> destroyed == old(destroyed) + [obj]
    {
      ghost var was := View();
      if key in entries {
        h := entries[key];
        alive := alive - {obj};
        destroyed := destroyed + [obj];
      } else {
        h := obj;
        entries := entries[key := obj];
      }
      phases := phases[t := Sharing(key, stream, h)];
      Took(Insert(t), was);
    }

    /** The miss path sets the stream after it has let go of the lock. */
    method BindAndReturn(t: nat, key: nat, stream: nat, h: nat, bindOk: bool)
      requires Valid() && At(View(), t) && phases[t] == Sharing(key, stream, h) && (rebinds || bindOk)
      modifies `bound, `phases, `returned, `trace
      ensures Valid() && phases == old(phases)[t := Idle] && trace == old(trace) + [Finish(t, bindOk)]
      ensures bindOk ==> Given(key, stream, h)
    {
      ghost var was := View();
      phases := phases[t := Idle];
      if bindOk {
        bound := if rebinds then bound[h := stream] else bound;
        returned := returned + [Return(key, stream, h)];
      }
      Took(Finish(t, bindOk), was);
    }

    /** The handle asked for, or the library's failure. */
    method AskLibrary(t: nat, create: State -> Option<nat>) returns (made: Option<nat>, ghost at: nat)
      requires Valid() && At(View(), t) && phases[t].Creating?
      requires forall s: State :: create(s).Some? ==> create(s).value !in s.alive
      modifies `phases, `alive, `created, `trace
      ensures Valid() && made == create(old(View())) && trace == old(trace) + [Create(t, made)]
      ensures at == |old(trace)| && AskedAt(at, t, create)
      ensures var p := old(phases[t]);
              phases == old(phases)[t := if made.None? then Idle else Made(p.key, p.stream, made.value)]
    {
      at := |trace|;
      made := create(View());
      CreateHandle(t, made);
      assert trace[..at] == old(trace);
    }

    /** Once a handle is made: `or_insert` it, the other threads running first. */
    method InsertMade(t: nat, key: nat, stream: nat, obj: nat, others: State -> seq<Label>) returns (h: nat)
      requires Valid() && At(View(), t) && phases[t] == Made(key, stream, obj)
      modifies this
      ensures Valid() && At(View(), t) && old(trace) <= trace
      ensures forall k :: k in old(entries) ==> k in entries && entries[k] == old(entries)[k]
      ensures phases[t] == Sharing(key, stream, h) && CachedAs(View(), key, h)
      ensures Quiet(others) ==> trace == old(trace) + [Insert(t)]
      ensures Quiet(others) && key !in old(entries) ==> h == obj && entries == old(entries)[key := obj]
    {
      Interlude(t, others);
      h := OrInsert(t, key, stream, obj);
    }

    /** The lookup missed: create a handle without the lock, then `or_insert` it. `at` is the
        step at which the library is asked. */
    method CreateAndInsert(t: nat, key: nat, stream: nat, others: State -> seq<Label>, create: State -> Option<nat>)
      returns (r: Option<nat>, ghost at: nat)
      requires Valid() && At(View(), t) && phases[t] == Creating(key, stream)
      requires forall s: State :: create(s).Some? ==> create(s).value !in s.alive
      modifies this
      ensures Valid() && At(View(), t)
      ensures forall k :: k in old(entries) ==> k in entries && entries[k] == old(entries)[k]
      ensures |old(trace)| <= at && AskedAt(at, t, create) && (r.None? <==> trace[at].made.None?)
      ensures r.None? ==> phases[t] == Idle
      ensures r.Some? ==> phases[t] == Sharing(key, stream, r.value) && CachedAs(View(), key, r.value)
      ensures Quiet(others) && key !in old(entries) ==> r == create(old(View())) && MadeAlone(t, key, r)
    {
      Interlude(t, others);
      var made: Option<nat>;
      made, at := AskLibrary(t, create);
      if made.None? {
        return None, at;
      }
      ghost var asked := trace;
      var h := InsertMade(t, key, stream, made.value, others);
      assert trace[..at] == asked[..at];
      return Some(h), at;
    }

    /** Undisturbed: the library's answer, cached if it is a handle. */
    twostate predicate MadeAlone(t: nat, key: nat, new made: Option<nat>)
      reads this
    {
      && entries == (if made.Some? then old(entries)[key := made.value] else old(entries))
      && trace == old(trace) + [Create(t, made)] + if made.Some? then [Insert(t)] else []
    }

    /** An undisturbed miss: the library is asked once; its handle is cached and returned, or its
        failure is. */
    twostate predicate MissedAlone(t: nat, key: nat, stream: nat, new made: Option<nat>, bindOk: bool,
                                   new r: Result<nat, Error>)
      reads this
    {
      && trace == old(trace) + MissSteps(t, key, stream, made, bindOk)
      && entries == (if made.Some? then old(entries)[key := made.value] else old(entries))
      && r == if made.None? then Err(CreateFailed) else if bindOk then Ok(made.value) else Err(BindFailed)
    }

    /** `handle_for`. Whatever the other threads do in between, a call that succeeds returns the
        handle cached for its device, set to its stream, and no cached handle is replaced; a
        cached key costs no creation; a miss asks the library, at step `at`, and fails with
        `CreateFailed` exactly when the library does. */
    method HandleFor(t: nat, key: nat, stream: nat, others: State -> seq<Label>, create: State -> Option<nat>,
                     bindOk: bool)
      returns (r: Result<nat, Error>, ghost at: nat)
      requires Valid() && At(View(), t) && phases[t].Idle? && (rebinds || bindOk)
      requires forall s: State :: create(s).Some? ==> create(s).value !in s.alive
      modifies this
      ensures Valid() && At(View(), t) && phases[t].Idle?
      ensures forall k :: k in old(entries) ==> k in entries && entries[k] == old(entries)[k]
      ensures r.Ok? ==> bindOk && CachedAs(View(), key, r.value) && Given(key, stream, r.value)
      ensures r == Err(BindFailed) ==> !bindOk && key in entries
      ensures key in old(entries) ==> r == if bindOk then Ok(old(entries)[key]) else Err(BindFailed)
      ensures key in old(entries) ==> trace == old(trace) + [Hit(t, key, stream, bindOk)]
      ensures key !in old(entries) ==>
                |old(trace)| <= at && AskedAt(at, t, create) && (r == Err(CreateFailed) <==> trace[at].made.None?)
      ensures Quiet(others) && key !in old(entries) ==>
                var made := create(SetPhase(old(View()), t, Creating(key, stream)));
                MissedAlone(t, key, stream, made, bindOk, r)
    {
      var h := LookUp(t, key, stream, bindOk);
      at := |trace|;
      if h.Some? {
        return if bindOk then Ok(h.value) else Err(BindFailed), at;
      }
      h, at := Missed(t, key, stream, others, create, bindOk);
      StepsJoin(old(trace), t, key, stream, h, bindOk);
      r := if h.None? then Err(CreateFailed) else if bindOk then Ok(h.value) else Err(BindFailed);
    }

    /** Past the lookup: create, insert, and set the caller's stream. */
    method Missed(t: nat, key: nat, stream: nat, others: State -> seq<Label>, create: State -> Option<nat>,
                  bindOk: bool)
      returns (h: Option<nat>, ghost at: nat)
      requires Valid() && At(View(), t) && phases[t] == Creating(key, stream) && (rebinds || bindOk)
      requires forall s: State :: create(s).Some? ==> create(s).value !in s.alive
      modifies this
      ensures Valid() && At(View(), t) && phases[t].Idle?
      ensures forall k :: k in old(entries) ==> k in entries && entries[k] == old(entries)[k]
      ensures h.Some? ==> CachedAs(View(), key, h.value) && (bindOk ==> Given(key, stream, h.value))
      ensures |old(trace)| <= at && AskedAt(at, t, create) && (h.None? <==> trace[at].made.None?)
      ensures Quiet(others) && key !in old(entries) ==>
                && h == create(old(View()))
                && entries == (if h.Some? then old(entries)[key := h.value] else old(entries))
                && trace == old(trace) + [Create(t, h)] + if h.Some? then [Insert(t)] + [Finish(t, bindOk)] else []
    {
      h, at := CreateAndInsert(t, key, stream, others, create);
      if h.Some? {
        ghost var asked := trace;
        Interlude(t, others);
        Reached();
        BindAndReturn(t, key, stream, h.value, bindOk);
        assert trace[..at] == asked[..at];
      }
    }
  }
}
