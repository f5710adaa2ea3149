/** One call of `get_or_compile` among all the others: what its own steps say of it. */
module KernelCalls {
  import opened Wrappers
  import opened KernelModel

  datatype Error = CompileError | LoadError | NameError | NoFunction

  /** How the calls outside the cache turn out: reading the file, compiling, writing (the file
      grows in pieces that end at these lengths, then success or not), renaming, loading, the
      lookup of the function. */
  datatype Luck = Luck(readable: bool, compiles: bool, storeOn: bool, pieces: seq<nat>, written: bool, renamed: bool,
                       loads: bool, found: bool)

  predicate ByThread(l: Label, t: nat) { !l.Spawn? && !l.Crash? && l.t == t }

  predicate Foreign(l: Label, t: nat) { !l.Crash? && !ByThread(l, t) }

  /** Nobody else is running. */
  ghost predicate Quiet(others: State -> seq<Label>) { forall s: State :: others(s) == [] }

  /** A call finds itself where it was, and no cached module has been replaced. */
  predicate Undisturbed(s: State, u: State, t: nat)
    requires At(s, t)
  {
    At(u, t) && u.phases[t] == s.phases[t] && forall k :: k in s.memory ==> k in u.memory && u.memory[k] == s.memory[k]
  }

  lemma {:induction false} InsertKeeps(w: World, s: State, l: Label, t: nat)
    requires At(s, t) && Enabled(w, s, l) && Foreign(l, t) && (l.Insert? || l.Finish? || l.ReadHit? || l.Spawn?)
    ensures Undisturbed(s, Apply(w, s, l), t)
  {
  }

  lemma {:induction false} StepKeeps(w: World, s: State, l: Label, t: nat)
    requires At(s, t) && Enabled(w, s, l) && Foreign(l, t)
    ensures Undisturbed(s, Apply(w, s, l), t)
  {
    if l.Insert? || l.Finish? || l.ReadHit? || l.Spawn? {
      InsertKeeps(w, s, l, t);
    } else {
      assert Apply(w, s, l).memory == s.memory;
    }
  }

  lemma {:induction false} OthersKeep(w: World, s: State, ls: seq<Label>, t: nat)
    requires At(s, t) && Run(w, s, ls).Some? && forall l :: l in ls ==> Foreign(l, t)
    ensures Undisturbed(s, Run(w, s, ls).value, t)
    decreases |ls|
  {
    if ls != [] {
      assert ls[|ls| - 1] in ls;
      OthersKeep(w, s, ls[..|ls| - 1], t);
      StepKeeps(w, Run(w, s, ls[..|ls| - 1]).value, ls[|ls| - 1], t);
    }
  }

  /** What the other calls do in state `s`: nothing unless the plan is a run of theirs. */
  function Legal(w: World, s: State, ls: seq<Label>, t: nat): (r: seq<Label>)
    ensures Run(w, s, r).Some? && forall l :: l in r ==> Foreign(l, t)
  {
    if Run(w, s, ls).Some? && (forall l :: l in ls ==> Foreign(l, t)) then ls else []
  }

  // ---- a call's own steps ----

  /** The step goes the way that the outside world goes for a call for `req`. */
  predicate Obeys(l: Label, req: Request, luck: Luck) {
    match l
    case ReadHit(_, asked, ok) => asked == req && ok == luck.found
    case ReadMiss(_, asked) => asked == req
    case DiskHit(_) => luck.readable
    case DiskMiss(_, readable) => readable == luck.readable
    case CompileOk(_) => luck.compiles
    case CompileFails(_, works) => works == luck.compiles
    case SkipStore(_) => !luck.storeOn
    case Open(_) => luck.storeOn
    case WriteFails(_) => !luck.written
    case Close(_) => luck.written
    case Rename(_) => luck.renamed
    case RenameFails(_, works) => works == luck.renamed
    case Load(_) => luck.loads
    case LoadFails(_) => !luck.loads
    case Finish(_, ok) => ok == luck.found
    case _ => true
  }

  /** A step that begins a call. */
  predicate Begins(l: Label) { l.ReadHit? || l.ReadMiss? }

  /** From step `n` on, thread `t` only goes on with a call for `req`, and with this luck; the
      process does not die. */
  predicate ObeyedFrom(ls: seq<Label>, n: nat, t: nat, req: Request, luck: Luck) {
    forall k {:trigger Fits(ls[k], t, req, luck)} :: n <= k < |ls| ==> Fits(ls[k], t, req, luck)
  }

  /** The step may come after a call has begun. */
  predicate Fits(l: Label, t: nat, req: Request, luck: Luck) {
    !l.Crash? && (ByThread(l, t) ==> Obeys(l, req, luck) && !Begins(l))
  }

  predicate ObeyedIn(a: seq<Label>, b: seq<Label>, t: nat, req: Request, luck: Luck) {
    a <= b && ObeyedFrom(b, |a|, t, req, luck)
  }

  lemma {:induction false} ObeyedOne(a: seq<Label>, l: Label, t: nat, req: Request, luck: Luck)
    requires Fits(l, t, req, luck)
    ensures ObeyedIn(a, a + [l], t, req, luck)
  {
  }

  lemma {:induction false} ObeyedForeign(a: seq<Label>, ls: seq<Label>, t: nat, req: Request, luck: Luck)
    requires forall l :: l in ls ==> Foreign(l, t)
    ensures ObeyedIn(a, a + ls, t, req, luck)
  {
    forall k | |a| <= k < |a + ls| ensures Fits((a + ls)[k], t, req, luck) {
      assert (a + ls)[k] in ls;
    }
  }

  lemma {:induction false} ObeyedJoin(a: seq<Label>, b: seq<Label>, c: seq<Label>, t: nat, req: Request, luck: Luck)
    requires ObeyedIn(a, b, t, req, luck) && ObeyedIn(b, c, t, req, luck)
    ensures ObeyedIn(a, c, t, req, luck)
  {
    forall k | |a| <= k < |c| ensures Fits(c[k], t, req, luck) {
      if k < |b| { assert Fits(b[k], t, req, luck) && c[k] == b[k]; }
    }
  }

  /** Steps of a call that has its image: neither the compiler nor the disk is used any more. */
  predicate PastImage(l: Label) { l.Load? || l.LoadFails? || l.BadName? || l.Insert? || l.Finish? }

  /** After step `at` thread `t` uses neither the compiler nor the disk. */
  predicate NoMaking(ls: seq<Label>, at: nat, t: nat) {
    forall k {:trigger PastImage(ls[k])} :: at < k < |ls| && ByThread(ls[k], t) ==> PastImage(ls[k])
  }

  /** What the disk has for a request. */
  function FileOf(w: World, s: State, req: Request): Option<Image> {
    var path := PathOf(KeyOf(w, req));
    if path in s.disk then Some(Bytes(s.files, s.disk[path])) else None
  }

  /** What the disk had for it at that point of a run. */
  function FileAt(w: World, ls: seq<Label>, k: nat, req: Request): Option<Image>
    requires k <= |ls|
  {
    match Run(w, Origin(), ls[..k])
    case Some(s) => FileOf(w, s, req)
    case None => None
  }

  /** Step `k` is a call's look at the disk: a hit exactly when the file is there at that moment
      and can be read. */
  predicate LooksAtDisk(w: World, ls: seq<Label>, k: nat, t: nat, req: Request, luck: Luck) {
    && k < |ls| && Run(w, Origin(), ls[..k]).Some?
    && ls[k] == if luck.readable && FileAt(w, ls, k, req).Some? then DiskHit(t) else DiskMiss(t, luck.readable)
  }

  /** The image in a call's hands is this one. */
  predicate ImageIs(p: Phase, image: Image) {
    match p
    case Storing(_, i) => i == image
    case Writing(_, i, _, _) => i == image
    case Written(_, i) => i == image
    case Loading(_, i) => i == image
    case Loaded(_, m) => m.image == image
    case _ => true
  }

  /** What a call that missed in memory, and is now at `p`, has done: it looked at the disk in
      step `at`, and it has the file's image and has used neither the compiler nor the disk
      since, or it has the compiler's. */
  predicate Tells(w: World, ls: seq<Label>, at: nat, t: nat, req: Request, luck: Luck, p: Phase) {
    && LooksAtDisk(w, ls, at, t, req, luck)
    && (!p.Idle? ==> p.req == req)
    && if ls[at].DiskHit? then
         && NoMaking(ls, at, t) && (p.Idle? || p.Loading? || p.Loaded? || p.Published?)
         && ImageIs(p, FileAt(w, ls, at, req).value)
       else
         && !p.Missed?
         && (p.Idle? || p.Compiling? || (luck.compiles && Compiled(w, req).Some? && ImageIs(p, Compiled(w, req).value)))
  }

  lemma {:induction false} LooksLonger(w: World, a: seq<Label>, l: Label, at: nat, t: nat, req: Request, luck: Luck)
    requires LooksAtDisk(w, a, at, t, req, luck)
    ensures LooksAtDisk(w, a + [l], at, t, req, luck) && (a + [l])[at] == a[at]
    ensures FileAt(w, a + [l], at, req) == FileAt(w, a, at, req)
    ensures NoMaking(a, at, t) && (ByThread(l, t) ==> PastImage(l)) ==> NoMaking(a + [l], at, t)
  {
    var b := a + [l];
    assert b[..at] == a[..at];
    if NoMaking(a, at, t) && (ByThread(l, t) ==> PastImage(l)) {
      forall k | at < k < |b| && ByThread(b[k], t) ensures PastImage(b[k]) {
        if k < |a| {
          assert b[k] == a[k];
          var before := PastImage(a[k]);
        }
      }
    }
  }

  /** The look itself. */
  lemma {:induction false} TellsLook(w: World, a: seq<Label>, l: Label, t: nat, req: Request, luck: Luck)
    requires Run(w, Origin(), a).Some? && At(Run(w, Origin(), a).value, t)
    requires Run(w, Origin(), a).value.phases[t] == Missed(req)
    requires Enabled(w, Run(w, Origin(), a).value, l) && ByThread(l, t) && Obeys(l, req, luck) && !Begins(l)
    ensures Tells(w, a + [l], |a|, t, req, luck, Apply(w, Run(w, Origin(), a).value, l).phases[t])
  {
    assert (a + [l])[..|a|] == a;
  }

  /** Any later step of the call. */
  lemma {:induction false} TellsStep(w: World, a: seq<Label>, l: Label, at: nat, t: nat, req: Request, luck: Luck)
    requires Run(w, Origin(), a).Some? && At(Run(w, Origin(), a).value, t)
    requires Tells(w, a, at, t, req, luck, Run(w, Origin(), a).value.phases[t])
    requires Enabled(w, Run(w, Origin(), a).value, l) && ByThread(l, t) && Obeys(l, req, luck) && !Begins(l)
    ensures Tells(w, a + [l], at, t, req, luck, Apply(w, Run(w, Origin(), a).value, l).phases[t])
  {
    LooksLonger(w, a, l, at, t, req, luck);
  }

  /** One more step, of this call or another. */
  lemma {:induction false} TellsNext(w: World, a: seq<Label>, l: Label, at: nat, t: nat, req: Request, luck: Luck)
    returns (next: nat)
    requires Run(w, Origin(), a).Some? && At(Run(w, Origin(), a).value, t)
    requires Enabled(w, Run(w, Origin(), a).value, l) && !l.Crash?
    requires ByThread(l, t) ==> Obeys(l, req, luck) && !Begins(l)
    requires var p := Run(w, Origin(), a).value.phases[t]; p == Missed(req) || Tells(w, a, at, t, req, luck, p)
    ensures var u := Apply(w, Run(w, Origin(), a).value, l);
            At(u, t) && (u.phases[t] == Missed(req) || Tells(w, a + [l], next, t, req, luck, u.phases[t]))
    ensures next == at || next == |a|
  {
    var s := Run(w, Origin(), a).value;
    next := at;
    if !ByThread(l, t) {
      StepKeeps(w, s, l, t);
      if s.phases[t] != Missed(req) { LooksLonger(w, a, l, at, t, req, luck); }
    } else if s.phases[t] == Missed(req) {
      TellsLook(w, a, l, t, req, luck);
      next := |a|;
    } else {
      TellsStep(w, a, l, at, t, req, luck);
    }
  }

  /** At the end of this run thread `t` has just missed in memory. */
  ghost predicate MissedAfter(w: World, ls: seq<Label>, t: nat, req: Request) {
    && Run(w, Origin(), ls).Some? && At(Run(w, Origin(), ls).value, t)
    && Run(w, Origin(), ls).value.phases[t] == Missed(req)
  }

  /** Thread `t` has missed in memory; what has its call done by the end of the run? */
  lemma {:induction false} Tell(w: World, pre: seq<Label>, ls: seq<Label>, t: nat, req: Request, luck: Luck)
    returns (at: nat)
    requires MissedAfter(w, pre, t, req) && Run(w, Origin(), ls).Some? && ObeyedIn(pre, ls, t, req, luck)
    ensures At(Run(w, Origin(), ls).value, t) && at >= |pre|
    ensures var p := Run(w, Origin(), ls).value.phases[t]; p == Missed(req) || Tells(w, ls, at, t, req, luck, p)
    decreases |ls|
  {
    if ls == pre {
      at := |pre|;
    } else {
      var init, l := ls[..|ls| - 1], ls[|ls| - 1];
      assert ls == init + [l];
      Shorter(pre, init, l, t, req, luck);
      at := Tell(w, pre, init, t, req, luck);
      at := TellsNext(w, init, l, at, t, req, luck);
    }
  }

  lemma {:induction false} Shorter(pre: seq<Label>, init: seq<Label>, l: Label, t: nat, req: Request, luck: Luck)
    requires |pre| <= |init| && ObeyedIn(pre, init + [l], t, req, luck)
    ensures ObeyedIn(pre, init, t, req, luck) && Fits(l, t, req, luck)
  {
    var ls := init + [l];
    assert pre == ls[..|pre|] == init[..|pre|];
    assert ls[|init|] == l && Fits(ls[|init|], t, req, luck);
    forall k | |pre| <= k < |init| ensures Fits(init[k], t, req, luck) {
      assert ls[k] == init[k] && Fits(ls[k], t, req, luck);
    }
  }

  // ---- how a call ends ----

  /** The step that ends a call with this result. */
  function LastStep(t: nat, req: Request, luck: Luck, hit: bool, r: Result<Module, Error>): Label {
    match r
    case Ok(_) => if hit then ReadHit(t, req, true) else Finish(t, true)
    case Err(NoFunction) => if hit then ReadHit(t, req, false) else Finish(t, false)
    case Err(CompileError) => CompileFails(t, luck.compiles)
    case Err(LoadError) => LoadFails(t)
    case Err(NameError) => BadName(t)
  }

  predicate EndsWith(ls: seq<Label>, l: Label) { ls != [] && ls[|ls| - 1] == l }

  /** Each error has its cause. */
  predicate Caused(w: World, req: Request, luck: Luck, r: Result<Module, Error>) {
    match r
    case Ok(_) => luck.found
    case Err(CompileError) => !luck.compiles || Compiled(w, req).None?
    case Err(LoadError) => !luck.loads
    case Err(NameError) => NUL in req.fnName
    case Err(NoFunction) => !luck.found
  }

  /** A call that missed in memory and has just ended with `r`: it looked at the disk in step
      `at`; if the file was there and readable, it has used neither the compiler nor the disk
      since, and has not failed for want of a compiler; its error has its cause. */
  lemma {:induction false} HowItEnded(w: World, pre: seq<Label>, ls: seq<Label>, t: nat, req: Request, luck: Luck,
                                      r: Result<Module, Error>) returns (at: nat)
    requires MissedAfter(w, pre, t, req) && Run(w, Origin(), ls).Some? && ObeyedIn(pre, ls, t, req, luck) && pre != ls
    requires EndsWith(ls, LastStep(t, req, luck, false, r))
    ensures at >= |pre| && LooksAtDisk(w, ls, at, t, req, luck)
    ensures ls[at].DiskHit? ==> r != Err(CompileError) && NoMaking(ls, at, t)
    ensures Caused(w, req, luck, r)
  {
    var init, l := ls[..|ls| - 1], ls[|ls| - 1];
    assert ls == init + [l];
    Shorter(pre, init, l, t, req, luck);
    at := Tell(w, pre, init, t, req, luck);
    if Run(w, Origin(), init).value.phases[t] != Missed(req) {
      LooksLonger(w, init, l, at, t, req, luck);
      TellsStep(w, init, l, at, t, req, luck);
    }
  }

  // ---- an undisturbed call ----

  /** The image that an undisturbed call obtains: the file's if there is one, the compiler's
      otherwise. */
  function ImageFor(w: World, req: Request, luck: Luck, onDisk: Option<Image>): Option<Image> {
    if luck.readable && onDisk.Some? then onDisk else if luck.compiles then Compiled(w, req) else None
  }

  /** What it makes of its image; `id` is the next module's number. */
  function Verdict(image: Option<Image>, req: Request, luck: Luck, id: nat): Result<Module, Error> {
    if image.None? then Err(CompileError)
    else if !luck.loads then Err(LoadError)
    else if NUL in req.fnName then Err(NameError)
    else if !luck.found then Err(NoFunction)
    else Ok(Module(id, image.value))
  }

  /** From `s` to `u` the image has gone to disk, and no other name there has changed; or none
      has. */
  predicate StoresOnly(w: World, s: State, u: State, req: Request, image: Image, all: bool) {
    var path := PathOf(KeyOf(w, req));
    if all then FileOf(w, u, req) == Some(image) && u.disk == s.disk[path := u.disk[path]] else u.disk == s.disk
  }

  /** What an undisturbed call makes of a miss in memory, from the outside world's answers and
      the disk as it was: its result, the cache and the disk. */
  predicate MissAlone(w: World, s: State, u: State, req: Request, luck: Luck, r: Result<Module, Error>) {
    var onDisk := FileOf(w, s, req);
    var image := ImageFor(w, req, luck, onDisk);
    match image
    case None => r == Err(CompileError) && u.memory == s.memory && u.disk == s.disk
    case Some(bytes) =>
      var m, hit := Module(s.loads, bytes), luck.readable && onDisk.Some?;
      && r == Verdict(image, req, luck, s.loads)
      && u.memory == (if luck.loads && NUL !in req.fnName then s.memory[KeyOf(w, req) := m] else s.memory)
      && StoresOnly(w, s, u, req, bytes, !hit && luck.storeOn && luck.written && luck.renamed)
  }

  /** Having obtained the image in `v`, the call loads and inserts it. */
  lemma {:induction false} AloneProduced(w: World, s: State, v: State, u: State, req: Request, luck: Luck, image: Image,
                                         r: Result<Module, Error>)
    requires ImageFor(w, req, luck, FileOf(w, s, req)) == Some(image) && luck.found
    requires v.memory == s.memory && v.loads == s.loads && u.disk == v.disk && u.files == v.files
    requires var hit := luck.readable && FileOf(w, s, req).Some?;
             StoresOnly(w, s, v, req, image, !hit && luck.storeOn && luck.written && luck.renamed)
    requires r == Err(LoadError) <==> !luck.loads
    requires r == Err(NameError) <==> luck.loads && NUL in req.fnName
    requires r.Err? ==> r.error.LoadError? || r.error.NameError?
    requires r.Ok? ==> r.value == Module(s.loads, image)
    requires u.memory == if r.Ok? then s.memory[KeyOf(w, req) := r.value] else s.memory
    ensures MissAlone(w, s, u, req, luck, r)
  {
  }

  /** The lookup of the function changes none of it. */
  lemma {:induction false} AloneHanded(w: World, s: State, v: State, u: State, req: Request, luck: Luck, m: Module)
    requires MissAlone(w, s, v, req, luck.(found := true), Ok(m))
    requires u.memory == v.memory && u.disk == v.disk && u.files == v.files
    ensures MissAlone(w, s, u, req, luck, if luck.found then Ok(m) else Err(NoFunction))
  {
  }

  /** Nor does the miss in memory itself. */
  lemma {:induction false} AloneMissed(w: World, s: State, v: State, u: State, req: Request, luck: Luck,
                                       r: Result<Module, Error>)
    requires MissAlone(w, v, u, req, luck, r)
    requires v.memory == s.memory && v.disk == s.disk && v.files == s.files && v.loads == s.loads
    ensures MissAlone(w, s, u, req, luck, r)
  {
  }
}
