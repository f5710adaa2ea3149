/** The two cache levels against the uncached compiler. */
module KernelTheorems {
  import opened Wrappers
  import opened KernelModel
  import opened KernelProofs

  /** A run from the origin in which each file has one writer at a time. */
  ghost predicate Single(w: World, ls: seq<Label>) {
    Run(w, Origin(), ls).Some? && OneAtATime(w, Origin(), ls)
  }

  /** One more step. */
  lemma {:induction false} Extend(w: World, ls: seq<Label>, l: Label) returns (more: seq<Label>)
    requires Run(w, Origin(), ls).Some? && Enabled(w, Run(w, Origin(), ls).value, l)
    ensures Run(w, Origin(), more) == Some(Apply(w, Run(w, Origin(), ls).value, l))
    ensures Single(w, ls) && OpensAlone(w, Run(w, Origin(), ls).value, l) ==> Single(w, more)
  {
    more := ls + [l];
    RunOne(w, Origin(), ls, l);
    assert more[..|more| - 1] == ls;
  }

  /** Every module handed out was loaded from what the compiler makes of the request. */
  ghost predicate Correct(w: World, s: State) {
    forall i :: 0 <= i < |s.returned| ==> Compiled(w, s.returned[i].req) == Some(s.returned[i].module_.image)
  }

  /** In all runs, or in those with one writer per file. */
  ghost predicate AlwaysCorrect(w: World, single: bool) {
    forall ls :: Run(w, Origin(), ls).Some? && (single ==> Single(w, ls)) ==> Correct(w, Run(w, Origin(), ls).value)
  }

  lemma {:induction false} OriginInv(w: World)
    ensures Inv(w, Origin())
  {
  }

  lemma {:induction false} CorrectWhenDetermined(w: World, ls: seq<Label>)
    requires Determined(w) && Single(w, ls)
    ensures Correct(w, Run(w, Origin(), ls).value)
  {
    OriginInv(w);
    RunInv(w, Origin(), ls);
    var s := Run(w, Origin(), ls).value;
    forall i | 0 <= i < |s.returned| ensures Compiled(w, s.returned[i].req) == Some(s.returned[i].module_.image) {
      assert Genuine(w, PathOf(KeyOf(w, s.returned[i].req)), s.returned[i].module_.image);
    }
  }

  lemma {:induction false} TwoThreads(w: World, a: Request) returns (ls: seq<Label>)
    ensures Single(w, ls) && Run(w, Origin(), ls).value == Origin().(phases := [Compiling(a), Idle])
  {
    ls := Extend(w, [], Spawn);
    ls := Extend(w, ls, Spawn);
    ls := Extend(w, ls, ReadMiss(0, a));
    ls := Extend(w, ls, DiskMiss(0, true));
  }

  /** The image of a request is in a file that is closed and not yet renamed. */
  function Pending(w: World, a: Request, image: Image, other: Phase): State {
    Origin().(files := [image], tmp := map[PathOf(KeyOf(w, a)) := 0], phases := [Written(a, image), other])
  }

  lemma {:induction false} OfTwo(p: Phase, q: Phase, r: Phase)
    ensures [p, q][0 := r] == [r, q] && [p, q][1 := r] == [p, r]
  {
  }

  lemma {:induction false} WriteFile(w: World, a: Request, image: Image, other: Phase, before: seq<Label>)
    returns (ls: seq<Label>)
    requires Run(w, Origin(), before) == Some(Origin().(phases := [Storing(a, image), other])) && !Writer(other)
    ensures Run(w, Origin(), ls) == Some(Pending(w, a, image, other)) && (Single(w, before) ==> Single(w, ls))
  {
    ls := OpenFile(w, a, image, other, before);
    var empty := Run(w, Origin(), ls).value;
    ls := Extend(w, ls, Write(0, |image|));
    assert WriteAt([], 0, image) == image;
    OfTwo(Writing(a, image, 0, 0), other, Writing(a, image, 0, |image|));
    assert Wrote(empty, 0, |image|) == empty.(files := [image], phases := [Writing(a, image, 0, |image|), other]);
    ls := Extend(w, ls, Close(0));
    OfTwo(Writing(a, image, 0, |image|), other, Written(a, image));
  }

  lemma {:induction false} OpenFile(w: World, a: Request, image: Image, other: Phase, before: seq<Label>)
    returns (ls: seq<Label>)
    requires Run(w, Origin(), before) == Some(Origin().(phases := [Storing(a, image), other])) && !Writer(other)
    ensures Run(w, Origin(), ls) == Some(Pending(w, a, [], other).(phases := [Writing(a, image, 0, 0), other]))
    ensures Single(w, before) ==> Single(w, ls)
  {
    FirstOpen(w, a, image, other);
    ls := Extend(w, before, Open(0));
  }

  lemma {:induction false} FirstOpen(w: World, a: Request, image: Image, other: Phase)
    requires !Writer(other)
    ensures var s := Origin().(phases := [Storing(a, image), other]);
            && OpensAlone(w, s, Open(0))
            && Apply(w, s, Open(0)) == Pending(w, a, [], other).(phases := [Writing(a, image, 0, 0), other])
  {
    var s := Origin().(phases := [Storing(a, image), other]);
    OfTwo(Storing(a, image), other, Writing(a, image, 0, 0));
    var none: seq<Image> := [];
    assert none + [[]] == [[]];
    assert Opened(w, s, 0).phases == [Writing(a, image, 0, 0), other];
  }

  /** One request's image is stored where the other request looks. */
  lemma {:induction false} StoreFirst(w: World, a: Request) returns (ls: seq<Label>)
    requires Compiled(w, a).Some?
    ensures Single(w, ls) && Ready(w, Run(w, Origin(), ls).value, 1, PathOf(KeyOf(w, a)), Compiled(w, a).value)
  {
    ls := TwoThreads(w, a);
    ls := Extend(w, ls, CompileOk(0));
    OfTwo(Compiling(a), Idle, Storing(a, Compiled(w, a).value));
    ls := WriteFile(w, a, Compiled(w, a).value, Idle, ls);
    ls := Extend(w, ls, Rename(0));
  }

  /** Nothing is in memory, and thread `t`'s next call will find `image` on disk. */
  ghost predicate Ready(w: World, s: State, t: nat, path: Path, image: Image) {
    At(s, t) && s.phases[t].Idle? && s.memory == map[] && s.returned == [] && path in s.disk
      && Bytes(s.files, s.disk[path]) == image
  }

  /** It loads what is there. */
  lemma {:induction false} LoadFromDisk(w: World, before: seq<Label>, t: nat, b: Request, image: Image)
    returns (ls: seq<Label>)
    requires Run(w, Origin(), before).Some? && Ready(w, Run(w, Origin(), before).value, t, PathOf(KeyOf(w, b)), image)
    ensures Run(w, Origin(), ls).Some? && (Single(w, before) ==> Single(w, ls))
    ensures var s := Run(w, Origin(), ls).value;
            && At(s, t) && s.phases[t].Loaded? && s.phases[t].req == b && s.phases[t].module_.image == image
            && s.memory == map[] && s.returned == []
  {
    ls := Extend(w, before, ReadMiss(t, b));
    ls := Extend(w, ls, DiskHit(t));
    ls := Extend(w, ls, Load(t));
  }

  /** A call that finds its path on disk returns what is there. */
  lemma {:induction false} ServeFromDisk(w: World, before: seq<Label>, t: nat, b: Request, image: Image)
    returns (ls: seq<Label>)
    requires Run(w, Origin(), before).Some? && NUL !in b.fnName
    requires Ready(w, Run(w, Origin(), before).value, t, PathOf(KeyOf(w, b)), image)
    ensures Run(w, Origin(), ls).Some? && (Single(w, before) ==> Single(w, ls))
    ensures var r := Run(w, Origin(), ls).value.returned;
            |r| == 1 && r[0].req == b && r[0].module_.image == image
  {
    ls := LoadFromDisk(w, before, t, b, image);
    ls := Extend(w, ls, Insert(t));
    ls := Extend(w, ls, Finish(t, true));
  }

  /** A request that is stored under the same name, and whose function's name is a C string. */
  function Plain(b: Request): Request { b.(fnName := "f") }

  /** Two requests the hashes confuse: the second gets the first one's image. */
  lemma {:induction false} ConfusedKeys(w: World, a: Request, b: Request) returns (ls: seq<Label>)
    requires PathOf(KeyOf(w, a)) == PathOf(KeyOf(w, b)) && Compiled(w, a).Some? && Compiled(w, a) != Compiled(w, b)
    ensures Single(w, ls) && !Correct(w, Run(w, Origin(), ls).value)
  {
    var before := StoreFirst(w, a);
    assert PathOf(KeyOf(w, Plain(b))) == PathOf(KeyOf(w, b));
    ls := ServeFromDisk(w, before, 1, Plain(b), Compiled(w, a).value);
    var s := Run(w, Origin(), ls).value;
    assert Compiled(w, s.returned[0].req) != Some(s.returned[0].module_.image);
  }

  /** Over all runs with restarts and crashes at any point, one writer per file, the two cache
      levels refine the compiler, if and only if the hashes decide what is compiled. */
  lemma {:induction false} CacheRefinesCompiler(w: World)
    ensures AlwaysCorrect(w, true) <==> Determined(w)
  {
    if Determined(w) {
      forall ls | Single(w, ls) ensures Correct(w, Run(w, Origin(), ls).value) {
        CorrectWhenDetermined(w, ls);
      }
    } else {
      var a: Request, b: Request :| PathOf(KeyOf(w, a)) == PathOf(KeyOf(w, b)) && Compiled(w, a) != Compiled(w, b);
      if Compiled(w, a).Some? {
        var ls := ConfusedKeys(w, a, b);
      } else {
        var ls := ConfusedKeys(w, b, a);
      }
    }
  }

  /** Wherever the process died, a file on disk is whole and is what the compiler makes of
      every request that looks there. */
  lemma {:induction false} DiskIsWhole(w: World, ls: seq<Label>, req: Request)
    requires Determined(w) && Single(w, ls)
    requires PathOf(KeyOf(w, req)) in Run(w, Origin(), ls).value.disk
    ensures var s := Run(w, Origin(), ls).value;
            Compiled(w, req) == Some(Bytes(s.files, s.disk[PathOf(KeyOf(w, req))]))
  {
    OriginInv(w);
    RunInv(w, Origin(), ls);
    var s := Run(w, Origin(), ls).value;
    assert Genuine(w, PathOf(KeyOf(w, req)), Bytes(s.files, s.disk[PathOf(KeyOf(w, req))]));
  }

  /** Two kernels of one source share their image, on disk and in memory. */
  lemma {:induction false} KernelsShareImage(w: World, ls: seq<Label>, a: Request, b: Request)
    requires Determined(w) && Single(w, ls) && a.(fnName := b.fnName) == b
    requires var s := Run(w, Origin(), ls).value; KeyOf(w, a) in s.memory && KeyOf(w, b) in s.memory
    ensures var s := Run(w, Origin(), ls).value;
            && s.memory[KeyOf(w, a)].image == s.memory[KeyOf(w, b)].image
            && (PathOf(KeyOf(w, a)) in s.disk ==>
                  Bytes(s.files, s.disk[PathOf(KeyOf(w, a))]) == s.memory[KeyOf(w, b)].image)
  {
    OriginInv(w);
    RunInv(w, Origin(), ls);
    var s := Run(w, Origin(), ls).value;
    assert Genuine(w, PathOf(KeyOf(w, a)), s.memory[KeyOf(w, a)].image);
    assert Genuine(w, PathOf(KeyOf(w, b)), s.memory[KeyOf(w, b)].image);
  }

  // ---- two writers ----

  lemma {:induction false} BothCompiling(w: World, req: Request) returns (ls: seq<Label>)
    ensures Run(w, Origin(), ls) == Some(Origin().(phases := [Compiling(req), Compiling(req)]))
  {
    ls := TwoThreads(w, req);
    ls := Extend(w, ls, ReadMiss(1, req));
    OfTwo(Compiling(req), Idle, Missed(req));
    ls := Extend(w, ls, DiskMiss(1, true));
    OfTwo(Compiling(req), Missed(req), Compiling(req));
  }

  lemma {:induction false} BothStoring(w: World, req: Request, image: Image) returns (ls: seq<Label>)
    requires Compiled(w, req) == Some(image)
    ensures Run(w, Origin(), ls) == Some(Origin().(phases := [Storing(req, image), Storing(req, image)]))
  {
    ls := BothCompiling(w, req);
    ls := Extend(w, ls, CompileOk(0));
    OfTwo(Compiling(req), Compiling(req), Storing(req, image));
    ls := Extend(w, ls, CompileOk(1));
    OfTwo(Storing(req, image), Compiling(req), Storing(req, image));
  }

  /** Two calls that write the same temporary file: one truncates it just before the other
      renames it, the process dies, and the next one loads the stump. */
  lemma {:induction false} TwoWritersTruncate(w: World, req: Request) returns (ls: seq<Label>)
    requires Compiled(w, req).Some? && Compiled(w, req).value != []
    ensures Run(w, Origin(), ls).Some? && !Correct(w, Run(w, Origin(), ls).value)
  {
    var image := Compiled(w, req).value;
    ls := BothStoring(w, req, image);
    ls := WriteFile(w, req, image, Storing(req, image), ls);
    ls := Extend(w, ls, Open(1));
    ls := Extend(w, ls, Rename(0));
    ls := Extend(w, ls, Crash);
    ls := Extend(w, ls, Spawn);
    ls := ServeFromDisk(w, ls, 0, Plain(req), []);
    var s := Run(w, Origin(), ls).value;
    assert Compiled(w, s.returned[0].req) != Some(s.returned[0].module_.image);
  }

  /** With hashes that decide the image, the promise needs the single writer: for any compiler
      that makes anything at all, it holds if and only if files are written one at a time. */
  lemma {:induction false} OneWriterNeeded(w: World, req: Request, single: bool)
    requires Determined(w) && Compiled(w, req).Some? && Compiled(w, req).value != []
    ensures AlwaysCorrect(w, single) <==> single
  {
    if single {
      CacheRefinesCompiler(w);
    } else {
      var ls := TwoWritersTruncate(w, req);
    }
  }

  // ---- identity ----

  /** Two calls of one process asked for the same key. */
  ghost predicate SameKey(w: World, a: Return, b: Return) {
    a.epoch == b.epoch && KeyOf(w, a.req) == KeyOf(w, b.req)
  }

  /** Every call of the running process that shares or got a module has the cached one, and
      calls of one process that asked for the same key got the same module. */
  ghost predicate Agreed(w: World, s: State) {
    && (forall t :: At(s, t) && s.phases[t].Published? ==>
                      var k := KeyOf(w, s.phases[t].req); k in s.memory && s.memory[k] == s.phases[t].module_)
    && (forall i :: 0 <= i < |s.returned| && s.returned[i].epoch == s.epoch ==>
                      var k := KeyOf(w, s.returned[i].req); k in s.memory && s.memory[k] == s.returned[i].module_)
    && (forall i :: 0 <= i < |s.returned| ==> s.returned[i].epoch <= s.epoch)
    && (forall i, j :: 0 <= i < |s.returned| && 0 <= j < |s.returned| && SameKey(w, s.returned[i], s.returned[j]) ==>
                         s.returned[i].module_ == s.returned[j].module_)
  }

  lemma {:induction false} AgreeGive(w: World, s: State, req: Request, m: Module)
    requires Agreed(w, s) && KeyOf(w, req) in s.memory && s.memory[KeyOf(w, req)] == m
    ensures Agreed(w, Give(s, req, m))
  {
  }

  lemma {:induction false} AgreeSetPhase(w: World, s: State, t: nat, p: Phase)
    requires Agreed(w, s) && At(s, t)
    requires p.Published? ==> KeyOf(w, p.req) in s.memory && s.memory[KeyOf(w, p.req)] == p.module_
    ensures Agreed(w, SetPhase(s, t, p))
  {
  }

  lemma {:induction false} AgreeSame(w: World, s: State, u: State)
    requires Agreed(w, s) && u.phases == s.phases && u.memory == s.memory && u.returned == s.returned
             && u.epoch == s.epoch
    ensures Agreed(w, u)
  {
  }

  lemma {:induction false} AgreeInsert(w: World, s: State, t: nat)
    requires Agreed(w, s) && Enabled(w, s, Insert(t))
    ensures Agreed(w, Apply(w, s, Insert(t)))
  {
    var p := s.phases[t];
    var k := KeyOf(w, p.req);
    if k in s.memory {
      AgreeSetPhase(w, s, t, Published(p.req, s.memory[k]));
    } else {
      var r := s.(memory := s.memory[k := p.module_]);
      assert Agreed(w, r);
      AgreeSetPhase(w, r, t, Published(p.req, p.module_));
    }
  }

  lemma {:induction false} AgreeFiles(w: World, s: State, l: Label)
    requires Agreed(w, s) && Enabled(w, s, l) && (l.Open? || l.Write? || l.Rename? || l.Load? || l.BadName?)
    ensures Agreed(w, Apply(w, s, l))
  {
    var u := Apply(w, s, l);
    AgreeSetPhase(w, s, l.t, u.phases[l.t]);
    AgreeSame(w, SetPhase(s, l.t, u.phases[l.t]), u);
  }

  lemma {:induction false} AgreeStep(w: World, s: State, l: Label)
    requires Agreed(w, s) && Enabled(w, s, l)
    ensures Agreed(w, Apply(w, s, l))
  {
    if l.Insert? {
      AgreeInsert(w, s, l.t);
    } else if l.Open? || l.Write? || l.Rename? || l.Load? || l.BadName? {
      AgreeFiles(w, s, l);
    } else if l.ReadHit? {
      if l.ok { AgreeGive(w, s, l.req, s.memory[KeyOf(w, l.req)]); }
    } else if l.Finish? {
      AgreeSetPhase(w, s, l.t, Idle);
      if l.ok { AgreeGive(w, SetPhase(s, l.t, Idle), s.phases[l.t].req, s.phases[l.t].module_); }
    } else if l.Crash? || l.Spawn? {
    } else {
      AgreeSetPhase(w, s, l.t, Apply(w, s, l).phases[l.t]);
    }
  }

  lemma {:induction false} RunAgreed(w: World, s: State, ls: seq<Label>)
    requires Agreed(w, s) && Run(w, s, ls).Some?
    ensures Agreed(w, Run(w, s, ls).value)
    decreases |ls|
  {
    if ls != [] {
      RunAgreed(w, s, ls[..|ls| - 1]);
      AgreeStep(w, Run(w, s, ls[..|ls| - 1]).value, ls[|ls| - 1]);
    }
  }

  /** Within one process, calls for one key return one module, and it is the cached one:
      whatever the hashes do, and however many calls write the same file. */
  lemma {:induction false} OneModulePerKey(w: World, ls: seq<Label>, i: nat, j: nat)
    requires Run(w, Origin(), ls).Some?
    requires i < |Run(w, Origin(), ls).value.returned| && j < |Run(w, Origin(), ls).value.returned|
    ensures var s := Run(w, Origin(), ls).value;
            var k := KeyOf(w, s.returned[i].req);
            && (SameKey(w, s.returned[i], s.returned[j]) ==> s.returned[i].module_ == s.returned[j].module_)
            && (s.returned[i].epoch == s.epoch ==> k in s.memory && s.memory[k] == s.returned[i].module_)
  {
    RunAgreed(w, Origin(), ls);
  }
}
