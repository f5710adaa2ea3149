/** What every run of the kernel cache keeps, and the one thing it rests on. */
module KernelProofs {
  import opened Wrappers
  import opened KernelModel

  // ---- files: what one writer at a time gives, whatever the hashes do ----

  /** No file has two names. */
  ghost predicate NamesApart(s: State) {
    && (forall p :: p in s.tmp ==> s.tmp[p] < |s.files|)
    && (forall p :: p in s.disk ==> s.disk[p] < |s.files|)
    && (forall p, q :: p in s.tmp && q in s.tmp && s.tmp[p] == s.tmp[q] ==> p == q)
    && (forall p, q :: p in s.tmp && q in s.disk ==> s.tmp[p] != s.disk[q])
  }

  /** A file being written holds what its writer has written so far: all of the image once it
      is closed. */
  ghost predicate Holds(w: World, s: State, p: Phase) {
    match p
    case Writing(req, image, file, at) =>
      && TargetOf(w, p) in s.tmp && s.tmp[TargetOf(w, p)] == file
      && at <= |image| && Bytes(s.files, file) == image[..at]
    case Written(req, image) => TargetOf(w, p) in s.tmp && Bytes(s.files, s.tmp[TargetOf(w, p)]) == image
    case _ => true
  }

  ghost predicate TmpSound(w: World, s: State) { forall t :: At(s, t) ==> Holds(w, s, s.phases[t]) }

  ghost predicate OneWriter(w: World, s: State) {
    forall t, path :: At(s, t) && WritesTo(w, s.phases[t], path) ==> Alone(w, s, t, path)
  }

  ghost predicate Files(w: World, s: State) { NamesApart(s) && OneWriter(w, s) && TmpSound(w, s) }

  predicate Writer(p: Phase) { p.Writing? || p.Written? }

  lemma {:induction false} FilesSame(w: World, s: State, u: State)
    requires Files(w, s) && u.phases == s.phases && u.tmp == s.tmp && u.disk == s.disk && u.files == s.files
    ensures Files(w, u)
  {
    forall v | At(u, v) ensures Holds(w, u, u.phases[v]) {
      assert At(s, v) && Holds(w, s, s.phases[v]);
    }
    forall v, path | At(u, v) && WritesTo(w, u.phases[v], path) ensures Alone(w, u, v, path) {
      assert At(s, v) && Alone(w, s, v, path);
    }
  }

  /** Changing one call's phase. */
  lemma {:induction false} FilesSetPhase(w: World, s: State, t: nat, p: Phase)
    requires Files(w, s) && At(s, t) && Holds(w, s, p)
    requires Writer(p) ==> Alone(w, s, t, TargetOf(w, p))
    ensures Files(w, SetPhase(s, t, p))
  {
    var u := SetPhase(s, t, p);
    forall v | At(u, v) ensures Holds(w, u, u.phases[v]) {
      assert v != t ==> Holds(w, s, s.phases[v]);
    }
    forall v, path | At(u, v) && WritesTo(w, u.phases[v], path) ensures Alone(w, u, v, path) {
      assert v != t ==> Alone(w, s, v, path);
    }
  }

  /** No call is writing at `path`. */
  ghost predicate Unwritten(w: World, s: State, path: Path) {
    forall v :: At(s, v) ==> !WritesTo(w, s.phases[v], path)
  }

  /** Changing the file behind a temporary name that no call is writing. */
  lemma {:induction false} FilesSetBytes(w: World, s: State, path: Path, bytes: Image)
    requires Files(w, s) && path in s.tmp && Unwritten(w, s, path)
    ensures Files(w, s.(files := SetBytes(s.files, s.tmp[path], bytes)))
  {
    var u := s.(files := SetBytes(s.files, s.tmp[path], bytes));
    forall v | At(u, v) ensures Holds(w, u, u.phases[v]) {
      assert Holds(w, s, s.phases[v]) && !WritesTo(w, s.phases[v], path);
    }
    forall v, q | At(u, v) && WritesTo(w, u.phases[v], q) ensures Alone(w, u, v, q) {
      assert At(s, v) && Alone(w, s, v, q);
    }
  }

  /** A new file under a temporary name that was not in use. */
  lemma {:induction false} FilesCreate(w: World, s: State, path: Path)
    requires Files(w, s) && path !in s.tmp
    ensures Files(w, s.(files := s.files + [[]], tmp := s.tmp[path := |s.files|]))
  {
    var u := s.(files := s.files + [[]], tmp := s.tmp[path := |s.files|]);
    forall v | At(u, v) ensures Holds(w, u, u.phases[v]) {
      assert Holds(w, s, s.phases[v]);
    }
    forall v, q | At(u, v) && WritesTo(w, u.phases[v], q) ensures Alone(w, u, v, q) {
      assert At(s, v) && Alone(w, s, v, q);
    }
  }

  /** A call that is alone at its path leaves the path unwritten once it steps back. */
  lemma {:induction false} StepBack(w: World, s: State, t: nat, path: Path, p: Phase)
    requires Files(w, s) && At(s, t) && Alone(w, s, t, path) && !Writer(p)
    ensures Files(w, SetPhase(s, t, p)) && Unwritten(w, SetPhase(s, t, p), path)
  {
    FilesSetPhase(w, s, t, p);
  }

  lemma {:induction false} FilesOpen(w: World, s: State, t: nat)
    requires Files(w, s) && Enabled(w, s, Open(t)) && OpensAlone(w, s, Open(t))
    ensures Files(w, Opened(w, s, t))
  {
    var p := s.phases[t];
    var path := TargetOf(w, p);
    assert Unwritten(w, s, path) by {
      assert !WritesTo(w, s.phases[t], path);
    }
    if path in s.tmp {
      FilesSetBytes(w, s, path, []);
      FilesSetPhase(w, s.(files := SetBytes(s.files, s.tmp[path], [])), t, Writing(p.req, p.image, s.tmp[path], 0));
    } else {
      FilesCreate(w, s, path);
      FilesSetPhase(w, s.(files := s.files + [[]], tmp := s.tmp[path := |s.files|]), t,
                    Writing(p.req, p.image, |s.files|, 0));
    }
  }

  lemma {:induction false} WriteGoesOn(image: Image, at: nat, n: nat)
    requires at <= n <= |image|
    ensures WriteAt(image[..at], at, image[at..n]) == image[..n]
  {
  }

  lemma {:induction false} FilesWrite(w: World, s: State, t: nat, n: nat)
    requires Files(w, s) && Enabled(w, s, Write(t, n))
    ensures Files(w, Wrote(s, t, n))
  {
    var p := s.phases[t];
    var path := TargetOf(w, p);
    assert Holds(w, s, p) && WritesTo(w, p, path);
    WriteGoesOn(p.image, p.at, n);
    StepBack(w, s, t, path, Idle);
    var r := SetPhase(s, t, Idle);
    FilesSetBytes(w, r, path, p.image[..n]);
    var q := r.(files := SetBytes(r.files, p.file, p.image[..n]));
    FilesSetPhase(w, q, t, p.(at := n));
    assert SetPhase(q, t, p.(at := n)) == Wrote(s, t, n);
  }

  lemma {:induction false} FilesRename(w: World, s: State, t: nat)
    requires Files(w, s) && Enabled(w, s, Rename(t))
    ensures Files(w, Renamed(w, s, t))
  {
    var p := s.phases[t];
    var path := TargetOf(w, p);
    assert WritesTo(w, p, path);
    StepBack(w, s, t, path, Loading(p.req, p.image));
    var r := SetPhase(s, t, Loading(p.req, p.image));
    var u := r.(disk := s.disk[path := s.tmp[path]], tmp := s.tmp - {path});
    forall v | At(u, v) ensures Holds(w, u, u.phases[v]) {
      assert Holds(w, r, r.phases[v]) && !WritesTo(w, r.phases[v], path);
    }
    forall v, q | At(u, v) && WritesTo(w, u.phases[v], q) ensures Alone(w, u, v, q) {
      assert At(r, v) && Alone(w, r, v, q);
    }
  }

  lemma {:induction false} FilesClose(w: World, s: State, t: nat)
    requires Files(w, s) && Enabled(w, s, Close(t))
    ensures Files(w, Apply(w, s, Close(t)))
  {
    var p := s.phases[t];
    assert Holds(w, s, p) && WritesTo(w, p, TargetOf(w, p));
    assert p.image[..p.at] == p.image;
    FilesSetPhase(w, s, t, Written(p.req, p.image));
  }

  lemma {:induction false} FilesSpawn(w: World, s: State)
    requires Files(w, s)
    ensures Files(w, Apply(w, s, Spawn))
  {
    var u := Apply(w, s, Spawn);
    forall v | At(u, v) ensures Holds(w, u, u.phases[v]) {
      assert At(s, v) ==> Holds(w, s, s.phases[v]);
    }
    forall v, path | At(u, v) && WritesTo(w, u.phases[v], path) ensures Alone(w, u, v, path) {
      assert At(s, v) && Alone(w, s, v, path);
    }
  }

  lemma {:induction false} FilesStore(w: World, s: State, l: Label)
    requires Files(w, s) && Enabled(w, s, l) && OpensAlone(w, s, l)
    requires l.Open? || l.Write? || l.Close? || l.Rename?
    ensures Files(w, Apply(w, s, l))
  {
    match l
    case Open(t) => FilesOpen(w, s, t);
    case Write(t, n) => FilesWrite(w, s, t, n);
    case Close(t) => FilesClose(w, s, t);
    case Rename(t) => FilesRename(w, s, t);
  }

  /** Steps that leave the files and their names alone. */
  predicate OffDisk(l: Label) {
    !l.Spawn? && !l.Crash? && !l.Open? && !l.Write? && !l.Close? && !l.Rename?
  }

  lemma {:induction false} OffDiskFrame(w: World, s: State, l: Label)
    requires Enabled(w, s, l) && OffDisk(l)
    ensures var u := Apply(w, s, l);
            && u.files == s.files && u.tmp == s.tmp && u.disk == s.disk
            && At(s, l.t) && At(u, l.t) && u.phases == s.phases[l.t := u.phases[l.t]] && !Writer(u.phases[l.t])
  {
  }

  lemma {:induction false} FilesOffDisk(w: World, s: State, l: Label)
    requires Files(w, s) && Enabled(w, s, l) && OffDisk(l)
    ensures Files(w, Apply(w, s, l))
  {
    var u := Apply(w, s, l);
    OffDiskFrame(w, s, l);
    FilesSetPhase(w, s, l.t, u.phases[l.t]);
    FilesSame(w, SetPhase(s, l.t, u.phases[l.t]), u);
  }

  lemma {:induction false} FilesStep(w: World, s: State, l: Label)
    requires Files(w, s) && Enabled(w, s, l) && OpensAlone(w, s, l)
    ensures Files(w, Apply(w, s, l))
  {
    if l.Open? || l.Write? || l.Close? || l.Rename? {
      FilesStore(w, s, l);
    } else if l.Spawn? {
      FilesSpawn(w, s);
    } else if OffDisk(l) {
      FilesOffDisk(w, s, l);
    }
  }

  lemma {:induction false} NamesOpen(w: World, s: State, t: nat)
    requires NamesApart(s) && Enabled(w, s, Open(t))
    ensures NamesApart(Opened(w, s, t))
  {
  }

  lemma {:induction false} NamesRename(w: World, s: State, t: nat)
    requires NamesApart(s) && Enabled(w, s, Rename(t))
    ensures NamesApart(Renamed(w, s, t))
  {
  }

  /** Files keep one name each, however many calls write them. */
  lemma {:induction false} NamesStep(w: World, s: State, l: Label)
    requires NamesApart(s) && Enabled(w, s, l)
    ensures NamesApart(Apply(w, s, l))
  {
    if OffDisk(l) {
      OffDiskFrame(w, s, l);
    } else if l.Open? {
      NamesOpen(w, s, l.t);
    } else if l.Rename? {
      NamesRename(w, s, l.t);
    }
  }

  lemma {:induction false} RunNames(w: World, ls: seq<Label>)
    requires Run(w, Origin(), ls).Some?
    ensures NamesApart(Run(w, Origin(), ls).value)
    decreases |ls|
  {
    if ls == [] {
      assert NamesApart(Origin());
    } else {
      RunNames(w, ls[..|ls| - 1]);
      NamesStep(w, Run(w, Origin(), ls[..|ls| - 1]).value, ls[|ls| - 1]);
    }
  }

  lemma {:induction false} RunFiles(w: World, s: State, ls: seq<Label>)
    requires Files(w, s) && Run(w, s, ls).Some? && OneAtATime(w, s, ls)
    ensures Files(w, Run(w, s, ls).value)
    decreases |ls|
  {
    if ls != [] {
      RunFiles(w, s, ls[..|ls| - 1]);
      FilesStep(w, Run(w, s, ls[..|ls| - 1]).value, ls[|ls| - 1]);
    }
  }

  // ---- images: what the hashes' deciding the image adds ----

  /** The hashes in a key decide what the compiler makes of the request. */
  ghost predicate Determined(w: World) {
    forall a: Request, b: Request :: PathOf(KeyOf(w, a)) == PathOf(KeyOf(w, b)) ==> Compiled(w, a) == Compiled(w, b)
  }

  /** `image` is what the compiler makes of every request stored at `path`. */
  ghost predicate Genuine(w: World, path: Path, image: Image) {
    forall r: Request :: PathOf(KeyOf(w, r)) == path ==> Compiled(w, r) == Some(image)
  }

  ghost predicate PhaseSound(w: World, p: Phase) {
    match p
    case Storing(req, image) => Genuine(w, PathOf(KeyOf(w, req)), image)
    case Writing(req, image, _, _) => Genuine(w, PathOf(KeyOf(w, req)), image)
    case Written(req, image) => Genuine(w, PathOf(KeyOf(w, req)), image)
    case Loading(req, image) => Genuine(w, PathOf(KeyOf(w, req)), image)
    case Loaded(req, m) => Genuine(w, PathOf(KeyOf(w, req)), m.image)
    case Published(req, m) => Genuine(w, PathOf(KeyOf(w, req)), m.image)
    case _ => true
  }

  ghost predicate Sound(w: World, s: State) {
    && (forall t :: At(s, t) ==> PhaseSound(w, s.phases[t]))
    && (forall p :: p in s.disk ==> Genuine(w, p, Bytes(s.files, s.disk[p])))
    && (forall k :: k in s.memory ==> Genuine(w, PathOf(k), s.memory[k].image))
    && (forall i :: 0 <= i < |s.returned| ==>
        Genuine(w, PathOf(KeyOf(w, s.returned[i].req)), s.returned[i].module_.image))
  }

  lemma {:induction false} SoundSetPhase(w: World, s: State, t: nat, p: Phase)
    requires Sound(w, s) && At(s, t) && PhaseSound(w, p)
    ensures Sound(w, SetPhase(s, t, p))
  {
  }

  lemma {:induction false} SoundSame(w: World, s: State, u: State)
    requires Sound(w, s) && u.phases == s.phases && u.memory == s.memory && u.returned == s.returned
    requires u.disk == s.disk && forall p :: p in s.disk ==> Bytes(u.files, s.disk[p]) == Bytes(s.files, s.disk[p])
    ensures Sound(w, u)
  {
  }

  lemma {:induction false} SoundGive(w: World, s: State, req: Request, m: Module)
    requires Sound(w, s) && Genuine(w, PathOf(KeyOf(w, req)), m.image)
    ensures Sound(w, Give(s, req, m))
  {
  }

  lemma {:induction false} SoundInsert(w: World, s: State, t: nat)
    requires Sound(w, s) && Enabled(w, s, Insert(t))
    ensures Sound(w, Apply(w, s, Insert(t)))
  {
    assert PhaseSound(w, s.phases[t]);
    SoundSetPhase(w, s, t, Apply(w, s, Insert(t)).phases[t]);
  }

  lemma {:induction false} SoundRename(w: World, s: State, t: nat)
    requires Files(w, s) && Sound(w, s) && Enabled(w, s, Rename(t))
    ensures Sound(w, Apply(w, s, Rename(t)))
  {
    var p := s.phases[t];
    assert PhaseSound(w, p) && Holds(w, s, p);
    SoundSetPhase(w, s, t, Loading(p.req, p.image));
  }

  /** No writer has open a file that a final name stands for. */
  lemma {:induction false} DiskUntouched(w: World, s: State, l: Label)
    requires Files(w, s) && Enabled(w, s, l) && (l.Open? || l.Write? || l.Close?)
    ensures forall q :: q in s.disk ==> Bytes(Apply(w, s, l).files, s.disk[q]) == Bytes(s.files, s.disk[q])
  {
    assert Holds(w, s, s.phases[l.t]);
  }

  lemma {:induction false} SoundStore(w: World, s: State, l: Label)
    requires Files(w, s) && Sound(w, s) && Enabled(w, s, l) && (l.Open? || l.Write? || l.Close?)
    ensures Sound(w, Apply(w, s, l))
  {
    var u := Apply(w, s, l);
    assert PhaseSound(w, s.phases[l.t]);
    DiskUntouched(w, s, l);
    SoundSetPhase(w, s, l.t, u.phases[l.t]);
    SoundSame(w, SetPhase(s, l.t, u.phases[l.t]), u);
  }

  lemma {:induction false} SoundCompile(w: World, s: State, t: nat)
    requires Determined(w) && Sound(w, s) && Enabled(w, s, CompileOk(t))
    ensures Sound(w, Apply(w, s, CompileOk(t)))
  {
    var req := s.phases[t].req;
    var image := Compiled(w, req).value;
    assert Genuine(w, PathOf(KeyOf(w, req)), image);
    SoundSetPhase(w, s, t, Storing(req, image));
  }

  lemma {:induction false} SoundFinish(w: World, s: State, t: nat, ok: bool)
    requires Sound(w, s) && Enabled(w, s, Finish(t, ok))
    ensures Sound(w, Apply(w, s, Finish(t, ok)))
  {
    assert PhaseSound(w, s.phases[t]);
    SoundSetPhase(w, s, t, Idle);
    if ok { SoundGive(w, SetPhase(s, t, Idle), s.phases[t].req, s.phases[t].module_); }
  }

  /** Steps that hand on the image a call has, or give it up. */
  lemma {:induction false} SoundHandOn(w: World, s: State, l: Label)
    requires Sound(w, s) && Enabled(w, s, l) && OffDisk(l)
    requires !l.CompileOk? && !l.Insert? && !l.Finish? && !l.ReadHit?
    ensures Sound(w, Apply(w, s, l))
  {
    var u := Apply(w, s, l);
    assert PhaseSound(w, s.phases[l.t]);
    SoundSetPhase(w, s, l.t, u.phases[l.t]);
    SoundSame(w, SetPhase(s, l.t, u.phases[l.t]), u);
  }

  lemma {:induction false} SoundStep(w: World, s: State, l: Label)
    requires Determined(w) && Files(w, s) && Sound(w, s) && Enabled(w, s, l)
    ensures Sound(w, Apply(w, s, l))
  {
    if l.CompileOk? {
      SoundCompile(w, s, l.t);
    } else if l.Rename? {
      SoundRename(w, s, l.t);
    } else if l.Open? || l.Write? || l.Close? {
      SoundStore(w, s, l);
    } else if l.Insert? {
      SoundInsert(w, s, l.t);
    } else if l.Finish? {
      SoundFinish(w, s, l.t, l.ok);
    } else if l.ReadHit? {
      if l.ok { SoundGive(w, s, l.req, s.memory[KeyOf(w, l.req)]); }
    } else if OffDisk(l) {
      SoundHandOn(w, s, l);
    }
  }

  ghost predicate Inv(w: World, s: State) { Files(w, s) && Sound(w, s) }

  lemma {:induction false} RunInv(w: World, s: State, ls: seq<Label>)
    requires Determined(w) && Inv(w, s) && Run(w, s, ls).Some? && OneAtATime(w, s, ls)
    ensures Inv(w, Run(w, s, ls).value)
    decreases |ls|
  {
    if ls != [] {
      RunInv(w, s, ls[..|ls| - 1]);
      FilesStep(w, Run(w, s, ls[..|ls| - 1]).value, ls[|ls| - 1]);
      SoundStep(w, Run(w, s, ls[..|ls| - 1]).value, ls[|ls| - 1]);
    }
  }
}
