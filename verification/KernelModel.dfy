/** The kernel cache: compiled modules in memory, images on disk that survive the process.

    Calls of any number of threads interleave at every point where no lock is held; a file
    is written in any number of pieces through a handle of its own, which a rename does not
    touch; and the process may die between any two steps. */
module KernelModel {
  import opened Wrappers

  const NUL := 0 as char

  type Image = seq<nat>

  datatype Options = Options(arch: Option<string>, flags: seq<string>)

  /** `defaultArch` is what the device's compute capability gives when the options name none. */
  datatype Request = Request(src: string, fnName: string, opts: Options, defaultArch: string)

  datatype Key = Key(srcHash: nat, arch: string, optsHash: nat, fnName: string)

  /** The file of an image: the key without the function's name. */
  datatype Path = Path(arch: string, srcHash: nat, optsHash: nat)

  /** A loaded module: which one it is, and the image it was loaded from. */
  datatype Module = Module(id: nat, image: Image)

  /** The hash functions and the compiler, which is deterministic. */
  datatype World = World(
    srcHash: string -> nat,
    optsHash: Options -> nat,
    compile: (string, string, Options) -> Option<Image>)

  function ArchOf(req: Request): string {
    if req.opts.arch.Some? then req.opts.arch.value else req.defaultArch
  }

  function KeyOf(w: World, req: Request): Key {
    Key(w.srcHash(req.src), ArchOf(req), w.optsHash(req.opts), req.fnName)
  }

  function PathOf(k: Key): Path { Path(k.arch, k.srcHash, k.optsHash) }

  /** What the compiler makes of a request: the reference the cache is compared with. */
  function Compiled(w: World, req: Request): Option<Image> {
    w.compile(req.src, ArchOf(req), req.opts)
  }

  datatype Phase =
    | Idle
    | Missed(req: Request)                       // not in memory
    | Compiling(req: Request)                    // not on disk either
    | Storing(req: Request, image: Image)        // about to open the temporary file
    | Writing(req: Request, image: Image, file: nat, at: nat)  // `at` bytes have gone to the open file
    | Written(req: Request, image: Image)        // about to rename it
    | Loading(req: Request, image: Image)        // about to load the module
    | Loaded(req: Request, module_: Module)      // about to insert it
    | Published(req: Request, module_: Module)   // about to look the function up

  datatype Return = Return(epoch: nat, req: Request, module_: Module)

  /** `files` are the contents of all files ever made; `disk` and `tmp` say which of them the
      final and the temporary names stand for. `epoch` counts process starts, `loads` module
      loads; of these the running process made those from `born` on, and `unloaded` are the
      ones it has unloaded again. */
  datatype State = State(
    memory: map<Key, Module>,
    files: seq<Image>,
    disk: map<Path, nat>,
    tmp: map<Path, nat>,
    phases: seq<Phase>,
    epoch: nat,
    born: nat,
    loads: nat,
    unloaded: seq<nat>,
    returned: seq<Return>)

  datatype Label =
    | Spawn
    | ReadHit(t: nat, req: Request, ok: bool)   // not ok: the function lookup failed
    | ReadMiss(t: nat, req: Request)
    | DiskHit(t: nat)
    | DiskMiss(t: nat, readable: bool)          // no such file, or not readable, or cache off
    | CompileOk(t: nat)
    | CompileFails(t: nat, works: bool)         // bad source, or the compiler itself is not to be had
    | SkipStore(t: nat)                         // the disk cache is off, or the file cannot be opened
    | Open(t: nat)                              // create the temporary file, or truncate it
    | Write(t: nat, n: nat)                     // n bytes of the image have gone to the file
    | WriteFails(t: nat)
    | Close(t: nat)
    | Rename(t: nat)
    | RenameFails(t: nat, works: bool)
    | Load(t: nat)
    | LoadFails(t: nat)
    | BadName(t: nat)                           // the function's name holds a NUL
    | Insert(t: nat)
    | Finish(t: nat, ok: bool)
    | Crash                                     // the process dies and starts again

  predicate At(s: State, t: int) { 0 <= t < |s.phases| }

  /** The path that a call reads and writes. */
  function TargetOf(w: World, p: Phase): Path
    requires !p.Idle?
  {
    PathOf(KeyOf(w, p.req))
  }

  /** The call has the temporary file open, or has closed it and not yet renamed it. */
  predicate WritesTo(w: World, p: Phase, path: Path) {
    (p.Writing? || p.Written?) && TargetOf(w, p) == path
  }

  predicate Alone(w: World, s: State, t: int, path: Path) {
    forall u :: 0 <= u < |s.phases| && u != t ==> !WritesTo(w, s.phases[u], path)
  }

  /** What a file holds. */
  function Bytes(files: seq<Image>, f: nat): Image { if f < |files| then files[f] else [] }

  function SetBytes(files: seq<Image>, f: nat, bytes: Image): seq<Image> {
    if f < |files| then files[f := bytes] else files
  }

  /** A write of `part` at offset `at`; a gap left by a truncation is filled with zeros. */
  function WriteAt(file: Image, at: nat, part: Image): Image {
    (if at <= |file| then file[..at] else file + seq(at - |file|, i => 0)) + part
    + (if at + |part| <= |file| then file[at + |part|..] else [])
  }

  predicate Enabled(w: World, s: State, l: Label) {
    match l
    case Spawn => true
    case Crash => true
    case ReadHit(t, req, _) => At(s, t) && s.phases[t].Idle? && KeyOf(w, req) in s.memory
    case ReadMiss(t, req) => At(s, t) && s.phases[t].Idle? && KeyOf(w, req) !in s.memory
    case DiskHit(t) => At(s, t) && s.phases[t].Missed? && TargetOf(w, s.phases[t]) in s.disk
    case DiskMiss(t, readable) =>
      At(s, t) && s.phases[t].Missed? && (readable ==> TargetOf(w, s.phases[t]) !in s.disk)
    case CompileOk(t) => At(s, t) && s.phases[t].Compiling? && Compiled(w, s.phases[t].req).Some?
    case CompileFails(t, works) =>
      At(s, t) && s.phases[t].Compiling? && (works ==> Compiled(w, s.phases[t].req).None?)
    case SkipStore(t) => At(s, t) && s.phases[t].Storing?
    case Open(t) => At(s, t) && s.phases[t].Storing?
    case Write(t, n) => At(s, t) && s.phases[t].Writing? && s.phases[t].at <= n <= |s.phases[t].image|
    case WriteFails(t) => At(s, t) && s.phases[t].Writing?
    case Close(t) => At(s, t) && s.phases[t].Writing? && s.phases[t].at == |s.phases[t].image|
    case Rename(t) => At(s, t) && s.phases[t].Written? && TargetOf(w, s.phases[t]) in s.tmp
    case RenameFails(t, works) =>
      At(s, t) && s.phases[t].Written? && (works ==> TargetOf(w, s.phases[t]) !in s.tmp)
    case Load(t) => At(s, t) && s.phases[t].Loading?
    case LoadFails(t) => At(s, t) && s.phases[t].Loading?
    case BadName(t) => At(s, t) && s.phases[t].Loaded? && NUL in s.phases[t].req.fnName
    case Insert(t) => At(s, t) && s.phases[t].Loaded? && NUL !in s.phases[t].req.fnName
    case Finish(t, _) => At(s, t) && s.phases[t].Published?
  }

  function SetPhase(s: State, t: nat, p: Phase): State
    requires At(s, t)
  {
    s.(phases := s.phases[t := p])
  }

  function Give(s: State, req: Request, m: Module): State {
    s.(returned := s.returned + [Return(s.epoch, req, m)])
  }

  /** The temporary file is there and empty. */
  function Opened(w: World, s: State, t: nat): State
    requires At(s, t) && s.phases[t].Storing?
  {
    var p := s.phases[t];
    var path := TargetOf(w, p);
    if path in s.tmp then
      SetPhase(s.(files := SetBytes(s.files, s.tmp[path], [])), t, Writing(p.req, p.image, s.tmp[path], 0))
    else
      SetPhase(s.(files := s.files + [[]], tmp := s.tmp[path := |s.files|]), t, Writing(p.req, p.image, |s.files|, 0))
  }

  /** The next bytes of the image go to the file that the call has open. */
  function Wrote(s: State, t: nat, n: nat): State
    requires At(s, t) && s.phases[t].Writing? && s.phases[t].at <= n <= |s.phases[t].image|
  {
    var p := s.phases[t];
    SetPhase(s.(files := SetBytes(s.files, p.file, WriteAt(Bytes(s.files, p.file), p.at, p.image[p.at..n]))), t,
      p.(at := n))
  }

  /** The name moves from the temporary to the final path. */
  function Renamed(w: World, s: State, t: nat): State
    requires At(s, t) && s.phases[t].Written? && TargetOf(w, s.phases[t]) in s.tmp
  {
    var p := s.phases[t];
    var path := TargetOf(w, p);
    SetPhase(s.(disk := s.disk[path := s.tmp[path]], tmp := s.tmp - {path}), t, Loading(p.req, p.image))
  }

  /** `or_insert`: keep what is there and unload the newcomer, or publish it. */
  function Inserted(w: World, s: State, t: nat): State
    requires At(s, t) && s.phases[t].Loaded?
  {
    var p := s.phases[t];
    var k := KeyOf(w, p.req);
    if k in s.memory then SetPhase(s.(unloaded := s.unloaded + [p.module_.id]), t, Published(p.req, s.memory[k]))
    else SetPhase(s.(memory := s.memory[k := p.module_]), t, Published(p.req, p.module_))
  }

  function Apply(w: World, s: State, l: Label): State
    requires Enabled(w, s, l)
  {
    match l
    case Spawn => s.(phases := s.phases + [Idle])
    case Crash => s.(memory := map[], phases := [], epoch := s.epoch + 1, born := s.loads, unloaded := [])
    case ReadHit(t, req, ok) => if ok then Give(s, req, s.memory[KeyOf(w, req)]) else s
    case ReadMiss(t, req) => SetPhase(s, t, Missed(req))
    case DiskHit(t) => SetPhase(s, t, Loading(s.phases[t].req, Bytes(s.files, s.disk[TargetOf(w, s.phases[t])])))
    case DiskMiss(t, _) => SetPhase(s, t, Compiling(s.phases[t].req))
    case CompileOk(t) => SetPhase(s, t, Storing(s.phases[t].req, Compiled(w, s.phases[t].req).value))
    case CompileFails(t, _) => SetPhase(s, t, Idle)
    case SkipStore(t) => SetPhase(s, t, Loading(s.phases[t].req, s.phases[t].image))
    case Open(t) => Opened(w, s, t)
    case Write(t, n) => Wrote(s, t, n)
    case WriteFails(t) => SetPhase(s, t, Loading(s.phases[t].req, s.phases[t].image))
    case Close(t) => SetPhase(s, t, Written(s.phases[t].req, s.phases[t].image))
    case Rename(t) => Renamed(w, s, t)
    case RenameFails(t, _) => SetPhase(s, t, Loading(s.phases[t].req, s.phases[t].image))
    case Load(t) => SetPhase(s.(loads := s.loads + 1), t, Loaded(s.phases[t].req, Module(s.loads, s.phases[t].image)))
    case LoadFails(t) => SetPhase(s, t, Idle)
    case BadName(t) => SetPhase(s.(unloaded := s.unloaded + [s.phases[t].module_.id]), t, Idle)
    case Insert(t) => Inserted(w, s, t)
    case Finish(t, ok) =>
      var p := s.phases[t];
      if ok then Give(SetPhase(s, t, Idle), p.req, p.module_) else SetPhase(s, t, Idle)
  }

  function Run(w: World, s: State, ls: seq<Label>): Option<State>
    decreases |ls|
  {
    if ls == [] then Some(s)
    else
      match Run(w, s, ls[..|ls| - 1])
      case None => None
      case Some(u) => if Enabled(w, u, ls[|ls| - 1]) then Some(Apply(w, u, ls[|ls| - 1])) else None
  }

  lemma {:induction false} RunOne(w: World, s: State, ls: seq<Label>, l: Label)
    requires Run(w, s, ls).Some? && Enabled(w, Run(w, s, ls).value, l)
    ensures Run(w, s, ls + [l]) == Some(Apply(w, Run(w, s, ls).value, l))
  {
    assert (ls + [l])[..|ls + [l]| - 1] == ls;
  }

  lemma {:induction false} RunConcat(w: World, s: State, a: seq<Label>, b: seq<Label>)
    requires Run(w, s, a).Some? && Run(w, Run(w, s, a).value, b).Some?
    ensures Run(w, s, a + b) == Run(w, Run(w, s, a).value, b)
    decreases |b|
  {
    if b == [] {
      assert a + b == a;
    } else {
      RunConcat(w, s, a, b[..|b| - 1]);
      assert (a + b)[..|a + b| - 1] == a + b[..|b| - 1];
    }
  }

  /** Nobody opens a temporary file while another call is still writing it. */
  predicate OpensAlone(w: World, s: State, l: Label) {
    l.Open? && At(s, l.t) && s.phases[l.t].Storing? ==> Alone(w, s, l.t, TargetOf(w, s.phases[l.t]))
  }

  /** In this run each file has one writer at a time. */
  predicate OneAtATime(w: World, s: State, ls: seq<Label>)
    requires Run(w, s, ls).Some?
    decreases |ls|
  {
    ls == [] || (OneAtATime(w, s, ls[..|ls| - 1])
                 && OpensAlone(w, Run(w, s, ls[..|ls| - 1]).value, ls[|ls| - 1]))
  }

  /** A first process on an empty cache directory. */
  function Origin(): State { State(map[], [], map[], map[], [], 0, 0, 0, [], []) }
}
