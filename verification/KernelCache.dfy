/** `get_or_compile` as the code runs it: a map behind a lock, files in a directory, and every
    other call free to run wherever this one holds no lock. */
module KernelCache {
  import opened Wrappers
  import opened KernelModel
  import opened KernelProofs
  import opened KernelCalls
  import KernelModules
  import KernelTheorems

  class KernelCache {
    const world: World
    var memory: map<Key, Module>
    var files: seq<Image>
    var disk: map<Path, nat>
    var tmp: map<Path, nat>
    var phases: seq<Phase>
    var epoch: nat
    var born: nat
    var loads: nat
    var unloaded: seq<nat>
    var returned: seq<Return>
    ghost var trace: seq<Label>

    function View(): State
      reads this
    {
      State(memory, files, disk, tmp, phases, epoch, born, loads, unloaded, returned)
    }

    ghost predicate Valid()
      reads this
    {
      Run(world, Origin(), trace) == Some(View())
    }

    constructor (world: World)
      ensures Valid() && View() == Origin() && this.world == world
    {
      this.world := world;
      memory, files, disk, tmp, phases := map[], [], map[], map[], [];
      epoch, born, loads, unloaded, returned, trace := 0, 0, 0, [], [], [];
    }

    /** The call on thread `t` is at `p`. */
    ghost predicate Ready(t: nat, p: Phase)
      reads this
    {
      Valid() && At(View(), t) && phases[t] == p
    }

    /** So far each file has had one writer at a time. */
    ghost predicate Single()
      requires Valid()
      reads this
    {
      KernelTheorems.Single(world, trace)
    }

    /** No cached module has been replaced. */
    twostate predicate Kept()
      reads this
    {
      forall k :: k in old(memory) ==> k in memory && memory[k] == old(memory)[k]
    }

    /** All that thread `t` has done since is to go on with a call for `req`, with this luck. */
    twostate predicate Obeyed(t: nat, req: Request, luck: Luck)
      reads this
    {
      ObeyedIn(old(trace), trace, t, req, luck)
    }

    /** Memory is as it was. */
    twostate predicate Still()
      reads this
    {
      memory == old(memory) && loads == old(loads) && unloaded == old(unloaded) && epoch == old(epoch)
    }

    /** What the disk has for a request. */
    function OnDisk(req: Request): Option<Image>
      reads this
    {
      FileOf(world, View(), req)
    }

    /** The fields have just been changed as step `l` of state `was` says: log it. */
    ghost method Logged(l: Label, was: State)
      requires Run(world, Origin(), trace) == Some(was) && Enabled(world, was, l) && View() == Apply(world, was, l)
      modifies `trace
      ensures Valid() && trace == old(trace) + [l]
    {
      RunOne(world, Origin(), trace, l);
      trace := trace + [l];
    }

    /** The same, for a step of a call that has begun. */
    ghost method Took(t: nat, req: Request, luck: Luck, l: Label, was: State)
      requires Run(world, Origin(), trace) == Some(was) && Enabled(world, was, l) && View() == Apply(world, was, l)
      requires Fits(l, t, req, luck)
      modifies `trace
      ensures Valid() && trace == old(trace) + [l] && Obeyed(t, req, luck)
    {
      ObeyedOne(trace, l, t, req, luck);
      Logged(l, was);
    }

    /** No lock is held: the other calls run as `others` says. */
    method Interlude(t: nat, req: Request, luck: Luck, others: State -> seq<Label>)
      requires Valid() && At(View(), t)
      modifies this
      ensures Ready(t, old(phases[t])) && Kept() && Obeyed(t, req, luck)
      ensures Quiet(others) ==> View() == old(View()) && trace == old(trace)
    {
      var s := View();
      var ls := Legal(world, s, others(s), t);
      OthersKeep(world, s, ls, t);
      ObeyedForeign(trace, ls, t, req, luck);
      RunConcat(world, Origin(), trace, ls);
      Adopt(Run(world, s, ls).value);
      trace := trace + ls;
    }

    method Adopt(u: State)
      modifies `memory, `files, `disk, `tmp, `phases, `epoch, `born, `loads, `unloaded, `returned
      ensures View() == u
    {
      memory, files, disk, tmp, phases := u.memory, u.files, u.disk, u.tmp, u.phases;
      epoch, born, loads, unloaded, returned := u.epoch, u.born, u.loads, u.unloaded, u.returned;
    }

    /** `disk_cache_load`. */
    method DiskLoad(t: nat, req: Request, luck: Luck) returns (image: Option<Image>)
      requires Ready(t, Missed(req))
      modifies `phases, `trace
      ensures image.Some? <==> luck.readable && PathOf(KeyOf(world, req)) in disk
      ensures image.Some? ==> image.value == Bytes(files, disk[PathOf(KeyOf(world, req))])
      ensures Ready(t, if image.Some? then Loading(req, image.value) else Compiling(req))
      ensures trace == old(trace) + [if image.Some? then DiskHit(t) else DiskMiss(t, luck.readable)]
      ensures Obeyed(t, req, luck)
    {
      ghost var was := View();
      var path := PathOf(KeyOf(world, req));
      if luck.readable && path in disk {
        var bytes := Bytes(files, disk[path]);
        phases := phases[t := Loading(req, bytes)];
        Took(t, req, luck, DiskHit(t), was);
        return Some(bytes);
      }
      phases := phases[t := Compiling(req)];
      Took(t, req, luck, DiskMiss(t, luck.readable), was);
      return None;
    }

    /** The compiler runs. */
    method Compile(t: nat, req: Request, luck: Luck) returns (image: Option<Image>)
      requires Ready(t, Compiling(req))
      modifies `phases, `trace
      ensures image == if luck.compiles then Compiled(world, req) else None
      ensures Ready(t, if image.Some? then Storing(req, image.value) else Idle)
      ensures trace == old(trace) + [if image.Some? then CompileOk(t) else CompileFails(t, luck.compiles)]
      ensures Obeyed(t, req, luck)
    {
      ghost var was := View();
      var made := Compiled(world, req);
      if luck.compiles && made.Some? {
        phases := phases[t := Storing(req, made.value)];
        Took(t, req, luck, CompileOk(t), was);
        return made;
      }
      phases := phases[t := Idle];
      Took(t, req, luck, CompileFails(t, luck.compiles), was);
      return None;
    }

    /** The temporary name stands for this file, which holds `bytes`. */
    ghost predicate Owns(req: Request, file: nat, bytes: Image)
      reads this
    {
      var path := PathOf(KeyOf(world, req));
      path in tmp && tmp[path] == file && file < |files| && files[file] == bytes
    }

    /** A temporary name stands for a file. */
    lemma {:induction false} NamesFile(path: Path)
      requires Valid() && path in tmp
      ensures tmp[path] < |files|
    {
      RunNames(world, trace);
    }

    /** The temporary file is created, or truncated if it is there. */
    method OpenFile(t: nat, req: Request, image: Image, luck: Luck) returns (file: nat)
      requires Ready(t, Storing(req, image)) && luck.storeOn
      modifies `files, `tmp, `phases, `trace
      ensures Ready(t, Writing(req, image, file, 0)) && trace == old(trace) + [Open(t)]
      ensures Owns(req, file, [])
      ensures Obeyed(t, req, luck)
    {
      ghost var was := View();
      var path := PathOf(KeyOf(world, req));
      if path in tmp {
        NamesFile(path);
        file := tmp[path];
        files := SetBytes(files, file, []);
      } else {
        file := |files|;
        files := files + [[]];
        tmp := tmp[path := file];
      }
      phases := phases[t := Writing(req, image, file, 0)];
      Took(t, req, luck, Open(t), was);
    }

    /** The next bytes go to the open file. */
    method WritePiece(t: nat, req: Request, image: Image, file: nat, at: nat, n: nat, luck: Luck)
      requires Ready(t, Writing(req, image, file, at)) && at <= n <= |image|
      modifies `files, `phases, `trace
      ensures Ready(t, Writing(req, image, file, n)) && trace == old(trace) + [Write(t, n)]
      ensures old(Owns(req, file, image[..at])) ==> Owns(req, file, image[..n])
      ensures Obeyed(t, req, luck)
    {
      ghost var was := View();
      WriteGoesOn(image, at, n);
      files := SetBytes(files, file, WriteAt(Bytes(files, file), at, image[at..n]));
      phases := phases[t := Writing(req, image, file, n)];
      Took(t, req, luck, Write(t, n), was);
    }

    /** `write_all`: the file grows in pieces, and other calls run between them. */
    method WritePieces(t: nat, req: Request, image: Image, file: nat, luck: Luck, others: State -> seq<Label>)
      returns (at: nat)
      requires Ready(t, Writing(req, image, file, 0))
      modifies this
      ensures Ready(t, Writing(req, image, file, at)) && at <= |image| && Kept() && Obeyed(t, req, luck)
      ensures Quiet(others) ==> Still() && disk == old(disk)
      ensures Quiet(others) && old(Owns(req, file, [])) ==> Owns(req, file, image[..at])
    {
      var k := 0;
      at := 0;
      while k < |luck.pieces|
        invariant Ready(t, Writing(req, image, file, at)) && at <= |image| && Kept() && Obeyed(t, req, luck)
        invariant Quiet(others) ==> Still() && disk == old(disk)
        invariant Quiet(others) && old(Owns(req, file, [])) ==> Owns(req, file, image[..at])
      {
        ghost var mid := trace;
        at := NextPiece(t, req, image, file, at, luck.pieces[k], luck, others);
        ObeyedJoin(old(trace), mid, trace, t, req, luck);
        k := k + 1;
      }
    }

    /** One more piece, if it goes on from the last. */
    method NextPiece(t: nat, req: Request, image: Image, file: nat, at: nat, n: nat, luck: Luck,
                     others: State -> seq<Label>) returns (next: nat)
      requires Ready(t, Writing(req, image, file, at)) && at <= |image|
      modifies this
      ensures Ready(t, Writing(req, image, file, next)) && next <= |image| && Kept() && Obeyed(t, req, luck)
      ensures Quiet(others) ==> Still() && disk == old(disk)
      ensures Quiet(others) && old(Owns(req, file, image[..at])) ==> Owns(req, file, image[..next])
    {
      next := at;
      if at <= n <= |image| {
        WritePiece(t, req, image, file, at, n, luck);
        next := n;
      }
      ghost var mid := trace;
      Interlude(t, req, luck, others);
      ObeyedJoin(old(trace), mid, trace, t, req, luck);
    }

    /** The last bytes are in the file, and it is closed. */
    method CloseFile(t: nat, req: Request, image: Image, file: nat, at: nat, luck: Luck)
      requires Ready(t, Writing(req, image, file, at)) && at <= |image| && luck.written
      modifies `files, `phases, `trace
      ensures Ready(t, Written(req, image)) && trace == old(trace) + [Write(t, |image|)] + [Close(t)]
      ensures old(Owns(req, file, image[..at])) ==> Owns(req, file, image)
      ensures Obeyed(t, req, luck)
    {
      WritePiece(t, req, image, file, at, |image|, luck);
      ghost var full := trace;
      assert image[..|image|] == image;
      ghost var was := View();
      phases := phases[t := Written(req, image)];
      Took(t, req, luck, Close(t), was);
      ObeyedJoin(old(trace), full, trace, t, req, luck);
    }

    /** The cache directory is off, or the file could not be opened. */
    method Skip(t: nat, req: Request, image: Image, luck: Luck)
      requires Ready(t, Storing(req, image)) && !luck.storeOn
      modifies `phases, `trace
      ensures Ready(t, Loading(req, image)) && trace == old(trace) + [SkipStore(t)]
      ensures Obeyed(t, req, luck)
    {
      ghost var was := View();
      phases := phases[t := Loading(req, image)];
      Took(t, req, luck, SkipStore(t), was);
    }

    /** A write failed: what the file holds stays under the temporary name. */
    method Abandon(t: nat, req: Request, image: Image, file: nat, at: nat, luck: Luck)
      requires Ready(t, Writing(req, image, file, at)) && !luck.written
      modifies `phases, `trace
      ensures Ready(t, Loading(req, image)) && trace == old(trace) + [WriteFails(t)]
      ensures Obeyed(t, req, luck)
    {
      ghost var was := View();
      phases := phases[t := Loading(req, image)];
      Took(t, req, luck, WriteFails(t), was);
    }

    /** With one writer per file, a closed temporary file is whole. */
    lemma {:induction false} WholeFile(t: nat, req: Request, image: Image)
      requires Ready(t, Written(req, image)) && Single()
      ensures PathOf(KeyOf(world, req)) in tmp && Bytes(files, tmp[PathOf(KeyOf(world, req))]) == image
    {
      KernelTheorems.OriginInv(world);
      RunFiles(world, Origin(), trace);
      assert Holds(world, View(), phases[t]);
    }

    /** The rename publishes what the temporary name stands for, or fails. With one writer per
        file, that is the whole image. */
    method Publish(t: nat, req: Request, image: Image, luck: Luck)
      requires Ready(t, Written(req, image))
      modifies `disk, `tmp, `phases, `trace
      ensures Ready(t, Loading(req, image))
      ensures var moves := luck.renamed && PathOf(KeyOf(world, req)) in old(tmp);
              trace == old(trace) + [if moves then Rename(t) else RenameFails(t, luck.renamed)]
      ensures var path := PathOf(KeyOf(world, req));
              if luck.renamed && path in old(tmp)
              then disk == old(disk)[path := old(tmp)[path]] && tmp == old(tmp) - {path}
              else disk == old(disk) && tmp == old(tmp)
      ensures luck.renamed && Single() ==> Stored(req, image)
      ensures Obeyed(t, req, luck)
    {
      ghost var was := View();
      var path := PathOf(KeyOf(world, req));
      if Single() { WholeFile(t, req, image); }
      var moves := luck.renamed && path in tmp;
      if moves {
        disk := disk[path := tmp[path]];
        tmp := tmp - {path};
      }
      phases := phases[t := Loading(req, image)];
      Took(t, req, luck, if moves then Rename(t) else RenameFails(t, luck.renamed), was);
      assert trace[..|trace| - 1] == old(trace);
    }

    /** The image is on disk, whole, where the request looks. */
    ghost predicate Stored(req: Request, image: Image)
      reads this
    {
      PathOf(KeyOf(world, req)) in disk && Bytes(files, disk[PathOf(KeyOf(world, req))]) == image
    }

    /** The image has gone to disk, and nothing else there has changed; or nothing has. */
    twostate predicate StoredAlone(req: Request, image: Image, all: bool)
      reads this
    {
      StoresOnly(world, old(View()), View(), req, image, all)
    }

    /** All of the image is written: close the file and rename it. */
    method CloseAndPublish(t: nat, req: Request, image: Image, file: nat, at: nat, luck: Luck,
                           others: State -> seq<Label>)
      requires Ready(t, Writing(req, image, file, at)) && at <= |image| && luck.written
      modifies this
      ensures Ready(t, Loading(req, image)) && Kept() && Obeyed(t, req, luck)
      ensures luck.renamed && Single() ==> Stored(req, image)
      ensures Quiet(others) ==> Still()
      ensures Quiet(others) && old(Owns(req, file, image[..at])) ==> StoredAlone(req, image, luck.renamed)
    {
      CloseFile(t, req, image, file, at, luck);
      ghost var closed := trace;
      Interlude(t, req, luck, others);
      ghost var mid := trace;
      Publish(t, req, image, luck);
      ObeyedJoin(closed, mid, trace, t, req, luck);
      ObeyedJoin(old(trace), closed, trace, t, req, luck);
    }

    /** The write succeeds, and the file is closed and renamed; or it is given up. */
    method FinishStore(t: nat, req: Request, image: Image, file: nat, at: nat, luck: Luck,
                       others: State -> seq<Label>)
      requires Ready(t, Writing(req, image, file, at)) && at <= |image|
      modifies this
      ensures Ready(t, Loading(req, image)) && Kept() && Obeyed(t, req, luck)
      ensures luck.written && luck.renamed && Single() ==> Stored(req, image)
      ensures Quiet(others) ==> Still()
      ensures Quiet(others) && old(Owns(req, file, image[..at])) ==>
                StoredAlone(req, image, luck.written && luck.renamed)
    {
      if luck.written {
        CloseAndPublish(t, req, image, file, at, luck, others);
      } else {
        Abandon(t, req, image, file, at, luck);
      }
    }

    /** Write the open file, and rename it or give it up. */
    method WriteFile(t: nat, req: Request, image: Image, file: nat, luck: Luck, others: State -> seq<Label>)
      requires Ready(t, Writing(req, image, file, 0))
      modifies this
      ensures Ready(t, Loading(req, image)) && Kept() && Obeyed(t, req, luck)
      ensures luck.written && luck.renamed && Single() ==> Stored(req, image)
      ensures Quiet(others) ==> Still()
      ensures Quiet(others) && old(Owns(req, file, [])) ==>
                StoredAlone(req, image, luck.written && luck.renamed)
    {
      Interlude(t, req, luck, others);
      ghost var begun := trace;
      var at := WritePieces(t, req, image, file, luck, others);
      ghost var mid := trace;
      FinishStore(t, req, image, file, at, luck, others);
      ObeyedJoin(begun, mid, trace, t, req, luck);
      ObeyedJoin(old(trace), begun, trace, t, req, luck);
    }

    /** `disk_cache_store`: best effort, through a temporary file. Whatever fails, the call goes
        on with its image; if nothing does, the image is on disk. */
    method DiskStore(t: nat, req: Request, image: Image, luck: Luck, others: State -> seq<Label>)
      requires Ready(t, Storing(req, image))
      modifies this
      ensures Ready(t, Loading(req, image)) && Kept() && Obeyed(t, req, luck)
      ensures luck.storeOn && luck.written && luck.renamed && Single() ==> Stored(req, image)
      ensures Quiet(others) ==> Still() && StoredAlone(req, image, luck.storeOn && luck.written && luck.renamed)
    {
      if luck.storeOn {
        var file := OpenFile(t, req, image, luck);
        ghost var entered := trace;
        WriteFile(t, req, image, file, luck, others);
        ObeyedJoin(old(trace), entered, trace, t, req, luck);
      } else {
        Skip(t, req, image, luck);
      }
    }

    /** The same, the other calls running first. */
    method StoreLater(t: nat, req: Request, image: Image, luck: Luck, others: State -> seq<Label>)
      requires Ready(t, Storing(req, image))
      modifies this
      ensures Ready(t, Loading(req, image)) && Kept() && Obeyed(t, req, luck)
      ensures Quiet(others) ==> Still() && StoredAlone(req, image, luck.storeOn && luck.written && luck.renamed)
    {
      Interlude(t, req, luck, others);
      ghost var begun := trace;
      DiskStore(t, req, image, luck, others);
      ObeyedJoin(old(trace), begun, trace, t, req, luck);
    }

    /** The image has to be made: it is compiled and stored. */
    method Make(t: nat, req: Request, luck: Luck, others: State -> seq<Label>) returns (image: Option<Image>)
      requires Ready(t, Compiling(req))
      modifies this
      ensures Ready(t, if image.Some? then Loading(req, image.value) else Idle) && Kept() && Obeyed(t, req, luck)
      ensures image == if luck.compiles then Compiled(world, req) else None
      ensures image.None? ==> EndsWith(trace, CompileFails(t, luck.compiles))
      ensures Quiet(others) ==> Still()
      ensures Quiet(others) ==> if image.None? then disk == old(disk)
                                else StoredAlone(req, image.value, luck.storeOn && luck.written && luck.renamed)
    {
      Interlude(t, req, luck, others);
      ghost var begun := trace;
      image := Compile(t, req, luck);
      ObeyedJoin(old(trace), begun, trace, t, req, luck);
      if image.Some? {
        ghost var made := trace;
        StoreLater(t, req, image.value, luck, others);
        ObeyedJoin(old(trace), made, trace, t, req, luck);
      }
    }

    /** The image: from disk, or compiled and stored. */
    method Obtain(t: nat, req: Request, luck: Luck, others: State -> seq<Label>) returns (image: Option<Image>)
      requires Ready(t, Missed(req))
      modifies this
      ensures Ready(t, if image.Some? then Loading(req, image.value) else Idle) && Kept() && Obeyed(t, req, luck)
      ensures image == ImageFor(world, req, luck, old(OnDisk(req)))
      ensures image.None? ==> EndsWith(trace, CompileFails(t, luck.compiles))
      ensures Quiet(others) ==> Still()
      ensures Quiet(others) ==> ObtainedAlone(req, luck, image)
    {
      image := DiskLoad(t, req, luck);
      if image.None? {
        ghost var looked := trace;
        image := Make(t, req, luck, others);
        ObeyedJoin(old(trace), looked, trace, t, req, luck);
      }
    }

    /** A file is used as it is; what had to be compiled has gone to disk, if all went well. */
    twostate predicate ObtainedAlone(req: Request, luck: Luck, image: Option<Image>)
      reads this
    {
      var hit := luck.readable && old(OnDisk(req)).Some?;
      if image.None? then disk == old(disk)
      else StoredAlone(req, image.value, !hit && luck.storeOn && luck.written && luck.renamed)
    }

    method LoadModule(t: nat, req: Request, image: Image, luck: Luck) returns (m: Option<Module>)
      requires Ready(t, Loading(req, image))
      modifies `phases, `loads, `trace
      ensures m == if luck.loads then Some(Module(old(loads), image)) else None
      ensures Ready(t, if luck.loads then Loaded(req, Module(old(loads), image)) else Idle)
      ensures trace == old(trace) + [if luck.loads then Load(t) else LoadFails(t)]
      ensures Obeyed(t, req, luck)
    {
      ghost var was := View();
      if luck.loads {
        m := Some(Module(loads, image));
        loads := loads + 1;
        phases := phases[t := Loaded(req, m.value)];
        Took(t, req, luck, Load(t), was);
        return;
      }
      phases := phases[t := Idle];
      Took(t, req, luck, LoadFails(t), was);
      return None;
    }

    /** The function's name is no C string: the module is dropped, hence unloaded. */
    method RefuseName(t: nat, req: Request, m: Module, luck: Luck)
      requires Ready(t, Loaded(req, m)) && NUL in req.fnName
      modifies `unloaded, `phases, `trace
      ensures Ready(t, Idle) && unloaded == old(unloaded) + [m.id]
      ensures trace == old(trace) + [BadName(t)] && EndsWith(trace, BadName(t))
      ensures Obeyed(t, req, luck)
    {
      ghost var was := View();
      unloaded := unloaded + [m.id];
      phases := phases[t := Idle];
      Took(t, req, luck, BadName(t), was);
    }

    /** `or_insert`: the module that reached the cache first wins, and the other is unloaded. */
    method OrInsert(t: nat, req: Request, m: Module, luck: Luck) returns (h: Module)
      requires Ready(t, Loaded(req, m)) && NUL !in req.fnName
      modifies `memory, `unloaded, `phases, `trace
      ensures Ready(t, Published(req, h)) && trace == old(trace) + [Insert(t)]
      ensures if KeyOf(world, req) in old(memory)
              then h == old(memory)[KeyOf(world, req)] && memory == old(memory) && unloaded == old(unloaded) + [m.id]
              else h == m && memory == old(memory)[KeyOf(world, req) := m] && unloaded == old(unloaded)
      ensures Obeyed(t, req, luck)
    {
      ghost var was := View();
      var key := KeyOf(world, req);
      if key in memory {
        h := memory[key];
        unloaded := unloaded + [m.id];
      } else {
        h := m;
        memory := memory[key := m];
      }
      phases := phases[t := Published(req, h)];
      Took(t, req, luck, Insert(t), was);
    }

    /** The request's key is cached, and this is its module. */
    ghost predicate Cached(req: Request, m: Module)
      reads this
    {
      KeyOf(world, req) in memory && memory[KeyOf(world, req)] == m
    }

    /** The module joins the cache, unless its name is bad. */
    method InsertModule(t: nat, req: Request, m: Module, luck: Luck, others: State -> seq<Label>)
      returns (r: Result<Module, Error>)
      requires Ready(t, Loaded(req, m))
      modifies this
      ensures Kept() && Obeyed(t, req, luck)
      ensures r == Err(NameError) <==> NUL in req.fnName
      ensures r.Err? ==> r.error.NameError? && Ready(t, Idle) && EndsWith(trace, LastStep(t, req, luck, false, r))
      ensures r.Ok? ==> Ready(t, Published(req, r.value)) && Cached(req, r.value)
      ensures Quiet(others) ==> disk == old(disk) && files == old(files) && loads == old(loads)
      ensures Quiet(others) && KeyOf(world, req) !in old(memory) ==>
                && (r.Ok? ==> r.value == m && unloaded == old(unloaded))
                && memory == if r.Ok? then old(memory)[KeyOf(world, req) := m] else old(memory)
    {
      Interlude(t, req, luck, others);
      ghost var begun := trace;
      if NUL in req.fnName {
        RefuseName(t, req, m, luck);
        r := Err(NameError);
      } else {
        var h := OrInsert(t, req, m, luck);
        r := Ok(h);
      }
      ObeyedJoin(old(trace), begun, trace, t, req, luck);
    }

    /** Load the module, check the name, then `or_insert`. */
    method LoadAndInsert(t: nat, req: Request, image: Image, luck: Luck, others: State -> seq<Label>)
      returns (r: Result<Module, Error>)
      requires Ready(t, Loading(req, image))
      modifies this
      ensures Kept() && Obeyed(t, req, luck)
      ensures r == Err(LoadError) <==> !luck.loads
      ensures r == Err(NameError) <==> luck.loads && NUL in req.fnName
      ensures r.Err? ==> (r.error.LoadError? || r.error.NameError?) && Ready(t, Idle)
      ensures r.Err? ==> EndsWith(trace, LastStep(t, req, luck, false, r))
      ensures r.Ok? ==> Ready(t, Published(req, r.value)) && Cached(req, r.value)
      ensures Quiet(others) ==> disk == old(disk) && files == old(files)
      ensures Quiet(others) && KeyOf(world, req) !in old(memory) ==>
                && (r.Ok? ==> r.value == Module(old(loads), image))
                && memory == if r.Ok? then old(memory)[KeyOf(world, req) := r.value] else old(memory)
    {
      var m := LoadModule(t, req, image, luck);
      if m.None? {
        return Err(LoadError);
      }
      ghost var loaded := trace;
      r := InsertModule(t, req, m.value, luck, others);
      ObeyedJoin(old(trace), loaded, trace, t, req, luck);
    }

    /** The same, the other calls running first. */
    method UseImage(t: nat, req: Request, image: Image, luck: Luck, others: State -> seq<Label>)
      returns (r: Result<Module, Error>)
      requires Ready(t, Loading(req, image))
      modifies this
      ensures Kept() && Obeyed(t, req, luck)
      ensures r == Err(LoadError) <==> !luck.loads
      ensures r == Err(NameError) <==> luck.loads && NUL in req.fnName
      ensures r.Err? ==> (r.error.LoadError? || r.error.NameError?) && Ready(t, Idle)
      ensures r.Err? ==> EndsWith(trace, LastStep(t, req, luck, false, r))
      ensures r.Ok? ==> Ready(t, Published(req, r.value)) && Cached(req, r.value)
      ensures Quiet(others) ==> disk == old(disk) && files == old(files)
      ensures Quiet(others) && KeyOf(world, req) !in old(memory) ==>
                && (r.Ok? ==> r.value == Module(old(loads), image))
                && memory == if r.Ok? then old(memory)[KeyOf(world, req) := r.value] else old(memory)
    {
      Interlude(t, req, luck, others);
      ghost var begun := trace;
      r := LoadAndInsert(t, req, image, luck, others);
      ObeyedJoin(old(trace), begun, trace, t, req, luck);
    }

    /** `Module::function` on the module the cache holds. */
    method LookUpFunction(t: nat, req: Request, m: Module, luck: Luck)
      requires Ready(t, Published(req, m))
      modifies `phases, `returned, `trace
      ensures Ready(t, Idle) && trace == old(trace) + [Finish(t, luck.found)]
      ensures luck.found ==> HandedOut(req, m)
      ensures Obeyed(t, req, luck)
    {
      ghost var was := View();
      phases := phases[t := Idle];
      if luck.found {
        returned := returned + [Return(epoch, req, m)];
      }
      Took(t, req, luck, Finish(t, luck.found), was);
    }

    ghost predicate HandedOut(req: Request, m: Module)
      reads this
    {
      returned != [] && returned[|returned| - 1] == Return(epoch, req, m)
    }

    /** Under the read lock. */
    method ReadMemory(t: nat, req: Request, found: bool) returns (m: Option<Module>)
      requires Ready(t, Idle)
      modifies `phases, `returned, `trace
      ensures m == if KeyOf(world, req) in memory then Some(memory[KeyOf(world, req)]) else None
      ensures Ready(t, if m.Some? then Idle else Missed(req))
      ensures trace == old(trace) + [if m.Some? then ReadHit(t, req, found) else ReadMiss(t, req)]
      ensures m.Some? && found ==> HandedOut(req, m.value)
    {
      ghost var was := View();
      var key := KeyOf(world, req);
      if key in memory {
        if found {
          returned := returned + [Return(epoch, req, memory[key])];
        }
        Logged(ReadHit(t, req, found), was);
        return Some(memory[key]);
      }
      phases := phases[t := Missed(req)];
      Logged(ReadMiss(t, req), was);
      return None;
    }

    /** What a call has just been given is what the compiler makes of its request. */
    lemma {:induction false} Faithful(req: Request, m: Module)
      requires Valid() && Single() && HandedOut(req, m) && Determined(world)
      ensures Compiled(world, req) == Some(m.image)
    {
      KernelTheorems.CorrectWhenDetermined(world, trace);
    }

    /** No key with a NUL in its name is cached. */
    lemma {:induction false} CleanKey(req: Request)
      requires Valid() && KeyOf(world, req) in memory
      ensures NUL !in req.fnName
    {
      KernelModules.RunAccounted(world, trace);
    }

    /** An undisturbed call has made of a miss in memory what the answers and the disk say. */
    twostate predicate MadeAlone(req: Request, new luck: Luck, new r: Result<Module, Error>)
      reads this
    {
      MissAlone(world, old(View()), View(), req, luck, r)
    }

    /** Past the read lock: obtain the image, load it, insert the module. */
    method Produce(t: nat, req: Request, luck: Luck, others: State -> seq<Label>) returns (r: Result<Module, Error>)
      requires Ready(t, Missed(req))
      modifies this
      ensures Kept() && Obeyed(t, req, luck)
      ensures r.Err? ==> Ready(t, Idle) && r.error != NoFunction
      ensures r.Err? ==> EndsWith(trace, LastStep(t, req, luck, false, r))
      ensures r.Ok? ==> Ready(t, Published(req, r.value)) && Cached(req, r.value)
      ensures Quiet(others) && KeyOf(world, req) !in old(memory) ==> MadeAlone(req, luck.(found := true), r)
    {
      var image := Obtain(t, req, luck, others);
      if image.None? {
        return Err(CompileError);
      }
      ghost var obtained, v := trace, View();
      r := UseImage(t, req, image.value, luck, others);
      ObeyedJoin(old(trace), obtained, trace, t, req, luck);
      if Quiet(others) && KeyOf(world, req) !in old(memory) {
        AloneProduced(world, old(View()), v, View(), req, luck.(found := true), image.value, r);
      }
    }

    /** The same, the other calls running first. */
    method ProduceLater(t: nat, req: Request, luck: Luck, others: State -> seq<Label>)
      returns (r: Result<Module, Error>)
      requires Ready(t, Missed(req))
      modifies this
      ensures Kept() && Obeyed(t, req, luck)
      ensures r.Err? ==> Ready(t, Idle) && r.error != NoFunction
      ensures r.Err? ==> EndsWith(trace, LastStep(t, req, luck, false, r))
      ensures r.Ok? ==> Ready(t, Published(req, r.value)) && Cached(req, r.value)
      ensures Quiet(others) && KeyOf(world, req) !in old(memory) ==> MadeAlone(req, luck.(found := true), r)
    {
      Interlude(t, req, luck, others);
      ghost var begun := trace;
      r := Produce(t, req, luck, others);
      ObeyedJoin(old(trace), begun, trace, t, req, luck);
    }

    /** The last step: the function is looked up in the cached module. */
    method Hand(t: nat, req: Request, m: Module, luck: Luck, others: State -> seq<Label>)
      returns (r: Result<Module, Error>)
      requires Ready(t, Published(req, m)) && Cached(req, m)
      modifies this
      ensures Ready(t, Idle) && Kept() && Obeyed(t, req, luck) && Cached(req, m)
      ensures r == (if luck.found then Ok(m) else Err(NoFunction)) && (r.Ok? ==> HandedOut(req, m))
      ensures EndsWith(trace, LastStep(t, req, luck, false, r))
      ensures Quiet(others) ==> disk == old(disk) && files == old(files) && memory == old(memory)
    {
      Interlude(t, req, luck, others);
      ghost var begun := trace;
      LookUpFunction(t, req, m, luck);
      ObeyedJoin(old(trace), begun, trace, t, req, luck);
      r := if luck.found then Ok(m) else Err(NoFunction);
    }

    /** A miss in memory, to its end. */
    method AfterMiss(t: nat, req: Request, luck: Luck, others: State -> seq<Label>) returns (r: Result<Module, Error>)
      requires Ready(t, Missed(req))
      modifies this
      ensures Ready(t, Idle) && Kept() && Obeyed(t, req, luck)
      ensures EndsWith(trace, LastStep(t, req, luck, false, r))
      ensures r.Ok? || r == Err(NoFunction) ==> KeyOf(world, req) in memory
      ensures r.Ok? ==> Cached(req, r.value) && HandedOut(req, r.value)
      ensures Quiet(others) && KeyOf(world, req) !in old(memory) ==> MadeAlone(req, luck, r)
    {
      r := ProduceLater(t, req, luck, others);
      if r.Err? {
        return;
      }
      ghost var made, v := trace, View();
      var m := r.value;
      r := Hand(t, req, m, luck, others);
      ObeyedJoin(old(trace), made, trace, t, req, luck);
      if Quiet(others) && KeyOf(world, req) !in old(memory) {
        AloneHanded(world, old(View()), v, View(), req, luck, m);
      }
    }

    /** Step `k` is this call's look at the disk. */
    ghost predicate LooksAt(k: nat, t: nat, req: Request, luck: Luck)
      reads this
    {
      LooksAtDisk(world, trace, k, t, req, luck)
    }

    /** `get_or_compile`. Whatever the other calls do in between, a call that succeeds returns
        the module cached for its key, and no cached module is replaced; a key already cached
        costs no disk access and no compile; on a miss the disk is looked at, in step `at`, and
        a file that is there and can be read is used, and neither the compiler nor the disk
        after that; each error has its cause. With one writer per file the module was loaded
        from what the compiler makes of the request. Undisturbed, `MadeAlone` says all that a
        miss does. */
    method GetOrCompile(t: nat, req: Request, luck: Luck, others: State -> seq<Label>)
      returns (r: Result<Module, Error>, ghost at: nat)
      requires Ready(t, Idle)
      modifies this
      ensures Ready(t, Idle) && Kept()
      ensures r.Ok? && Determined(world) && Single() ==> Compiled(world, req) == Some(r.value.image)
      ensures r.Ok? ==> Cached(req, r.value) && HandedOut(req, r.value)
      ensures KeyOf(world, req) in old(memory) ==>
                && trace == old(trace) + [ReadHit(t, req, luck.found)]
                && r == if luck.found then Ok(old(memory)[KeyOf(world, req)]) else Err(NoFunction)
      ensures KeyOf(world, req) !in old(memory) ==>
                && ObeyedIn(old(trace) + [ReadMiss(t, req)], trace, t, req, luck)
                && LooksAt(at, t, req, luck) && at > |old(trace)|
                && (trace[at].DiskHit? ==> r != Err(CompileError) && NoMaking(trace, at, t))
      ensures Caused(world, req, luck, r) && (r == Err(NoFunction) ==> KeyOf(world, req) in memory)
      ensures NUL in req.fnName ==> r.Err? && r.error != NoFunction
      ensures Quiet(others) && KeyOf(world, req) !in old(memory) ==> MadeAlone(req, luck, r)
    {
      at := 0;
      var hit := ReadMemory(t, req, luck.found);
      if hit.Some? {
        CleanKey(req);
        r := if luck.found then Ok(hit.value) else Err(NoFunction);
      } else {
        ghost var missed, v := trace, View();
        r := AfterMiss(t, req, luck, others);
        if Quiet(others) { AloneMissed(world, old(View()), v, View(), req, luck, r); }
        at := HowItEnded(world, missed, trace, t, req, luck, r);
        if r.Ok? || r == Err(NoFunction) { CleanKey(req); }
      }
      if r.Ok? && Determined(world) && Single() { Faithful(req, r.value); }
    }
  }
}
