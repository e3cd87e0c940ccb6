/** The machine a build runs on. Everything the program cannot see into is an oracle in `Env`:
    buildpack scripts, system-call faults, temporary names, codecs. Oracles that may answer
    differently each time are indexed by a clock that ticks at every call. */
module World {
  import opened Prelude
  import opened FileSystem
  import opened Models

  /** One run of a buildpack script, with the arguments it is given. */
  datatype Invocation =
    | Supply(bp: Path, build: Path, cache: Path, deps: Path, idx: string)
    | Finalize(bp: Path, build: Path, cache: Path, deps: Path, idx: string, profile: Path)
    | Compile(bp: Path, build: Path, cache: Path)
    | Detect(bp: Path, build: Path)
    | Release(bp: Path, build: Path)

  datatype Outcome = Outcome(ok: bool, output: string, fs: FS)

  /** One script run, with the file systems before and after it. */
  datatype Event = Event(inv: Invocation, before: FS, ok: bool, output: string, after: FS)

  /** A failing call may leave some of its work done: the paths in `residue`, or a partly written
      file. */
  datatype Fault = Fault(residue: set<Path>, partial: Bytes)

  /** One entry of a zip file. `intact` is false when its data cannot be read to the end. */
  datatype ZipEntry = ZipEntry(name: Path, isDir: bool, opens: bool, bytes: Bytes, intact: bool)

  /** A command-line argument: a word, or a path. */
  datatype Arg = Flag(text: string) | Dest(path: Path)

  datatype Url = Url(base: string, fragment: string)

  /** What the body of an HTTP response delivers: chunks, then end of file or an error. */
  datatype Stream = Stream(chunks: seq<Bytes>, endsCleanly: bool, endsWithLast: bool)
  datatype Response = Response(status: int, body: Stream)

  /** Digests, and the text and archive formats. Decoders return None for a parse error. */
  datatype Codecs = Codecs(
    md5: string -> Md5Sum,
    log10: nat -> nat,
    configYml: Bytes -> Option<(string, string)>,
    procfile: Bytes -> Option<map<string, string>>,
    release: string -> Option<ProcessTypes>,
    buildpacks: string -> Option<seq<Buildpack>>,
    encodeBuildpacks: seq<Buildpack> -> Bytes,
    encodeInfo: StagingInfo -> Bytes,
    decodeInfo: Bytes -> Option<StagingInfo>,
    encodeAnnotation: string -> string,
    encodeResult: StagingResult<seq<BuildpackMetadata>> -> Bytes,
    decodeResult: Bytes -> Option<StagingResult<seq<BuildpackMetadata>>>,
    tar: Tree -> Bytes,
    untar: Bytes -> Option<Tree>,
    unzip: Bytes -> Option<seq<ZipEntry>>)

  /** What is written is read back as it was. */
  ghost predicate RoundTrips(codecs: Codecs) {
    && (forall info :: codecs.decodeInfo(codecs.encodeInfo(info)) == Some(info))
    && (forall result :: codecs.decodeResult(codecs.encodeResult(result)) == Some(result))
    && (forall tree :: codecs.untar(codecs.tar(tree)) == Some(tree))
  }

  datatype Env = Env(
    codecs: Codecs,
    script: (nat, Invocation, FS) -> Outcome,
    fault: nat -> Option<Fault>,
    unreadable: Path -> bool,
    tempDir: Path,
    tempName: nat -> string,
    hasTar: bool,
    hasGit: bool,
    parseUrl: string -> Option<Url>,
    fetch: (nat, bool, string) -> Option<Bytes>,
    get: (nat, string) -> Option<Response>,
    git: (nat, seq<Arg>, FS) -> Outcome) {

    /** The directory that a temporary directory made at this moment would be. */
    function TempPath(tick: nat): Path {
      tempDir + [tempName(tick)]
    }

    /** No temporary directory contains this path or lies beneath it. */
    ghost predicate TempApart(p: Path) {
      forall tick :: Apart(TempPath(tick), p)
    }
  }

  /** The assumption on git: it changes nothing apart from the paths it is given and those above
      or beneath them. */
  ghost predicate ConfinedGit(env: Env) {
    forall tick, args, fs, q :: (forall d :: Dest(d) in args ==> Apart(d, q)) ==>
      At(env.git(tick, args, fs).fs, q) == At(fs, q)
  }

  /** No system call fails without a reason in the file system. */
  ghost predicate Quiet(env: Env) {
    forall tick :: env.fault(tick) == None
  }

  datatype StatResult = Found | Missing | Broken

  /** `os.Stat`. A path beneath a file, or one that cannot be read, is an error other than
      "does not exist". */
  function Stat(env: Env, fs: FS, p: Path): StatResult {
    if env.unreadable(p) then Broken
    else if p in fs then Found
    else if exists q :: q in Prefixes(p) && q in fs && fs[q].File? then Broken
    else Missing
  }

  datatype ReadResult = Contents(bytes: Bytes) | NoSuchFile | Unreadable

  /** `ioutil.ReadFile`. */
  function ReadFile(env: Env, fs: FS, p: Path): ReadResult {
    match Stat(env, fs, p)
    case Found => if fs[p].File? then Contents(fs[p].bytes) else Unreadable
    case Missing => NoSuchFile
    case Broken => Unreadable
  }

  /** `ioutil.ReadDir`: None is an error. */
  function ReadDir(env: Env, fs: FS, p: Path): Option<set<string>> {
    if At(fs, p) == Some(Dir) && !env.unreadable(p) then Some(Names(fs, p)) else None
  }

  predicate CanWrite(fs: FS, p: Path) {
    p != [] && At(fs, Parent(p)) == Some(Dir) && At(fs, p) != Some(Dir)
  }

  predicate Fresh(fs: FS, p: Path) {
    forall q :: q in fs ==> !(p <= q)
  }

  predicate CanTempDir(env: Env, fs: FS, p: Path) {
    At(fs, env.tempDir) == Some(Dir) && Fresh(fs, p)
  }

  predicate CanCopy(fs: FS, src: Path, dst: Path) {
    var target := CopyTarget(fs, src, dst);
    && src in fs && target != [] && At(fs, Parent(target)) == Some(Dir)
    && forall q :: q in Snapshot(fs, src) && target + q in fs ==>
         (fs[target + q].Dir? <==> Snapshot(fs, src)[q].Dir?)
  }

  predicate CanTar(fs: FS, dir: Path, out: Path) {
    At(fs, dir) == Some(Dir) && CanWrite(fs, out)
  }

  lemma CannotMkdirs(fs: FS, p: Path, i: nat)
    requires i <= |p| && At(fs, p[..i]).Some? && At(fs, p[..i]).value.File?
    ensures !CanMkdirs(fs, p)
  {
    assert p[..i] in Prefixes(p);
  }

  /** What a fault leaves of a tree. */
  function Part(tree: Tree, paths: set<Path>): Tree {
    map q | q in tree && q in paths :: tree[q]
  }

  class World {
    const env: Env
    var fs: FS
    var clock: nat
    /** Every buildpack script run on this machine so far, in order. */
    ghost var log: seq<Event>

    constructor (env: Env, fs: FS)
      ensures this.env == env && this.fs == fs && log == []
    {
      this.env, this.fs, clock, log := env, fs, 0, [];
    }

    method Tick() returns (fault: Option<Fault>)
      modifies this`clock
      ensures fault == env.fault(old(clock)) && clock == old(clock) + 1
    {
      fault := env.fault(clock);
      clock := clock + 1;
    }

    /** Creates the missing directories from the root down; a failure leaves those above it. */
    method MkdirAll(p: Path) returns (ok: bool)
      modifies this
      ensures log == old(log)
      ensures ok ==> CanMkdirs(old(fs), p) && fs == Mkdirs(old(fs), p)
      ensures !ok ==> fs == old(fs) || exists q :: q <= p && fs == Mkdirs(old(fs), q)
      ensures Quiet(env) ==> (ok <==> CanMkdirs(old(fs), p))
    {
      hide CanMkdirs, Mkdirs;
      for i := 0 to |p| + 1
        invariant log == old(log) && (i == 0 ==> fs == old(fs))
        invariant i > 0 ==> CanMkdirs(old(fs), p[..i - 1]) && fs == Mkdirs(old(fs), p[..i - 1])
      {
        var q := p[..i];
        if i > 0 {
          MkdirsAt(old(fs), p[..i - 1]);
        }
        assert At(fs, q) == At(old(fs), q);
        if q in fs {
          if fs[q].File? {
            CannotMkdirs(old(fs), p, i);
            return false;
          }
        } else {
          var fault := Tick();
          if fault.Some? {
            return false;
          }
          fs := fs[q := Dir];
        }
        MkdirStep(old(fs), p, i);
      }
      assert p[..|p|] == p;
      return true;
    }

    /** Removes `p` and everything beneath it; a failure leaves the paths not in the residue. */
    method RemoveAll(p: Path) returns (ok: bool)
      modifies this
      ensures log == old(log)
      ensures ok ==> fs == Pruned(old(fs), p)
      ensures forall q :: !(p <= q) ==> At(fs, q) == At(old(fs), q)
      ensures Quiet(env) ==> ok
    {
      var fault := Tick();
      if fault.Some? {
        fs := map q | q in fs && !(p <= q && q in fault.value.residue) :: fs[q];
        return false;
      }
      PrunedAt(fs, p);
      fs := Pruned(fs, p);
      return true;
    }

    /** `os.Create` and one write: a failed write leaves part of the file. */
    method WriteFile(p: Path, bytes: Bytes) returns (ok: bool)
      modifies this
      ensures log == old(log)
      ensures ok ==> CanWrite(old(fs), p) && fs == old(fs)[p := File(bytes)]
      ensures !ok ==> fs == old(fs) || exists part :: fs == old(fs)[p := File(part)]
      ensures Quiet(env) ==> (ok <==> CanWrite(old(fs), p))
    {
      var fault := Tick();
      if fault.Some? || !CanWrite(fs, p) {
        return false;
      }
      fault := Tick();
      fs := fs[p := File(if fault.Some? then fault.value.partial else bytes)];
      return fault.None?;
    }

    /** `ioutil.TempDir("", pattern)`. */
    method TempDir() returns (p: Option<Path>)
      modifies this
      ensures log == old(log)
      ensures p.Some? ==> p.value == env.TempPath(old(clock))
      ensures p.Some? ==> CanTempDir(env, old(fs), p.value) && fs == old(fs)[p.value := Dir]
      ensures p.None? ==> fs == old(fs)
      ensures Quiet(env) ==>
                (p.Some? <==> CanTempDir(env, old(fs), env.TempPath(old(clock))))
    {
      var path := env.TempPath(clock);
      var fault := Tick();
      if fault.Some? || !CanTempDir(env, fs, path) {
        return None;
      }
      fs := fs[path := Dir];
      return Some(path);
    }

    method RunScript(inv: Invocation) returns (o: Outcome)
      modifies this
      ensures o == env.script(old(clock), inv, old(fs)) && fs == o.fs
      ensures log == old(log) + [Event(inv, old(fs), o.ok, o.output, fs)]
    {
      o := env.script(clock, inv, fs);
      log := log + [Event(inv, fs, o.ok, o.output, o.fs)];
      clock := clock + 1;
      fs := o.fs;
    }

    method RunGit(args: seq<Arg>) returns (o: Outcome)
      modifies this
      ensures log == old(log)
      ensures o == env.git(old(clock), args, old(fs)) && fs == o.fs
    {
      o := env.git(clock, args, fs);
      clock := clock + 1;
      fs := o.fs;
    }

    /** `OpenBuildpackURL` with one of the two clients. */
    method Fetch(internal: bool, url: string) returns (bytes: Option<Bytes>)
      modifies this`clock
      ensures bytes == env.fetch(old(clock), internal, url)
    {
      bytes := env.fetch(clock, internal, url);
      clock := clock + 1;
    }

    /** `cp -a src dst`. */
    method Copy(src: Path, dst: Path) returns (ok: bool)
      modifies this
      ensures log == old(log)
      ensures ok ==> CanCopy(old(fs), src, dst) && fs == Copied(old(fs), src, dst)
      ensures forall q :: !(dst <= q) ==> At(fs, q) == At(old(fs), q)
      ensures Quiet(env) ==> (ok <==> CanCopy(old(fs), src, dst))
    {
      var fault := Tick();
      if !CanCopy(fs, src, dst) {
        return false;
      }
      var tree := Snapshot(fs, src);
      if fault.Some? {
        PlacedAt(fs, CopyTarget(fs, src, dst), Part(tree, fault.value.residue));
        fs := Placed(fs, CopyTarget(fs, src, dst), Part(tree, fault.value.residue));
        return false;
      }
      PlacedAt(fs, CopyTarget(fs, src, dst), tree);
      fs := Copied(fs, src, dst);
      return true;
    }

    /** `tar -czf out -C dir .` */
    method Tar(dir: Path, out: Path) returns (ok: bool)
      modifies this
      ensures log == old(log)
      ensures ok ==> CanTar(old(fs), dir, out) &&
                     fs == old(fs)[out := File(env.codecs.tar(Snapshot(old(fs), dir)))]
      ensures !ok ==> fs == old(fs) || exists part :: fs == old(fs)[out := File(part)]
      ensures Quiet(env) ==> (ok <==> CanTar(old(fs), dir, out))
    {
      if !CanTar(fs, dir, out) {
        return false;
      }
      ok := WriteFile(out, env.codecs.tar(Snapshot(fs, dir)));
    }

    /** `tar -xzf archive` run in `dir`. */
    method Untar(archive: Path, dir: Path) returns (ok: bool)
      modifies this
      ensures log == old(log)
      ensures ok ==> ReadFile(env, old(fs), archive).Contents? &&
                     env.codecs.untar(ReadFile(env, old(fs), archive).bytes).Some? &&
                     fs == Placed(old(fs), dir,
                                  env.codecs.untar(ReadFile(env, old(fs), archive).bytes).value)
      ensures !ok ==> fs == old(fs) ||
                      (ReadFile(env, old(fs), archive).Contents? &&
                       env.codecs.untar(ReadFile(env, old(fs), archive).bytes).Some? &&
                       exists part :: fs == Placed(old(fs), dir, Part(
                         env.codecs.untar(ReadFile(env, old(fs), archive).bytes).value, part)))
      ensures Quiet(env) ==>
                (ok <==> ReadFile(env, old(fs), archive).Contents? &&
                         env.codecs.untar(ReadFile(env, old(fs), archive).bytes).Some?)
    {
      var contents := ReadFile(env, fs, archive);
      if !contents.Contents? || env.codecs.untar(contents.bytes).None? {
        return false;
      }
      var tree := env.codecs.untar(contents.bytes).value;
      var fault := Tick();
      if fault.Some? {
        fs := Placed(fs, dir, Part(tree, fault.value.residue));
        return false;
      }
      fs := Placed(fs, dir, tree);
      return true;
    }
  }
}
