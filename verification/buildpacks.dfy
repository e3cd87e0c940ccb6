/** buildpack_manager.go and git_buildpack.go: installing buildpacks from archives, with a git
    clone as the fallback for what is not a zip file. */
module Buildpacks {
  import opened Prelude
  import opened FileSystem
  import opened Models
  import opened Errors
  import opened World
  import opened Unzip

  // ----- What an installation does, one call to the machine at a time

  datatype Action =
    | MadeTemp(dir: Path, ok: bool)
    | Fetched(internal: bool, url: string, bytes: Option<Bytes>)
    | WroteZip(file: Path, zip: Bytes, ok: bool)
    | MadeDest(dest: Path, ok: bool)
    | Extracted(file: Path, dest: Path, ok: bool)
    | Removed(path: Path)
    | Cloned(args: seq<Arg>, ok: bool)

  /** An action, and the file systems before and after it. */
  datatype Deed = Deed(act: Action, before: FS, after: FS)

  /** The deed is the machine's doing. A failed call that is not a fault has its reason in the file
      system. */
  ghost predicate Happened(env: Env, limit: int, d: Deed) {
    match d.act
    case MadeTemp(dir, ok) =>
      && (exists tick :: dir == env.TempPath(tick))
      && if ok then CanTempDir(env, d.before, dir) && d.after == d.before[dir := Dir]
         else d.after == d.before && (Quiet(env) ==> !CanTempDir(env, d.before, dir))
    case Fetched(internal, url, bytes) =>
      d.after == d.before && exists tick :: env.fetch(tick, internal, url) == bytes
    case WroteZip(file, zip, ok) =>
      WriteHappened(env, file, zip, ok, d.before, d.after)
    case MadeDest(dest, ok) =>
      if ok then CanMkdirs(d.before, dest) && d.after == Mkdirs(d.before, dest)
      else (d.after == d.before || exists q :: q <= dest && d.after == Mkdirs(d.before, q))
           && (Quiet(env) ==> !CanMkdirs(d.before, dest))
    case Extracted(file, dest, ok) =>
      Extraction(env, limit, Entries(env, d.before, file), dest, ok, d.before, d.after)
    case Removed(p) =>
      && (forall q :: !(p <= q) ==> At(d.after, q) == At(d.before, q))
      && (Quiet(env) ==> d.after == Pruned(d.before, p))
    case Cloned(args, ok) =>
      exists tick, output :: env.git(tick, args, d.before) == Outcome(ok, output, d.after)
  }

  ghost predicate WriteHappened(env: Env, file: Path, bytes: Bytes, ok: bool, before: FS, after: FS) {
    if ok then CanWrite(before, file) && after == before[file := File(bytes)]
    else (after == before || exists part :: after == before[file := File(part)])
         && (Quiet(env) ==> !CanWrite(before, file))
  }

  /** These deeds, each starting where the one before it ended, lead from one file system to the
      other. */
  ghost predicate Did(env: Env, limit: int, fs0: FS, deeds: seq<Deed>, fs1: FS) {
    && (forall i :: 0 <= i < |deeds| ==> Happened(env, limit, deeds[i]))
    && (forall i {:trigger StateAt(fs0, deeds, i)} :: 0 <= i < |deeds| ==>
          deeds[i].before == StateAt(fs0, deeds, i))
    && fs1 == StateAt(fs0, deeds, |deeds|)
  }

  /** The file system after the first n deeds. */
  function StateAt(fs0: FS, deeds: seq<Deed>, n: nat): FS
    requires n <= |deeds|
  {
    if n == 0 then fs0 else deeds[n - 1].after
  }

  // ----- The order in which it does it

  /** One buildpack to install. `repo` is none if its URL does not parse or there is no git. */
  datatype Task = Task(url: string, repo: Option<Url>, dest: Path)

  datatype Stage =
    | Begun
    | InTemp(dir: Path)
    | Refused(dir: Path)
    | Holding(dir: Path, zip: Bytes)
    | Stored(file: Path, zip: Bytes)
    | Ready(file: Path, zip: Bytes)
    | Closing(file: Path, ok: bool, notZip: bool)
    | Cloning
    | Clearing
    | Recloning
    | Over(ok: bool, notZip: bool)
    | Astray

  function CloneArgs(shallow: bool, url: Url, dest: Path): seq<Arg> {
    [Flag("clone")]
    + (if shallow then [Flag("--depth"), Flag("1")] else [])
    + [Flag("--recursive"), Flag(url.base), Dest(dest)]
    + (if url.fragment != "" then [Flag("-b"), Flag(url.fragment)] else [])
  }

  /** What comes after an archive that could not be extracted. */
  function Fallback(task: Task): Stage {
    if task.repo.Some? then Cloning else Over(false, true)
  }

  function Next(task: Task, s: Stage, a: Action): Stage {
    match s
    case Begun => if a.MadeTemp? then (if a.ok then InTemp(a.dir) else Over(false, false)) else Astray
    case InTemp(dir) =>
      if a.Fetched? && a.internal && a.url == task.url
      then (if a.bytes.Some? then Holding(dir, a.bytes.value) else Refused(dir)) else Astray
    case Refused(dir) =>
      if a.Fetched? && !a.internal && a.url == task.url
      then (if a.bytes.Some? then Holding(dir, a.bytes.value) else Over(false, false)) else Astray
    case Holding(dir, zip) =>
      if a.WroteZip? && dir < a.file && a.zip == zip
      then (if a.ok then Stored(a.file, zip) else Closing(a.file, false, false)) else Astray
    case Stored(file, zip) =>
      if a.MadeDest? && a.dest == task.dest
      then (if a.ok then Ready(file, zip) else Closing(file, false, false)) else Astray
    case Ready(file, _) =>
      if a.Extracted? && a.file == file && a.dest == task.dest then Closing(file, a.ok, !a.ok) else Astray
    case Closing(file, ok, notZip) =>
      if a == Removed(file) then (if notZip then Fallback(task) else Over(ok, false)) else Astray
    case Cloning =>
      if a.Cloned? && task.repo.Some? && a.args == CloneArgs(true, task.repo.value, task.dest)
      then (if a.ok then Over(true, true) else Clearing) else Astray
    case Clearing => if a == Removed(task.dest) then Recloning else Astray
    case Recloning =>
      if a.Cloned? && task.repo.Some? && a.args == CloneArgs(false, task.repo.value, task.dest)
      then Over(a.ok, true) else Astray
    case _ => Astray
  }

  /** The stage these deeds lead to from the given one. */
  function Stages(task: Task, s: Stage, deeds: seq<Deed>): Stage {
    if deeds == [] then s
    else Next(task, Stages(task, s, deeds[..|deeds| - 1]), deeds[|deeds| - 1].act)
  }

  lemma NothingDone(env: Env, limit: int, task: Task, s: Stage, fs: FS)
    ensures Did(env, limit, fs, [], fs) && Stages(task, s, []) == s
  {
  }

  lemma Add(env: Env, limit: int, task: Task, s: Stage, fs0: FS, deeds: seq<Deed>, d: Deed)
    returns (more: seq<Deed>)
    requires Did(env, limit, fs0, deeds, d.before) && Happened(env, limit, d)
    ensures more == deeds + [d] && Did(env, limit, fs0, more, d.after)
    ensures Stages(task, s, more) == Next(task, Stages(task, s, deeds), d.act)
  {
    hide Happened, Next;
    more := deeds + [d];
    assert more[..|deeds|] == deeds;
    forall i | 0 <= i <= |deeds|
      ensures more[i].before == StateAt(fs0, more, i)
    {
      assert StateAt(fs0, more, i) == StateAt(fs0, deeds, i);
    }
  }

  lemma DidFront(env: Env, limit: int, fs0: FS, deeds: seq<Deed>, fs1: FS)
    requires Did(env, limit, fs0, deeds, fs1) && deeds != []
    ensures var d := deeds[|deeds| - 1];
            Did(env, limit, fs0, deeds[..|deeds| - 1], d.before) && Happened(env, limit, d) && d.after == fs1
  {
    hide Happened;
    var front := deeds[..|deeds| - 1];
    forall i | 0 <= i <= |front|
      ensures deeds[i].before == StateAt(fs0, front, i)
    {
      assert StateAt(fs0, front, i) == StateAt(fs0, deeds, i);
    }
  }

  lemma {:induction false} Concat(env: Env, limit: int, task: Task, s: Stage, fs0: FS, a: seq<Deed>, fs1: FS,
                                  b: seq<Deed>, fs2: FS)
    requires Did(env, limit, fs0, a, fs1) && Did(env, limit, fs1, b, fs2)
    ensures Did(env, limit, fs0, a + b, fs2)
    ensures Stages(task, s, a + b) == Stages(task, Stages(task, s, a), b)
  {
    hide Happened, Next, Did;
    if b == [] {
      assert fs1 == fs2 by { NoDeeds(env, limit, fs1, fs2); }
      assert a + b == a;
    } else {
      var front, d := b[..|b| - 1], b[|b| - 1];
      DidFront(env, limit, fs1, b, fs2);
      Concat(env, limit, task, s, fs0, a, fs1, front, d.before);
      var more := Add(env, limit, task, s, fs0, a + front, d);
      assert more == a + b;
    }
  }

  lemma NoDeeds(env: Env, limit: int, fs0: FS, fs1: FS)
    requires Did(env, limit, fs0, [], fs1)
    ensures fs0 == fs1
  {
  }

  /** The stages from a zip in memory to the end of its use. */
  lemma UnpackStages(task: Task, dir: Path, file: Path, zip: Bytes)
    requires dir < file
    ensures Next(task, Holding(dir, zip), WroteZip(file, zip, true)) == Stored(file, zip)
    ensures Next(task, Holding(dir, zip), WroteZip(file, zip, false)) == Closing(file, false, false)
    ensures Next(task, Stored(file, zip), MadeDest(task.dest, true)) == Ready(file, zip)
    ensures Next(task, Stored(file, zip), MadeDest(task.dest, false)) == Closing(file, false, false)
    ensures forall ok :: Next(task, Ready(file, zip), Extracted(file, task.dest, ok)) == Closing(file, ok, !ok)
    ensures forall ok :: Next(task, Closing(file, ok, false), Removed(file)) == Over(ok, false)
    ensures Next(task, Closing(file, false, true), Removed(file)) == Fallback(task)
  {
  }

  lemma ZipErrors()
    ensures forall err :: IsNotZip(NotZipFile(err))
  {
  }

  lemma OtherError(err: Error)
    requires err.Plain? || (err.Formatted? && err.inner.Plain?)
    ensures !IsNotZip(err)
  {
  }

  /** The stages of cloning. */
  lemma CloneStages(task: Task)
    ensures task.repo.Some? ==>
              Next(task, Cloning, Cloned(CloneArgs(true, task.repo.value, task.dest), true)) == Over(true, true)
    ensures task.repo.Some? ==>
              Next(task, Cloning, Cloned(CloneArgs(true, task.repo.value, task.dest), false)) == Clearing
    ensures Next(task, Clearing, Removed(task.dest)) == Recloning
    ensures task.repo.Some? ==> forall ok ::
              Next(task, Recloning, Cloned(CloneArgs(false, task.repo.value, task.dest), ok)) == Over(ok, true)
  {
  }

  lemma CloneWords(shallow: bool, repo: Url, dest: Path, args: seq<Arg>)
    requires args == (if shallow then [Flag("--depth"), Flag("1")] else [])
                     + [Flag("--recursive"), Flag(repo.base), Dest(dest)]
    ensures [Flag("clone")] + args + (if repo.fragment != "" then [Flag("-b"), Flag(repo.fragment)] else [])
         == CloneArgs(shallow, repo, dest)
  {
  }

  lemma TempHappened(env: Env, limit: int, tick: nat, ok: bool, before: FS, after: FS)
    requires if ok then CanTempDir(env, before, env.TempPath(tick)) && after == before[env.TempPath(tick) := Dir]
             else after == before && (Quiet(env) ==> !CanTempDir(env, before, env.TempPath(tick)))
    ensures Happened(env, limit, Deed(MadeTemp(env.TempPath(tick), ok), before, after))
  {
  }

  lemma FetchHappened(env: Env, limit: int, tick: nat, internal: bool, url: string, fs: FS)
    ensures Happened(env, limit, Deed(Fetched(internal, url, env.fetch(tick, internal, url)), fs, fs))
  {
  }

  lemma WriteDeed(env: Env, limit: int, file: Path, zip: Bytes, ok: bool, before: FS, after: FS)
    requires WriteHappened(env, file, zip, ok, before, after)
    ensures Happened(env, limit, Deed(WroteZip(file, zip, ok), before, after))
  {
  }

  lemma DestHappened(env: Env, limit: int, dest: Path, ok: bool, before: FS, after: FS)
    requires if ok then CanMkdirs(before, dest) && after == Mkdirs(before, dest)
             else (after == before || exists q :: q <= dest && after == Mkdirs(before, q))
                  && (Quiet(env) ==> !CanMkdirs(before, dest))
    ensures Happened(env, limit, Deed(MadeDest(dest, ok), before, after))
  {
  }

  lemma ExtractionDeed(env: Env, limit: int, file: Path, dest: Path, ok: bool, before: FS, after: FS)
    requires Extraction(env, limit, Entries(env, before, file), dest, ok, before, after)
    ensures Happened(env, limit, Deed(Extracted(file, dest, ok), before, after))
  {
  }

  lemma RemovalHappened(env: Env, limit: int, p: Path, before: FS, after: FS)
    requires forall q :: !(p <= q) ==> At(after, q) == At(before, q)
    requires Quiet(env) ==> after == Pruned(before, p)
    ensures Happened(env, limit, Deed(Removed(p), before, after))
  {
  }

  lemma CloneHappened(env: Env, limit: int, tick: nat, args: seq<Arg>, before: FS, o: Outcome)
    requires env.git(tick, args, before) == o
    ensures Happened(env, limit, Deed(Cloned(args, o.ok), before, o.fs))
  {
    assert o == Outcome(o.ok, o.output, o.fs);
  }

  /** One buildpack's installation, and the file systems before and after it. */
  datatype Installed = Installed(before: FS, deeds: seq<Deed>, ok: bool, after: FS)

  function TaskOf(env: Env, buildpack: Buildpack, dest: Path): Task {
    Task(buildpack.url, if env.hasGit then env.parseUrl(buildpack.url) else None, dest)
  }

  function PathOf(env: Env, dir: Path, name: string): Path {
    dir + [Hex(env.codecs.md5(name))]
  }

  /** The whole protocol was followed, from its beginning to its end. */
  ghost predicate Installation(env: Env, limit: int, task: Task, r: Installed) {
    && Did(env, limit, r.before, r.deeds, r.after)
    && var s := Stages(task, Begun, r.deeds); s.Over? && s.ok == r.ok
  }

  /** Buildpacks are installed in order, each where the one before it ended; after one that failed
      there is none. */
  ghost predicate Installations(env: Env, limit: int, dir: Path, buildpacks: seq<Buildpack>, fs0: FS,
                                done: seq<Installed>)
  {
    && |done| <= |buildpacks|
    && (forall i :: 0 <= i < |done| ==>
          && Installation(env, limit, TaskOf(env, buildpacks[i], PathOf(env, dir, buildpacks[i].name)), done[i])
          && (done[i].ok || i == |done| - 1))
    && (forall i {:trigger FsAt(fs0, done, i)} :: 0 <= i < |done| ==> done[i].before == FsAt(fs0, done, i))
  }

  function FsAt(fs0: FS, done: seq<Installed>, n: nat): FS
    requires n <= |done|
  {
    if n == 0 then fs0 else done[n - 1].after
  }

  lemma NextInstalled(env: Env, limit: int, dir: Path, buildpacks: seq<Buildpack>, fs0: FS, done: seq<Installed>,
                      r: Installed)
    requires |done| < |buildpacks| && AllOk(done) && r.before == FsAt(fs0, done, |done|)
    requires Installations(env, limit, dir, buildpacks, fs0, done)
    requires Installation(env, limit,
                          TaskOf(env, buildpacks[|done|], PathOf(env, dir, buildpacks[|done|].name)), r)
    ensures Installations(env, limit, dir, buildpacks, fs0, done + [r])
    ensures r.ok <==> AllOk(done + [r])
  {
    hide Installation, PathOf, TaskOf;
    var more := done + [r];
    assert forall i :: 0 <= i < |done| ==> more[i] == done[i];
    assert more[|done|] == r;
    forall i | 0 <= i <= |done|
      ensures more[i].before == FsAt(fs0, more, i)
    {
      assert FsAt(fs0, more, i) == FsAt(fs0, done, i);
    }
  }

  predicate AllOk(done: seq<Installed>) {
    forall i :: 0 <= i < |done| ==> done[i].ok
  }

  /** All buildpacks of the JSON text, and then config.json; nothing after a failure. */
  ghost predicate Managed(env: Env, limit: int, dir: Path, json: string, fs0: FS, done: seq<Installed>, ok: bool,
                          fs1: FS)
  {
    var decoded := env.codecs.buildpacks(json);
    if decoded.None? then !ok && done == [] && fs1 == fs0
    else
      && Installations(env, limit, dir, decoded.value, fs0, done) && (|done| < |decoded.value| ==> !AllOk(done))
      && var installed := FsAt(fs0, done, |done|);
         if AllOk(done) then
           WriteHappened(env, dir + ["config.json"], env.codecs.encodeBuildpacks(decoded.value), ok, installed, fs1)
         else !ok && fs1 == installed
  }

  /** One shallow clone; if it fails, one that is not, after removing what it left. */
  method GitClone(world: World, ghost limit: int, repo: Url, destination: Path, ghost task: Task)
    returns (err: Option<Error>, ghost deeds: seq<Deed>)
    requires world.env.hasGit ==> task.repo == Some(repo) && task.dest == destination
    modifies world
    ensures world.log == old(world.log)
    ensures Did(world.env, limit, old(world.fs), deeds, world.fs)
    ensures !world.env.hasGit ==> err.Some? && deeds == []
    ensures world.env.hasGit ==> Stages(task, Cloning, deeds) == Over(err.None?, true)
    ensures err.Some? ==> !IsNotZip(err.value)
  {
    hide *;
    ghost var env, fs0, before, tick := world.env, world.fs, world.fs, world.clock;
    deeds := [];
    NothingDone(env, limit, task, Cloning, fs0);
    CloneStages(task);
    if !world.env.hasGit {
      err := Some(Formatted("could not find `git` in path", Plain("git")));
      OtherError(err.value);
      return;
    }
    var args := [Flag("--depth"), Flag("1"), Flag("--recursive"), Flag(repo.base), Dest(destination)];
    CloneWords(true, repo, destination, args);
    var o := PerformGitClone(world, args, repo.fragment);
    CloneHappened(env, limit, tick, CloneArgs(true, repo, destination), before, o);
    deeds := Add(env, limit, task, Cloning, fs0, deeds,
                 Deed(Cloned(CloneArgs(true, repo, destination), o.ok), before, world.fs));
    if !o.ok {
      before := world.fs;
      var _ := world.RemoveAll(destination);
      RemovalHappened(env, limit, destination, before, world.fs);
      deeds := Add(env, limit, task, Cloning, fs0, deeds, Deed(Removed(destination), before, world.fs));
      before, tick := world.fs, world.clock;
      args := [Flag("--recursive"), Flag(repo.base), Dest(destination)];
      CloneWords(false, repo, destination, args);
      o := PerformGitClone(world, args, repo.fragment);
      CloneHappened(env, limit, tick, CloneArgs(false, repo, destination), before, o);
      deeds := Add(env, limit, task, Cloning, fs0, deeds,
                   Deed(Cloned(CloneArgs(false, repo, destination), o.ok), before, world.fs));
      if !o.ok {
        err := Some(Plain("failed to clone git repository"));
        OtherError(err.value);
        return;
      }
    }
    return None, deeds;
  }

  method PerformGitClone(world: World, args: seq<Arg>, branch: string) returns (o: Outcome)
    modifies world
    ensures world.log == old(world.log)
    ensures o == world.env.git(old(world.clock),
                               [Flag("clone")] + args + (if branch != "" then [Flag("-b"), Flag(branch)] else []),
                               old(world.fs))
    ensures world.fs == o.fs
  {
    var full := [Flag("clone")] + args;
    if branch != "" {
      full := full + [Flag("-b"), Flag(branch)];
    }
    assert full == [Flag("clone")] + args + (if branch != "" then [Flag("-b"), Flag(branch)] else []);
    o := world.RunGit(full);
  }

  class BuildpackManager {
    const unzipper: Unzipper
    const buildpackDir: Path
    const buildpacksJSON: string

    constructor (buildpackDir: Path, buildpacksJSON: string)
      ensures this.buildpackDir == buildpackDir && this.buildpacksJSON == buildpacksJSON
      ensures unzipper.unzippedSizeLimit == 10 * 1024 * 1024 * 1024
    {
      this.buildpackDir, this.buildpacksJSON := buildpackDir, buildpacksJSON;
      unzipper := new Unzipper(10 * 1024 * 1024 * 1024);
    }

    /** `done` accounts for each buildpack that was started. */
    method Install(world: World) returns (err: Option<Error>, ghost done: seq<Installed>)
      modifies world
      ensures world.log == old(world.log)
      ensures Managed(world.env, unzipper.unzippedSizeLimit, buildpackDir, buildpacksJSON, old(world.fs), done,
                      err.None?, world.fs)
    {
      hide Installation, PathOf, TaskOf, WriteHappened;
      done := [];
      var decoded := world.env.codecs.buildpacks(buildpacksJSON);
      if decoded.None? {
        return Some(Formatted("Error unmarshaling environment variable", Plain("json"))), done;
      }
      var buildpacks := decoded.value;
      for i := 0 to |buildpacks|
        invariant |done| == i && AllOk(done) && world.fs == FsAt(old(world.fs), done, i)
        invariant world.log == old(world.log)
        invariant Installations(world.env, unzipper.unzippedSizeLimit, buildpackDir, buildpacks, old(world.fs), done)
      {
        ghost var r;
        err, r := InstallOne(world, buildpacks[i]);
        NextInstalled(world.env, unzipper.unzippedSizeLimit, buildpackDir, buildpacks, old(world.fs), done, r);
        done := done + [r];
        if err.Some? {
          return Some(Formatted("installing buildpack", err.value)), done;
        }
      }
      err := WriteBuildpackJSON(world, buildpacks);
    }

    method InstallOne(world: World, buildpack: Buildpack) returns (err: Option<Error>, ghost r: Installed)
      modifies world
      ensures world.log == old(world.log)
      ensures r.before == old(world.fs) && r.after == world.fs && (r.ok <==> err.None?)
      ensures Installation(world.env, unzipper.unzippedSizeLimit,
                           TaskOf(world.env, buildpack, PathOf(world.env, buildpackDir, buildpack.name)), r)
    {
      hide Did;
      var destination := PathOf(world.env, buildpackDir, buildpack.name);
      ghost var fs0, clones := world.fs, [];
      ghost var deeds;
      ghost var task := TaskOf(world.env, buildpack, destination);
      err, deeds := InstallFromArchive(world, buildpack, destination);
      r := Installed(fs0, deeds, err.None?, world.fs);
      if err.None? {
        return;
      }
      if !IsNotZip(err.value) {
        return;
      }
      var url := world.env.parseUrl(buildpack.url);
      if url.None? {
        return Some(Formatted("invalid buildpack url", Plain("url"))), r;
      }
      err, clones := GitClone(world, unzipper.unzippedSizeLimit, url.value, destination, task);
      Concat(world.env, unzipper.unzippedSizeLimit, task, Begun, fs0, deeds, r.after, clones, world.fs);
      r := Installed(fs0, deeds + clones, err.None?, world.fs);
    }

    /** A failed extraction, and nothing else, is reported as not being a zip file. */
    method InstallFromArchive(world: World, buildpack: Buildpack, buildpackPath: Path)
      returns (err: Option<Error>, ghost deeds: seq<Deed>)
      modifies world
      ensures world.log == old(world.log)
      ensures Did(world.env, unzipper.unzippedSizeLimit, old(world.fs), deeds, world.fs)
      ensures var task := TaskOf(world.env, buildpack, buildpackPath);
              Stages(task, Begun, deeds) == if err.Some? && IsNotZip(err.value) then Fallback(task)
                                           else Over(err.None?, false)
    {
      hide Did, Happened, CanTempDir, Stages;
      ghost var env, limit, fs0 := world.env, unzipper.unzippedSizeLimit, world.fs;
      ghost var task := TaskOf(env, buildpack, buildpackPath);
      deeds := [];
      NothingDone(env, limit, task, Begun, fs0);
      ghost var tick := world.clock;
      var tmpDir := world.TempDir();
      TempHappened(env, limit, tick, tmpDir.Some?, fs0, world.fs);
      deeds := Add(env, limit, task, Begun, fs0, deeds,
                   Deed(MadeTemp(env.TempPath(tick), tmpDir.Some?), fs0, world.fs));
      if tmpDir.None? {
        return Some(Formatted("temp dir creation failed", Plain("mkdir"))), deeds;
      }
      tick := world.clock;
      var bytes := world.Fetch(true, buildpack.url);
      FetchHappened(env, limit, tick, true, buildpack.url, world.fs);
      deeds := Add(env, limit, task, Begun, fs0, deeds, Deed(Fetched(true, buildpack.url, bytes), world.fs, world.fs));
      if bytes.None? {
        tick := world.clock;
        bytes := world.Fetch(false, buildpack.url);
        FetchHappened(env, limit, tick, false, buildpack.url, world.fs);
        deeds := Add(env, limit, task, Begun, fs0, deeds,
                     Deed(Fetched(false, buildpack.url, bytes), world.fs, world.fs));
        if bytes.None? {
          return Some(Annotated("default client also failed", Plain("get"))), deeds;
        }
      }
      ghost var fetched, unpacked, at := world.fs, [], Stages(task, Begun, deeds);
      var fileName := tmpDir.value + [world.env.tempName(world.clock)];
      err, unpacked := Unpack(world, fileName, bytes.value, buildpackPath, task, tmpDir.value);
      Concat(env, limit, task, Begun, fs0, deeds, fetched, unpacked, world.fs);
      deeds := deeds + unpacked;
    }

    /** The part of installFromArchive that works with the downloaded zip, which it removes again
        whatever happens. */
    method Unpack(world: World, fileName: Path, zip: Bytes, dest: Path, ghost task: Task, ghost dir: Path)
      returns (err: Option<Error>, ghost deeds: seq<Deed>)
      requires dest == task.dest && dir < fileName
      modifies world
      ensures world.log == old(world.log)
      ensures Did(world.env, unzipper.unzippedSizeLimit, old(world.fs), deeds, world.fs)
      ensures Stages(task, Holding(dir, zip), deeds)
              == if err.Some? && IsNotZip(err.value) then Fallback(task) else Over(err.None?, false)
    {
      hide *;
      UnpackStages(task, dir, fileName, zip);
      ZipErrors();
      ghost var env, limit, fs0 := world.env, unzipper.unzippedSizeLimit, world.fs;
      ghost var s, before := Holding(dir, zip), world.fs;
      deeds := [];
      NothingDone(env, limit, task, s, fs0);
      var ok := world.WriteFile(fileName, zip);
      WriteDeed(env, limit, fileName, zip, ok, before, world.fs);
      deeds := Add(env, limit, task, s, fs0, deeds, Deed(WroteZip(fileName, zip, ok), before, world.fs));
      if !ok {
        deeds := RemoveZip(world, fileName, task, s, fs0, deeds);
        err := Some(Formatted("failed to write buildpack zip", Plain("write")));
        OtherError(err.value);
        return;
      }
      before := world.fs;
      ok := world.MkdirAll(dest);
      DestHappened(env, limit, dest, ok, before, world.fs);
      deeds := Add(env, limit, task, s, fs0, deeds, Deed(MadeDest(dest, ok), before, world.fs));
      if !ok {
        deeds := RemoveZip(world, fileName, task, s, fs0, deeds);
        err := Some(Formatted("failed to create buildpack directory", Plain("mkdir")));
        OtherError(err.value);
        return;
      }
      before := world.fs;
      err := unzipper.Extract(world, fileName, dest);
      ExtractionDeed(env, limit, fileName, dest, err.None?, before, world.fs);
      deeds := Add(env, limit, task, s, fs0, deeds, Deed(Extracted(fileName, dest, err.None?), before, world.fs));
      deeds := RemoveZip(world, fileName, task, s, fs0, deeds);
      if err.Some? {
        return Some(NotZipFile(err.value)), deeds;
      }
    }

    /** The deferred removal of the zip; its error is dropped. */
    method RemoveZip(world: World, fileName: Path, ghost task: Task, ghost s: Stage, ghost fs0: FS,
                     ghost deeds: seq<Deed>)
      returns (ghost more: seq<Deed>)
      requires Did(world.env, unzipper.unzippedSizeLimit, fs0, deeds, world.fs)
      modifies world
      ensures world.log == old(world.log)
      ensures Did(world.env, unzipper.unzippedSizeLimit, fs0, more, world.fs)
      ensures Stages(task, s, more) == Next(task, Stages(task, s, deeds), Removed(fileName))
    {
      hide Did, Happened, Stages, Next, Pruned;
      ghost var before := world.fs;
      var _ := world.RemoveAll(fileName);
      RemovalHappened(world.env, unzipper.unzippedSizeLimit, fileName, before, world.fs);
      more := Add(world.env, unzipper.unzippedSizeLimit, task, s, fs0, deeds,
                  Deed(Removed(fileName), before, world.fs));
    }

    method WriteBuildpackJSON(world: World, buildpacks: seq<Buildpack>) returns (err: Option<Error>)
      modifies world
      ensures world.log == old(world.log)
      ensures WriteHappened(world.env, buildpackDir + ["config.json"],
                            world.env.codecs.encodeBuildpacks(buildpacks), err.None?, old(world.fs), world.fs)
    {
      var ok := world.WriteFile(buildpackDir + ["config.json"], world.env.codecs.encodeBuildpacks(buildpacks));
      return if ok then None else Some(Formatted("failed to write config file", Plain("write")));
    }
  }
}
