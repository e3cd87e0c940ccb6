/** builder/runner.go: one staging build. */
module Running {
  import opened Prelude
  import opened FileSystem
  import opened Models
  import opened Errors
  import opened Configuration
  import opened World
  import opened Protocol

  /** The event is what the environment's script did at some moment. */
  ghost predicate Genuine(env: Env, e: Event) {
    exists tick :: env.script(tick, e.inv, e.before) == Outcome(e.ok, e.output, e.after)
  }

  /** Whatever name the contents directory gets, the directories can be made. */
  ghost predicate Roomy(env: Env, config: Settings, fs: FS) {
    forall tick :: Job(env, config, env.TempPath(tick)).CanFurnish(fs)
  }

  lemma OuterDirsFixed(env: Env, config: Settings, d: Path, d': Path)
    ensures Job(env, config, d).OuterDirs() == Job(env, config, d').OuterDirs()
  {
    var a, b := Job(env, config, d), Job(env, config, d');
    assert a.CachePaths(a.Supplies()) == b.CachePaths(b.Supplies());
  }

  lemma RoomyAt(env: Env, config: Settings, fs: FS, tick: nat, d: Path)
    ensures Roomy(env, config, fs) ==>
              var job := Job(env, config, env.TempPath(tick));
              var outer := Job(env, config, d).OuterDirs();
              && job.CanFurnish(fs)
              && CanMkAll(fs, outer)
              && CanTempDir(env, MkAll(fs, outer), job.contentsDir)
              && CanMkAll(MkAll(fs, outer)[job.contentsDir := Dir], job.InnerDirs())
  {
    OuterDirsFixed(env, config, d, env.TempPath(tick));
  }

  class Runner {
    /** The configuration, as it is when the runner is made. */
    const config: Settings
    const world: World
    var depsDir: Path
    var contentsDir: Path
    var profileDir: Path
    /** Directories made and cache cleaned; `start` is the file system then, and `trace` the
        scripts run since. */
    ghost var ready: bool
    ghost var start: FS
    ghost var trace: seq<Event>
    /** The machine's log when the run began. */
    ghost var prior: seq<Event>

    constructor (config: Config, world: World)
      ensures this.config == config.Value() && this.world == world && contentsDir == []
    {
      this.config, this.world := config.Value(), world;
      depsDir, contentsDir, profileDir := [], [], [];
      ready, start, trace, prior := false, map[], [], [];
    }

    function TheJob(): Job
      reads this`contentsDir
    {
      Job(world.env, config, contentsDir)
    }

    ghost function Phase(): Phase
      reads this`contentsDir, this`start, this`trace
    {
      TheJob().Replay(start, trace)
    }

    /** The build has settled on this buildpack. */
    ghost predicate HasChosen(bp: Path)
      reads this, world
    {
      var s := TheJob().Settle(Phase());
      s.Chosen? && s.bp == bp && s.fs == world.fs
    }

    /** The cache directory and deps index of the final buildpack. */
    ghost predicate FinalArguments(cacheDir: Path, depsIdx: string)
      reads this`contentsDir
    {
      cacheDir == TheJob().FinalCache() && depsIdx == TheJob().DepsIndex(TheJob().K())
    }

    ghost function ChosenMeta(): seq<BuildpackMetadata>
      reads this`contentsDir, this`start, this`trace
    {
      var s := TheJob().Settle(Phase());
      if s.Chosen? then s.meta else []
    }

    /** The trace is the scripts run on the machine since the run began, and the directory fields
        agree. */
    ghost predicate Wired()
      reads this, world
    {
      && config.InRange() && world.log == prior + trace
      && depsDir == TheJob().DepsDir() && profileDir == TheJob().ProfileDir()
      && forall i :: 0 <= i < |trace| ==> Genuine(world.env, trace[i])
    }

    method Run() returns (err: Option<Error>)
      requires config.InRange()
      modifies this, world
      ensures !ready ==> err.Some? && AsDescriptive(err.value).None? && trace == [] &&
                         TheJob().FurnishesOnly(old(world.fs), world.fs)
      ensures world.log == old(world.log) + trace
      ensures ready ==> Wired() && TheJob().CanFurnish(old(world.fs)) &&
                        start == TheJob().Prepared(old(world.fs))
      ensures ready ==> TheJob().FurnishesOnly(old(world.fs), start) &&
                        exists tick :: contentsDir == world.env.TempPath(tick)
      ensures ready && err.Some? ==> TheJob().Explains(AsDescriptive(err.value), Phase())
      ensures err.Some? && AsDescriptive(err.value).Some? ==>
                ready && err.value.Descriptive? && TheJob().LeavesAt(Phase(), world.fs)
      ensures ready && err.Some? && AsDescriptive(err.value).None? ==>
                Phase().Released? && TheJob().PackagesOnly(Phase().fs, world.fs)
      ensures err.None? ==> ready && Phase().Released? && TheJob().CanPackage(Phase()) &&
                            world.fs == TheJob().Packaged(Phase())
      ensures ready && config.skipDetect && !TheJob().AllSuppliable(start) ==>
                err.Some? && AsDescriptive(err.value) == Some(225) &&
                trace == [] && world.fs == start
      ensures Quiet(world.env) && Roomy(world.env, config, old(world.fs)) ==> ready
      ensures Quiet(world.env) && ready && Phase().Released? && TheJob().CanPackage(Phase()) ==> err.None?
    {
      hide Job.Explains, Job.Step, Job.Replay, Job.Settle, Job.CanFurnish, Job.Prepared, Job.CanPackage, Roomy;
      hide Job.Packaged, Job.AllSuppliable, Job.LeavesAt, Job.PackagesOnly, Job.FurnishesOnly, Genuine, Env.TempPath;
      hide Job.DepsDir, Job.ProfileDir;
      err := Prepare();
      if err.Some? {
        return;
      }
      var buildpackMetadata, releaseInfo, scriptErr := RunScripts();
      if scriptErr.Some? {
        return scriptErr;
      }
      ReleasedExplains(TheJob(), Phase(), None);
      err := Package(buildpackMetadata, releaseInfo);
    }

    /** The part of Run before the first script: directories made, cache cleaned. */
    method Prepare() returns (err: Option<Error>)
      requires config.InRange()
      modifies this, world
      ensures trace == [] && (ready <==> err.None?) && world.log == prior == old(world.log)
      ensures err.Some? ==> AsDescriptive(err.value).None?
      ensures TheJob().FurnishesOnly(old(world.fs), world.fs)
      ensures err.None? ==> Wired() && TheJob().CanFurnish(old(world.fs)) && world.fs == start &&
                            start == TheJob().Prepared(old(world.fs))
      ensures err.None? ==> exists tick :: contentsDir == world.env.TempPath(tick)
      ensures Quiet(world.env) && Roomy(world.env, config, old(world.fs)) ==> err.None?
    {
      hide Swept, Job.CanMake, Roomy, Job.Furnished, Job.NeededCache, ReadDir, Genuine, Env.TempPath;
      hide Job.DepsDir, Job.ProfileDir;
      ready, trace, prior := false, [], world.log;
      ghost var fs0 := world.fs;
      err := MakeDirectories();
      if err.Some? {
        return Some(Annotated("Failed to set up filesystem when generating droplet", err.value));
      }
      err := CleanCacheDir();
      if err.Some? {
        return Some(Annotated("unable to clean cache dir", err.value));
      }
      ready, start := true, world.fs;
    }

    /** The part of Run that runs buildpack scripts: supply or detect, finalize or compile, and
        release. */
    method RunScripts()
      returns (meta: array<BuildpackMetadata>, releaseInfo: ProcessTypes, err: Option<Error>)
      requires Wired() && trace == [] && world.fs == start
      modifies world, this`trace
      ensures Wired() && fresh(meta)
      ensures err.None? ==>
                Phase().Released? && Phase().meta == meta[..] && Phase().types == releaseInfo &&
                Phase().fs == world.fs && meta.Length > 0
      ensures err.Some? ==> err.value.Descriptive? && !Phase().Released? &&
                            TheJob().Explains(AsDescriptive(err.value), Phase()) &&
                            TheJob().LeavesAt(Phase(), world.fs)
      ensures config.skipDetect && !TheJob().AllSuppliable(start) ==>
                err.Some? && AsDescriptive(err.value) == Some(225) && trace == [] && world.fs == start
    {
      hide Job.Explains, Job.Start, Job.Step, Job.Replay, Job.Meta, Job.AllSuppliable, Job.Resolve;
      releaseInfo := NilTypes;
      var detectedBuildpackDir;
      detectedBuildpackDir, meta, err := SupplyOrDetect();
      if err.Some? {
        ReleasedExplains(TheJob(), Phase(), AsDescriptive(err.value));
        return;
      }
      err := RunFinalize(detectedBuildpackDir);
      if err.Some? {
        ReleasedExplains(TheJob(), Phase(), AsDescriptive(err.value));
        return;
      }
      if config.skipDetect {
        meta := BuildpacksMetadata(config.order);
      }
      releaseInfo, err := ReleaseDroplet(detectedBuildpackDir);
      if err.Some? {
        err := Some(NewReleaseFailError(Annotated("Failed to build droplet release", err.value)));
        ReleasedExplains(TheJob(), Phase(), AsDescriptive(err.value));
        return;
      }
      MetadataNonEmpty(TheJob(), start, trace);
    }

    /** The part of Run after the scripts: staging info, result, droplet and cache archives. */
    method Package(meta: array<BuildpackMetadata>, releaseInfo: ProcessTypes) returns (err: Option<Error>)
      requires Phase().Released? && Phase().meta == meta[..] && Phase().types == releaseInfo
      requires Phase().fs == world.fs && meta.Length > 0
      modifies world
      ensures world.log == old(world.log)
      ensures TheJob().PackagesOnly(old(world.fs), world.fs)
      ensures err.None? ==> TheJob().CanPackage(Phase()) && world.fs == TheJob().Packaged(Phase())
      ensures err.Some? ==> AsDescriptive(err.value).None?
      ensures Quiet(world.env) && TheJob().CanPackage(Phase()) ==> err.None?
    {
      hide MkAll, CanMkAll, Mkdirs, CanMkdirs, Copied, CanCopy, Snapshot, CanTar, CanWrite, Job.Replay;
      err := WriteStagingInfoYML(releaseInfo.Lookup("web"), meta);
      if err.Some? {
        return Some(Annotated("unable to build staging info for the droplet", err.value));
      }
      if !world.env.hasTar {
        return Some(Formatted("failed to find `tar` in the path", Plain("tar")));
      }
      err := CreateArtifacts(meta, releaseInfo);
      if err.Some? {
        return Some(Annotated("failed to find runnable app artifact", err.value));
      }
      err := CreateCache();
      if err.Some? {
        return Some(Annotated("failed to cache runnable app artifact", err.value));
      }
      return None;
    }

    method CleanUp()
      modifies world
      ensures world.log == old(world.log)
      ensures contentsDir == [] ==> world.fs == old(world.fs)
      ensures forall q :: !(contentsDir <= q) ==> At(world.fs, q) == At(old(world.fs), q)
      ensures contentsDir != [] && Quiet(world.env) ==> world.fs == Pruned(old(world.fs), contentsDir)
    {
      if contentsDir == [] {
        return;
      }
      var _ := world.RemoveAll(contentsDir);
    }

    method SupplyOrDetect()
      returns (dir: Path, meta: array<BuildpackMetadata>, err: Option<Error>)
      requires Wired() && trace == [] && world.fs == start
      modifies world, this`trace
      ensures Wired() && fresh(meta)
      ensures err.None? ==> TheJob().Settle(Phase()) == Chosen(dir, meta[..], world.fs)
      ensures err.Some? ==> err.value.Descriptive? &&
                            TheJob().Explains(AsDescriptive(err.value), Phase()) &&
                            TheJob().LeavesAt(Phase(), world.fs)
      ensures config.skipDetect && !TheJob().AllSuppliable(start) ==>
                err.Some? && err.value.exitCode == 225 && trace == [] && world.fs == start
    {
      if config.skipDetect {
        dir, meta, err := RunSupplyBuildpacks();
      } else {
        dir, meta, err := DetectBuildpack();
      }
    }

    method MakeDirectories() returns (err: Option<Error>)
      requires trace == [] && config.InRange() && world.log == prior
      modifies world, this`contentsDir, this`depsDir, this`profileDir
      ensures world.log == old(world.log)
      ensures TheJob().FurnishesOnly(old(world.fs), world.fs)
      ensures err.None? ==> Wired() && TheJob().CanMake(old(world.fs)) &&
                            world.fs == TheJob().Furnished(old(world.fs))
      ensures err.None? ==> exists tick :: contentsDir == world.env.TempPath(tick)
      ensures err.Some? ==> AsDescriptive(err.value).None?
      ensures Quiet(world.env) && Roomy(world.env, config, old(world.fs)) ==>
                err.None? && TheJob().CanFurnish(old(world.fs))
    {
      hide CanMkAll, MkAll, Job.OuterDirs, Job.InnerDirs, KeptOutside, Job.FurnishesOnly, Roomy, Genuine;
      ghost var fs0, outer := world.fs, TheJob().OuterDirs();
      err := MakeOuterDirs();
      OuterOnly(TheJob(), fs0, world.fs);
      if err.Some? {
        RoomyAt(world.env, config, fs0, 0, contentsDir);
        return;
      }
      RoomyAt(world.env, config, fs0, world.clock, contentsDir);
      ghost var unset, made := contentsDir, world.fs;
      var temp := world.TempDir();
      if temp.None? {
        OuterDirsFixed(world.env, config, contentsDir, []);
        contentsDir := [];
        OuterOnly(TheJob(), fs0, world.fs);
        return Some(Formatted("failed to create temp dir", Plain("mkdir")));
      }
      contentsDir := temp.value;
      OuterDirsFixed(world.env, config, unset, contentsDir);
      err := MakeInnerDirs();
      InnerToo(TheJob(), fs0, made, world.fs);
    }

    /** The directories outside the contents directory: for the outputs, and the caches. */
    method MakeOuterDirs() returns (err: Option<Error>)
      modifies world
      ensures world.log == old(world.log)
      ensures KeptOutside(TheJob().OuterDirs(), old(world.fs), world.fs)
      ensures err.None? ==> CanMkAll(old(world.fs), TheJob().OuterDirs()) &&
                            world.fs == MkAll(old(world.fs), TheJob().OuterDirs())
      ensures err.Some? ==> AsDescriptive(err.value).None?
      ensures Quiet(world.env) && CanMkAll(old(world.fs), TheJob().OuterDirs()) ==> err.None?
    {
      hide CanMkAll, MkAll, CanMkdirs, Mkdirs, Job.Hash, Parent, MadeUpTo, KeptOutside, NotAbove;
      ghost var fs0, outer := world.fs, TheJob().OuterDirs();
      ghost var before := fs0;
      MadeNone(fs0, outer);
      KeepsNone(outer, fs0);
      MadeNext(fs0, outer, 0, world.fs);
      var ok := world.MkdirAll(Parent(config.places.outputDroplet));
      KeepsOutside(outer, 0, fs0, before, world.fs);
      before := world.fs;
      if !ok {
        return Some(Formatted("failed to create output droplet location directory", Plain("mkdir")));
      }
      MadeNext(fs0, outer, 1, world.fs);
      ok := world.MkdirAll(Parent(config.places.outputMetadata));
      KeepsOutside(outer, 1, fs0, before, world.fs);
      before := world.fs;
      if !ok {
        return Some(Formatted("failed to create output metadata location directory", Plain("mkdir")));
      }
      MadeNext(fs0, outer, 2, world.fs);
      ok := world.MkdirAll(config.places.cacheDir + ["final"]);
      KeepsOutside(outer, 2, fs0, before, world.fs);
      before := world.fs;
      if !ok {
        return Some(Formatted("failed to create build artifacts cache directory", Plain("mkdir")));
      }
      var supplies := config.SupplyBuildpacks();
      for i := 0 to |supplies|
        invariant MadeUpTo(fs0, outer, 3 + i, world.fs)
        invariant before == world.fs && KeptOutside(outer, fs0, world.fs) && world.log == old(world.log)
      {
        assert outer[3 + i] == TheJob().CachePath(supplies[i]);
        MadeNext(fs0, outer, 3 + i, world.fs);
        ok := world.MkdirAll(TheJob().CachePath(supplies[i]));
        KeepsOutside(outer, 3 + i, fs0, before, world.fs);
        before := world.fs;
        if !ok {
          return Some(Formatted("failed to create supply cache directory", Plain("mkdir")));
        }
      }
      MadeAll(fs0, outer, world.fs);
      return None;
    }

    /** The directories inside it: one per buildpack for its dependencies, and profile.d. */
    method MakeInnerDirs() returns (err: Option<Error>)
      modifies world, this`depsDir, this`profileDir
      ensures world.log == old(world.log)
      ensures KeptOutside(TheJob().InnerDirs(), old(world.fs), world.fs)
      ensures err.None? ==> CanMkAll(old(world.fs), TheJob().InnerDirs()) &&
                            world.fs == MkAll(old(world.fs), TheJob().InnerDirs()) &&
                            depsDir == TheJob().DepsDir() && profileDir == TheJob().ProfileDir()
      ensures err.Some? ==> AsDescriptive(err.value).None?
      ensures Quiet(world.env) && CanMkAll(old(world.fs), TheJob().InnerDirs()) ==> err.None?
    {
      ghost var fs0, inner := world.fs, TheJob().InnerDirs();
      hide MkAll, CanMkAll, Mkdirs, CanMkdirs, Job.Hash, Job.DepsIndex, MadeUpTo, KeptOutside, NotAbove;
      ghost var before := fs0;
      MadeNone(fs0, inner);
      KeepsNone(inner, fs0);
      depsDir := contentsDir + ["deps"];
      var n := |config.SupplyBuildpacks()|;
      for i := 0 to n + 1
        invariant depsDir == TheJob().DepsDir() && MadeUpTo(fs0, inner, i, world.fs)
        invariant before == world.fs && KeptOutside(inner, fs0, world.fs) && world.log == old(world.log)
      {
        assert inner[i] == TheJob().DepsSubDir(i);
        MadeNext(fs0, inner, i, world.fs);
        var ok := world.MkdirAll(depsDir + [TheJob().DepsIndex(i)]);
        KeepsOutside(inner, i, fs0, before, world.fs);
        before := world.fs;
        if !ok {
          return Some(Formatted("failed to create deps dir", Plain("mkdir")));
        }
      }
      profileDir := contentsDir + ["profile.d"];
      assert inner[n + 1] == TheJob().ProfileDir();
      MadeNext(fs0, inner, n + 1, world.fs);
      var ok := world.MkdirAll(profileDir);
      KeepsOutside(inner, n + 1, fs0, before, world.fs);
      if !ok {
        return Some(Formatted("failed to create profile dir", Plain("mkdir")));
      }
      MadeAll(fs0, inner, world.fs);
      return None;
    }

    method CleanCacheDir() returns (err: Option<Error>)
      modifies world
      ensures world.log == old(world.log)
      ensures SweepsOnly(old(world.fs), config.places.cacheDir, TheJob().NeededCache(), world.fs)
      ensures err.None? ==>
                ReadDir(world.env, old(world.fs), config.places.cacheDir).Some? &&
                world.fs == Swept(old(world.fs), config.places.cacheDir, TheJob().NeededCache())
      ensures err.Some? ==> AsDescriptive(err.value).None?
      ensures Quiet(world.env) && ReadDir(world.env, old(world.fs), config.places.cacheDir).Some? ==>
                err.None?
    {
      hide Swept, SweptSoFar, Sweeps, SweepsOnly, Pruned, Job.Hash, Names;
      var job := TheJob();
      var cacheDir := config.places.cacheDir;
      var needed := {cacheDir + ["final"]};
      var supplies := config.SupplyBuildpacks();
      for i := 0 to |supplies|
        invariant needed == {cacheDir + ["final"]} + set n | n in supplies[..i] :: job.CachePath(n)
      {
        assert supplies[..i + 1] == supplies[..i] + [supplies[i]];
        needed := needed + {job.CachePath(supplies[i])};
      }
      assert supplies[..|supplies|] == supplies;
      assert needed == TheJob().NeededCache();
      SweepsNone(world.fs, cacheDir, needed);

      var dirs := ReadDir(world.env, world.fs, cacheDir);
      if dirs.None? {
        return Some(Formatted("failed to create artifacts cache dir", Plain("readdir")));
      }
      ghost var fs0 := world.fs;
      SweepDone(fs0, cacheDir, needed);
      var left, done: set<string> := dirs.value, {};
      while left != {}
        invariant left + done == dirs.value && left !! done
        invariant world.fs == SweptSoFar(fs0, cacheDir, needed, done) && world.log == old(world.log)
        invariant SweepsOnly(fs0, cacheDir, needed, world.fs)
        decreases left
      {
        var name :| name in left;
        var dir := cacheDir + [name];
        SweepStep(fs0, cacheDir, needed, done, name);
        if dir !in needed {
          ghost var before := world.fs;
          var ok := world.RemoveAll(dir);
          SweepsMore(fs0, cacheDir, needed, name, before, world.fs);
          if !ok {
            return Some(Formatted("failed to remove build artifacts cache dir", Plain("remove")));
          }
        }
        left, done := left - {name}, done + {name};
      }
      assert done == Names(fs0, cacheDir);
      return None;
    }

    method BuildpacksMetadata(buildpacks: seq<string>) returns (data: array<BuildpackMetadata>)
      requires depsDir == TheJob().DepsDir()
      ensures fresh(data) && data[..] == TheJob().Metadata(world.fs, buildpacks)
      ensures forall i :: 0 <= i < |buildpacks| ==>
                            data[i].key == buildpacks[i] &&
                            Recorded(world.env, world.fs, depsDir + [TheJob().DepsIndex(i)], data[i])
    {
      hide ReadFile, Job.DepsIndex, Recorded;
      var job := TheJob();
      data := new BuildpackMetadata[|buildpacks|](_ => BuildpackMetadata("", "", ""));
      for i := 0 to |buildpacks|
        invariant forall j :: 0 <= j < i ==> data[j] == job.Meta(world.fs, buildpacks[j], j)
        invariant forall j :: i <= j < data.Length ==> data[j] == BuildpackMetadata("", "", "")
      {
        data[i] := data[i].(key := buildpacks[i]);
        var configPath := depsDir + [job.DepsIndex(i)] + ["config.yml"];
        assert configPath == job.DepsSubDir(i) + ["config.yml"];
        var contents := ReadFile(world.env, world.fs, configPath);
        if contents.Contents? {
          var parsed := world.env.codecs.configYml(contents.bytes);
          if parsed.Some? {
            data[i] := data[i].(name := parsed.value.0);
            data[i] := data[i].(version := parsed.value.1);
          }
        }
      }
      forall i | 0 <= i < |buildpacks|
        ensures data[i].key == buildpacks[i]
        ensures Recorded(world.env, world.fs, depsDir + [job.DepsIndex(i)], data[i])
      {
        MetaRecorded(job, world.fs, buildpacks[i], i);
        assert depsDir + [job.DepsIndex(i)] == job.DepsSubDir(i);
      }
    }

    /** Runs a script and records it. */
    method RunRecorded(inv: Invocation) returns (o: Outcome)
      requires Wired()
      modifies world, this`trace
      ensures Wired() && world.fs == o.fs
      ensures trace == old(trace) + [Event(inv, old(world.fs), o.ok, o.output, world.fs)]
      ensures Phase() ==
              TheJob().Step(old(Phase()), Event(inv, old(world.fs), o.ok, o.output, world.fs))
    {
      ghost var tick := world.clock;
      ghost var before := world.fs;
      o := world.RunScript(inv);
      ghost var e := Event(inv, before, o.ok, o.output, world.fs);
      assert world.env.script(tick, e.inv, e.before) == Outcome(e.ok, e.output, e.after);
      TheJob().ReplaySnoc(start, trace, e);
      trace := trace + [e];
    }

    method ValidateSupplyBuildpacks() returns (err: Option<Error>)
      ensures err.None? <==> TheJob().AllSuppliable(world.fs)
      ensures err.Some? ==>
                exists i | 0 <= i < TheJob().K() ::
                  var names, fs := TheJob().Supplies(), world.fs;
                  && (forall j :: 0 <= j < i ==> TheJob().Suppliable(fs, names[j]))
                  && !TheJob().Suppliable(fs, names[i])
                  && err.value.Descriptive? && err.value.exitCode == 225
                  && (err.value.msg == NO_SUPPLY_SCRIPT_FAIL_MSG <==>
                      TheJob().Resolve(fs, names[i]).Some? &&
                      TheJob().Script(fs, TheJob().Resolve(fs, names[i]).value, "supply") == Missing)
    {
      hide Stat, Job.Resolve, Job.Script, Job.Hash;
      var job := TheJob();
      var supplies := config.SupplyBuildpacks();
      for i := 0 to |supplies|
        invariant forall j :: 0 <= j < i ==> job.Suppliable(world.fs, supplies[j])
      {
        var path := job.Resolve(world.fs, supplies[i]);
        assert supplies[i] in supplies;
        if path.None? {
          return Some(NewSupplyFailError(Plain("malformed buildpack")));
        }
        var hasSupply := job.Script(world.fs, path.value, "supply");
        assert job.Suppliable(world.fs, supplies[i]) <==> hasSupply == Found;
        assert hasSupply != Found ==> !job.AllSuppliable(world.fs);
        if hasSupply == Broken {
          return Some(NewSupplyFailError(Formatted("error stat'ing file", Plain("stat"))));
        } else if hasSupply == Missing {
          return Some(NewNoSupplyScriptFailError());
        }
      }
      return None;
    }

    method RunSupplyBuildpacks()
      returns (dir: Path, meta: array<BuildpackMetadata>, err: Option<Error>)
      requires Wired() && trace == [] && world.fs == start && config.skipDetect
      modifies world, this`trace
      ensures Wired() && fresh(meta)
      ensures err.None? ==> TheJob().Settle(Phase()) == Chosen(dir, meta[..], world.fs)
      ensures err.Some? ==> AsDescriptive(err.value) == Some(225)
      ensures err.Some? ==> err.value.Descriptive? &&
                            TheJob().Explains(AsDescriptive(err.value), Phase()) &&
                            TheJob().LeavesAt(Phase(), world.fs)
      ensures !TheJob().AllSuppliable(start) ==>
                err.Some? && err.value.exitCode == 225 && trace == [] && world.fs == start
    {
      hide Stat, Job.Resolve, Job.Hash, Job.Script, Job.ReadConfigYml, Job.DepsDir, Job.ProfileDir;
      hide Genuine, Job.Replay, Job.Step, Job.Metadata, Job.DepsIndex, Job.AllSuppliable, Job.Explains, Job.Settle;
      dir, meta := [], new BuildpackMetadata[0];
      StartSupplying(TheJob(), start);
      err := ValidateSupplyBuildpacks();
      SupplyStops(TheJob(), Phase());
      if err.Some? {
        return;
      }
      var job := TheJob();
      var supplies := config.SupplyBuildpacks();
      SupplyAndFinal(config);
      for i := 0 to |supplies|
        invariant Wired() && Phase() == Supplying(i, world.fs)
        invariant job.AllSuppliable(start)
      {
        var path := job.Resolve(world.fs, supplies[i]);
        SupplyStops(job, Phase());
        if path.None? {
          return dir, meta, Some(NewSupplyFailError(Plain("malformed buildpack")));
        }
        var call := Supply(path.value, config.places.buildDir, job.CachePath(supplies[i]),
                           depsDir, job.DepsIndex(i));
        SupplyNext(job, i, world.fs, call);
        var o := RunRecorded(call);
        SupplyStops(job, Phase());
        if !o.ok {
          return dir, meta, Some(NewSupplyFailError(Plain("exit status")));
        }
      }
      var finalBuildpack := config.order[|supplies|];
      var finalPath := job.Resolve(world.fs, finalBuildpack);
      SupplyStops(job, Phase());
      if finalPath.None? {
        return dir, meta, Some(NewSupplyFailError(Plain("malformed buildpack")));
      }
      SettleSupplied(job, world.fs);
      meta := BuildpacksMetadata(config.order);
      return finalPath.value, meta, None;
    }

    method DetectBuildpack()
      returns (dir: Path, meta: array<BuildpackMetadata>, err: Option<Error>)
      requires Wired() && trace == [] && world.fs == start && !config.skipDetect
      modifies world, this`trace
      ensures Wired() && fresh(meta)
      ensures err.None? ==> TheJob().Settle(Phase()) == Chosen(dir, meta[..], world.fs)
      ensures err.Some? ==> err.value == DetectFailError() &&
                            TheJob().Explains(Some(222), Phase()) &&
                            TheJob().LeavesAt(Phase(), world.fs)
    {
      hide Stat, Job.Resolve, Job.Hash, Job.Script, Job.DetectedMeta, Job.DepsDir, Job.ProfileDir;
      hide Genuine, Job.Replay, Job.Step, Job.Start, Job.Metadata, Job.NextDetectable;
      dir, meta := [], new BuildpackMetadata[0];
      var job := TheJob();
      ghost var next := 0;
      StartDetecting(job, start);
      for i := 0 to |config.order|
        invariant Wired() && next <= i && Phase() == Detecting(next, world.fs)
        invariant forall n :: next <= n < i ==> !job.Detectable(world.fs, config.order[n])
      {
        var buildpack := config.order[i];
        var path := job.Resolve(world.fs, buildpack);
        if path.None? {
          continue;
        }
        if job.Script(world.fs, path.value, "detect") != Found {
          continue;
        }
        DetectNext(job, next, world.fs, i);
        var o := RunRecorded(Detect(path.value, config.places.buildDir));
        if o.ok {
          meta := DetectedMetadata(buildpack, o.output);
          return path.value, meta, None;
        }
        next := i + 1;
      }
      return dir, meta, Some(DetectFailError());
    }

    /** The metadata of the detected buildpack, named after what detect printed if it has no
        name of its own. */
    method DetectedMetadata(buildpack: string, output: string) returns (meta: array<BuildpackMetadata>)
      requires depsDir == TheJob().DepsDir()
      ensures fresh(meta) && meta[..] == [TheJob().DetectedMeta(world.fs, buildpack, output)]
      ensures exists named: BuildpackMetadata ::
                && named.key == buildpack && Recorded(world.env, world.fs, depsDir + [TheJob().DepsIndex(0)], named)
                && meta[0] == if named.name == "" then named.(name := TrimRight(output)) else named
    {
      hide ReadFile, Job.DepsIndex, TrimRight, Recorded;
      var job := TheJob();
      meta := BuildpacksMetadata([buildpack]);
      assert meta[..] == job.Metadata(world.fs, [buildpack]);
      assert meta[0] == job.Meta(world.fs, buildpack, 0);
      ghost var named := meta[0];
      assert named.key == buildpack && Recorded(world.env, world.fs, depsDir + [job.DepsIndex(0)], named);
      if meta[0].name == "" {
        meta[0] := meta[0].(name := TrimRight(output));
      }
    }

    method RunFinalize(bp: Path) returns (err: Option<Error>)
      requires Wired() && HasChosen(bp)
      modifies world, this`trace
      ensures Wired()
      ensures err.None? ==>
                exists finalized :: Phase() ==
                  TheJob().AfterBuild(bp, old(ChosenMeta()), finalized, world.fs)
      ensures err.Some? ==> AsDescriptive(err.value) in {Some(223), Some(225), Some(227)}
      ensures err.Some? ==> err.value.Descriptive? &&
                            TheJob().Explains(AsDescriptive(err.value), Phase()) &&
                            TheJob().LeavesAt(Phase(), world.fs)
    {
      var job := TheJob();
      var depsIdx := job.DepsIndex(|config.SupplyBuildpacks()|);
      var cacheDir := config.places.cacheDir + ["final"];
      var hasFinalize := job.Script(world.fs, bp, "finalize");
      if hasFinalize == Broken {
        return Some(NewFinalizeFailError(Formatted("error stat'ing file", Plain("stat"))));
      }
      if hasFinalize == Found {
        err := HandleFinalize(bp, cacheDir, depsIdx);
      } else {
        err := HandleNoFinalize(bp, cacheDir, depsIdx);
      }
    }

    method HandleFinalize(bp: Path, cacheDir: Path, depsIdx: string) returns (err: Option<Error>)
      requires Wired() && HasChosen(bp)
      requires FinalArguments(cacheDir, depsIdx)
      requires TheJob().Script(world.fs, bp, "finalize") == Found
      modifies world, this`trace
      ensures Wired()
      ensures err.None? ==>
                Phase() == TheJob().AfterBuild(bp, old(ChosenMeta()), true, world.fs)
      ensures err.Some? ==> AsDescriptive(err.value) in {Some(225), Some(227)}
      ensures err.Some? ==> err.value.Descriptive? &&
                            TheJob().Explains(AsDescriptive(err.value), Phase()) &&
                            TheJob().LeavesAt(Phase(), world.fs)
    {
      hide Stat, Job.Resolve, Job.Hash, Job.Replay, Job.Metadata, Genuine;
      err := HandleSupply(bp, cacheDir, depsIdx);
      if err.Some? {
        return;
      }
      var o := RunRecorded(Finalize(bp, config.places.buildDir, cacheDir, depsDir, depsIdx, profileDir));
      if !o.ok {
        return Some(NewFinalizeFailError(Plain("exit status")));
      }
    }

    method HandleNoFinalize(bp: Path, cacheDir: Path, depsIdx: string) returns (err: Option<Error>)
      requires Wired() && HasChosen(bp)
      requires FinalArguments(cacheDir, depsIdx)
      requires TheJob().Script(world.fs, bp, "finalize") == Missing
      modifies world, this`trace
      ensures Wired()
      ensures err.None? ==>
                Phase() == TheJob().AfterBuild(bp, old(ChosenMeta()), false, world.fs)
      ensures err.Some? ==> AsDescriptive(err.value) == Some(223)
      ensures err.Some? ==> err.value.Descriptive? &&
                            TheJob().Explains(AsDescriptive(err.value), Phase()) &&
                            TheJob().LeavesAt(Phase(), world.fs)
    {
      hide Stat, Job.Resolve, Job.Hash, Job.Replay, Job.Metadata, Genuine;
      var ok := world.RemoveAll(depsDir + [depsIdx]);
      if !ok {
        return Some(NewCompileFailError(Plain("remove")));
      }
      var o := RunRecorded(Compile(bp, config.places.buildDir, cacheDir));
      if !o.ok {
        return Some(NewCompileFailError(Annotated("failed to compile droplet", Plain("exit status"))));
      }
      return None;
    }

    /** The final buildpack's own supply script, if it has one. */
    method HandleSupply(bp: Path, cacheDir: Path, depsIdx: string) returns (err: Option<Error>)
      requires Wired() && HasChosen(bp)
      requires FinalArguments(cacheDir, depsIdx)
      requires TheJob().Script(world.fs, bp, "finalize") == Found
      modifies world, this`trace
      ensures Wired()
      ensures err.Some? ==> AsDescriptive(err.value) == Some(225)
      ensures err.Some? ==> err.value.Descriptive? &&
                            TheJob().Explains(AsDescriptive(err.value), Phase()) &&
                            TheJob().LeavesAt(Phase(), world.fs)
      ensures err.None? ==> Phase() == (if TheJob().Script(old(world.fs), bp, "supply") == Missing then old(Phase())
                                        else FinalSupplied(bp, old(ChosenMeta()), world.fs))
      ensures err.None? && TheJob().Script(old(world.fs), bp, "supply") == Missing ==>
                world.fs == old(world.fs)
    {
      hide Stat, Job.Resolve, Job.Hash, Job.Replay, Job.Metadata, Genuine;
      var job := TheJob();
      var hasSupply := job.Script(world.fs, bp, "supply");
      if hasSupply == Broken {
        return Some(NewSupplyFailError(Formatted("error stat'ing file", Plain("stat"))));
      }
      if hasSupply == Found {
        var o := RunRecorded(Supply(bp, config.places.buildDir, cacheDir, depsDir, depsIdx));
        if !o.ok {
          return Some(NewSupplyFailError(Plain("exit status")));
        }
      }
      return None;
    }

    method ReleaseDroplet(bp: Path) returns (release: ProcessTypes, err: Option<Error>)
      requires Wired() && Phase().Built? && Phase().bp == bp && Phase().fs == world.fs
      modifies world, this`trace
      ensures Wired()
      ensures err.None? ==>
                Phase() == Released(bp, old(Phase().meta), old(Phase().finalized), old(world.fs),
                                    release, world.fs)
      ensures err.Some? ==> TheJob().Explains(Some(224), Phase()) &&
                            TheJob().LeavesAt(Phase(), world.fs)
    {
      var job := TheJob();
      var procfile := job.Procfile(world.fs);
      if procfile.None? {
        return NilTypes, Some(Annotated("Failed to read command from Procfile", Plain("Procfile")));
      }
      var startCommands := procfile.value;
      var o := RunRecorded(Release(bp, config.places.buildDir));
      if !o.ok {
        return NilTypes, Some(Annotated("no release script", Plain("exit status")));
      }
      var parsed := world.env.codecs.release(o.output);
      if parsed.None? {
        return NilTypes, Some(Annotated("buildpack's release output invalid", Plain("yaml")));
      }
      release := MergeProcessTypes(parsed.value, startCommands);
      return release, None;
    }

    method WriteStagingInfoYML(startCommand: string, buildpacks: array<BuildpackMetadata>)
      returns (err: Option<Error>)
      requires buildpacks.Length > 0
      modifies world
      ensures world.log == old(world.log)
      ensures TheJob().PackagesOnly(old(world.fs), world.fs)
      ensures err.None? ==>
                CanWrite(old(world.fs), TheJob().InfoPath()) &&
                world.fs == old(world.fs)[TheJob().InfoPath() := File(world.env.codecs.encodeInfo(
                  StagingInfo(buildpacks[buildpacks.Length - 1].name, startCommand)))]
      ensures err.Some? ==> AsDescriptive(err.value).None?
      ensures Quiet(world.env) ==> (err.None? <==> CanWrite(old(world.fs), TheJob().InfoPath()))
    {
      var last := buildpacks[buildpacks.Length - 1];
      var ok := world.WriteFile(contentsDir + ["staging_info.yml"],
                                world.env.codecs.encodeInfo(StagingInfo(last.name, startCommand)));
      return if ok then None else Some(Formatted("failed to create staging_info.yml", Plain("write")));
    }

    method SaveInfo(buildpacks: array<BuildpackMetadata>, releaseInfo: ProcessTypes)
      returns (err: Option<Error>)
      modifies world
      ensures world.log == old(world.log)
      ensures TheJob().PackagesOnly(old(world.fs), world.fs)
      ensures err.None? ==>
                CanWrite(old(world.fs), config.places.outputMetadata) &&
                world.fs == old(world.fs)[config.places.outputMetadata := File(
                  world.env.codecs.encodeResult(NewStagingResult(
                    releaseInfo, TheJob().LastMeta(buildpacks[..]).key,
                    TheJob().LastMeta(buildpacks[..]).name, buildpacks[..])))]
      ensures err.Some? ==> AsDescriptive(err.value).None?
      ensures Quiet(world.env) ==> (err.None? <==> CanWrite(old(world.fs), config.places.outputMetadata))
    {
      var last := BuildpackMetadata("", "", "");
      if buildpacks.Length > 0 {
        last := buildpacks[buildpacks.Length - 1];
      }
      var ok := world.WriteFile(config.places.outputMetadata, world.env.codecs.encodeResult(
        NewStagingResult(releaseInfo, last.key, last.name, buildpacks[..])));
      return if ok then None else Some(Formatted("failed to create output metadata location", Plain("write")));
    }

    method CreateArtifacts(buildpacks: array<BuildpackMetadata>, releaseInfo: ProcessTypes)
      returns (err: Option<Error>)
      requires Phase().Released? && Phase().meta == buildpacks[..] && Phase().types == releaseInfo
      requires world.fs == TheJob().WithInfo(Phase())
      modifies world
      ensures world.log == old(world.log)
      ensures TheJob().PackagesOnly(old(world.fs), world.fs)
      ensures err.None? ==>
                var job, rel := TheJob(), Phase();
                && CanWrite(job.WithInfo(rel), config.places.outputMetadata)
                && CanMkAll(job.WithResult(rel), [contentsDir + ["tmp"], contentsDir + ["logs"]])
                && CanCopy(job.WithSkeleton(rel), config.places.buildDir, contentsDir + ["app"])
                && CanTar(job.WithApp(rel), contentsDir, config.places.outputDroplet)
                && world.fs == job.WithApp(rel)[config.places.outputDroplet :=
                                                File(world.env.codecs.tar(job.Droplet(rel)))]
      ensures err.Some? ==> AsDescriptive(err.value).None?
      ensures Quiet(world.env) && TheJob().CanPackage(Phase()) ==> err.None?
    {
      hide MkAll, CanMkAll, Mkdirs, CanMkdirs, Copied, CanCopy, Snapshot, CanTar, CanWrite, Job.Replay, MadeUpTo;
      hide Job.PackagesOnly;
      ghost var job, rel := TheJob(), Phase();
      err := SaveInfo(buildpacks, releaseInfo);
      if err.Some? {
        return Some(Annotated("Failed to encode generated metadata", err.value));
      }
      assert world.fs == job.WithResult(rel);
      var names := ["tmp", "logs"];
      ghost var dirs := [contentsDir + ["tmp"], contentsDir + ["logs"]];
      MadeNone(job.WithResult(rel), dirs);
      for i := 0 to |names|
        invariant MadeUpTo(job.WithResult(rel), dirs, i, world.fs) && world.log == old(world.log)
        invariant job.PackagesOnly(old(world.fs), world.fs)
      {
        MadeNext(job.WithResult(rel), dirs, i, world.fs);
        ghost var before := world.fs;
        var ok := world.MkdirAll(contentsDir + [names[i]]);
        MkdirPackages(job, old(world.fs), before, contentsDir + [names[i]], world.fs);
        if !ok {
          return Some(Annotated("Failed to set up droplet filesystem", Plain("mkdir")));
        }
      }
      MadeAll(job.WithResult(rel), dirs, world.fs);
      ghost var before := world.fs;
      var copied := world.Copy(config.places.buildDir, contentsDir + ["app"]);
      WritesPackage(job, old(world.fs), before, contentsDir + ["app"], world.fs);
      if !copied {
        return Some(Annotated("Failed to copy compiled droplet", Plain("cp")));
      }
      before := world.fs;
      var packed := world.Tar(contentsDir, config.places.outputDroplet);
      WritesPackage(job, old(world.fs), before, contentsDir, world.fs);
      if !packed {
        return Some(Annotated("Failed to compress droplet filesystem", Plain("tar")));
      }
      return None;
    }

    method CreateCache() returns (err: Option<Error>)
      modifies world
      ensures world.log == old(world.log)
      ensures TheJob().PackagesOnly(old(world.fs), world.fs)
      ensures err.None? ==>
                var made := Mkdirs(old(world.fs), Parent(config.places.outputCache));
                && CanMkdirs(old(world.fs), Parent(config.places.outputCache))
                && CanTar(made, config.places.cacheDir, config.places.outputCache)
                && world.fs == made[config.places.outputCache := File(world.env.codecs.tar(
                     Snapshot(made, config.places.cacheDir)))]
      ensures err.Some? ==> AsDescriptive(err.value).None?
      ensures Quiet(world.env) ==>
                (err.None? <==>
                 CanMkdirs(old(world.fs), Parent(config.places.outputCache)) &&
                 CanTar(Mkdirs(old(world.fs), Parent(config.places.outputCache)),
                        config.places.cacheDir, config.places.outputCache))
    {
      var ok := world.MkdirAll(Parent(config.places.outputCache));
      if !ok {
        return Some(Annotated("Failed to create output build artifacts cache dir", Plain("mkdir")));
      }
      ok := world.Tar(config.places.cacheDir, config.places.outputCache);
      return if ok then None else Some(Annotated("Failed to compress build artifacts", Plain("tar")));
    }
  }

  /** The Procfile's entries over those of the release script, whatever the iteration order; a
      nil map is never written to. */
  method MergeProcessTypes(release: ProcessTypes, startCommands: map<string, string>)
    returns (merged: ProcessTypes)
    ensures merged.Entries() == release.Entries() + startCommands
    ensures startCommands == map[] ==> merged == release
    ensures startCommands != map[] ==> merged.Types?
  {
    merged := release;
    if |startCommands| > 0 {
      if |release.Entries()| == 0 {
        merged := Types(startCommands);
      } else {
        var left := startCommands.Keys;
        while left != {}
          invariant left <= startCommands.Keys && merged.Types?
          invariant merged.entries ==
                    release.Entries() + map k | k in startCommands && k !in left :: startCommands[k]
          decreases left
        {
          var k :| k in left;
          merged := Types(merged.entries[k := startCommands[k]]);
          left := left - {k};
        }
        assert (map k | k in startCommands && k !in {} :: startCommands[k]) == startCommands;
      }
    }
  }

  lemma StartSupplying(job: Job, start: FS)
    requires job.config.skipDetect
    ensures job.Replay(start, [])
            == if job.AllSuppliable(start) then Supplying(0, start) else Stopped(SUPPLY_FAIL_CODE, start)
  {
  }

  /** The next supply script, with its own cache directory and deps index. */
  lemma SupplyNext(job: Job, i: nat, fs: FS, call: Invocation)
    requires i < job.K() && job.Resolve(fs, job.config.order[i]).Some?
    requires call == job.SupplyCall(job.Resolve(fs, job.config.order[i]).value,
                                    job.CachePath(job.config.order[i]), i)
    ensures forall ok, out, after ::
              job.Step(Supplying(i, fs), Event(call, fs, ok, out, after))
              == if ok then Supplying(i + 1, after) else Stopped(SUPPLY_FAIL_CODE, after)
  {
    hide Job.Resolve, Job.DepsIndex;
  }

  /** A supply script that failed or whose buildpack is malformed ends the build. */
  lemma SupplyStops(job: Job, s: Phase)
    ensures s.Stopped? && s.code == 225 ==> job.Explains(Some(225), s)
    ensures s.Supplying? && s.next < |job.config.order| && job.Resolve(s.fs, job.config.order[s.next]).None? ==>
              job.Explains(Some(225), s)
    ensures s.Stopped? || s.Supplying? ==> job.LeavesAt(s, s.fs)
  {
    hide Job.Resolve, Job.Metadata;
  }

  lemma SettleSupplied(job: Job, fs: FS)
    requires job.K() < |job.config.order| && job.Resolve(fs, job.config.order[job.K()]).Some?
    ensures job.Settle(Supplying(job.K(), fs))
            == Chosen(job.Resolve(fs, job.config.order[job.K()]).value, job.Metadata(fs, job.config.order), fs)
  {
    hide Job.Resolve, Job.Metadata;
  }

  lemma StartDetecting(job: Job, start: FS)
    requires !job.config.skipDetect
    ensures job.Replay(start, []) == Detecting(0, start)
  {
  }

  /** The scan runs the detect script it comes to next. */
  lemma DetectNext(job: Job, n: nat, fs: FS, i: nat)
    requires n <= i < |job.config.order| && job.Detectable(fs, job.config.order[i])
    requires forall m :: n <= m < i ==> !job.Detectable(fs, job.config.order[m])
    ensures var bp := job.Resolve(fs, job.config.order[i]).value;
            forall ok, out, after ::
              job.Step(Detecting(n, fs), Event(Detect(bp, job.config.places.buildDir), fs, ok, out, after))
              == if ok then Chosen(bp, [job.DetectedMeta(after, job.config.order[i], out)], after)
                 else Detecting(i + 1, after)
  {
    hide Job.Resolve, Job.Script, Job.DetectedMeta;
    assert job.NextDetectable(fs, n) == i;
  }

  /** Directories are made one at a time, and each front of the list must be possible. */
  lemma {:induction false} CanMkAllFront(fs: FS, ps: seq<Path>)
    ensures CanMkAll(fs, ps) ==> forall i :: 0 <= i <= |ps| ==> CanMkAll(fs, ps[..i])
  {
    if ps != [] && CanMkAll(fs, ps) {
      var front := ps[..|ps| - 1];
      CanMkAllFront(fs, front);
      forall i | 0 <= i <= |ps|
        ensures CanMkAll(fs, ps[..i])
      {
        if i < |ps| {
          assert ps[..i] == front[..i];
        } else {
          assert ps[..i] == ps;
        }
      }
    }
  }

  /** Nothing has changed but directories of the list and those above them. */
  ghost predicate KeptOutside(ps: seq<Path>, before: FS, after: FS) {
    forall q :: NotAbove(ps, q) ==> At(after, q) == At(before, q)
  }

  lemma KeepsNone(ps: seq<Path>, fs: FS)
    ensures KeptOutside(ps, fs, fs)
  {
  }

  /** A directory of the list made, or begun. */
  lemma KeepsOutside(ps: seq<Path>, n: nat, a: FS, b: FS, c: FS)
    requires n < |ps| && KeptOutside(ps, a, b)
    requires c == b || exists r :: r <= ps[n] && c == Mkdirs(b, r)
    ensures KeptOutside(ps, a, c)
  {
    hide Mkdirs;
    if c != b {
      var r :| r <= ps[n] && c == Mkdirs(b, r);
      MkdirsAt(b, r);
      forall q
        ensures q <= r ==> !NotAbove(ps, q)
      {
        assert q <= r ==> q <= ps[n];
      }
    }
  }

  /** A directory in the contents directory made, or begun. */
  lemma MkdirPackages(job: Job, a: FS, b: FS, p: Path, c: FS)
    requires job.PackagesOnly(a, b) && job.contentsDir <= p
    requires c == b || exists r :: r <= p && c == Mkdirs(b, r)
    ensures job.PackagesOnly(a, c)
  {
    if c != b {
      var r :| r <= p && c == Mkdirs(b, r);
      MkdirsAt(b, r);
      forall q
        ensures q <= r ==> !Apart(job.contentsDir, q)
      {
        if q <= r {
          assert q <= p;
          PrefixesNest(job.contentsDir, q, p);
        }
      }
    }
  }

  /** Something in the contents directory written, or the droplet. */
  lemma WritesPackage(job: Job, a: FS, b: FS, p: Path, c: FS)
    requires job.PackagesOnly(a, b) && job.contentsDir <= p
    requires forall q :: !(p <= q) && q != job.config.places.outputDroplet ==> At(c, q) == At(b, q)
    ensures job.PackagesOnly(a, c)
  {
    forall q | Apart(job.contentsDir, q)
      ensures !(p <= q)
    {
      assert !(job.contentsDir <= q) && (p <= q ==> job.contentsDir <= q);
    }
  }

  lemma OuterOnly(job: Job, a: FS, b: FS)
    requires KeptOutside(job.OuterDirs(), a, b)
    ensures job.FurnishesOnly(a, b)
  {
    hide Job.OuterDirs;
  }

  lemma InnerToo(job: Job, a: FS, b: FS, d: FS)
    requires KeptOutside(job.OuterDirs(), a, b)
    requires KeptOutside(job.InnerDirs(), b[job.contentsDir := Dir], d)
    ensures job.contentsDir != [] ==> job.FurnishesOnly(a, d)
  {
    hide Job.OuterDirs, Job.DepsIndex;
    forall q | Apart(job.contentsDir, q)
      ensures NotAbove(job.InnerDirs(), q)
    {
      forall i | 0 <= i < |job.InnerDirs()|
        ensures !(q <= job.InnerDirs()[i])
      {
        assert job.InnerDirs()[i] == if i < |job.InnerDirs()| - 1 then job.DepsSubDir(i) else job.ProfileDir();
        assert job.contentsDir <= job.InnerDirs()[i];
        if q <= job.InnerDirs()[i] {
          PrefixesNest(job.contentsDir, q, job.InnerDirs()[i]);
        }
      }
    }
  }

  /** The first n directories of the list have been made. */
  ghost predicate MadeUpTo(fs0: FS, ps: seq<Path>, n: nat, fs: FS) {
    n <= |ps| && CanMkAll(fs0, ps[..n]) && fs == MkAll(fs0, ps[..n])
  }

  lemma MadeNone(fs0: FS, ps: seq<Path>)
    ensures MadeUpTo(fs0, ps, 0, fs0)
  {
  }

  lemma MadeNext(fs0: FS, ps: seq<Path>, n: nat, fs: FS)
    requires MadeUpTo(fs0, ps, n, fs) && n < |ps|
    ensures CanMkdirs(fs, ps[n]) ==> MadeUpTo(fs0, ps, n + 1, Mkdirs(fs, ps[n]))
    ensures !CanMkdirs(fs, ps[n]) ==> !CanMkAll(fs0, ps)
  {
    hide CanMkAll, MkAll, CanMkdirs, Mkdirs;
    assert ps[..n + 1] == ps[..n] + [ps[n]];
    MkAllSnoc(fs0, ps[..n], ps[n]);
    CanMkAllFront(fs0, ps);
  }

  lemma MadeAll(fs0: FS, ps: seq<Path>, fs: FS)
    requires MadeUpTo(fs0, ps, |ps|, fs)
    ensures CanMkAll(fs0, ps) && fs == MkAll(fs0, ps)
  {
    assert ps[..|ps|] == ps;
  }

  /** Once the release script has succeeded, only plain errors are left. */
  lemma ReleasedExplains(job: Job, s: Phase, code: Option<int>)
    ensures s.Released? ==> (job.Explains(code, s) <==> code.None?)
  {
  }

  ghost predicate HasMeta(s: Phase) {
    (s.Chosen? || s.FinalSupplied? || s.Built? || s.Released?) ==> s.meta != []
  }

  lemma StepMeta(job: Job, s: Phase, e: Event)
    requires job.config.InRange() && HasMeta(s)
    ensures HasMeta(job.Step(s, e))
  {
    hide Stat, Job.Resolve, Job.Hash, Job.Meta, Job.Script, Job.DetectedMeta, Job.Procfile, Job.Merge, Job.DepsIndex;
    assert HasMeta(job.Settle(s));
  }

  /** Reading the last metadata entry of a released build is in range. */
  lemma {:induction false} MetadataNonEmpty(job: Job, start: FS, trace: seq<Event>)
    requires job.config.InRange()
    ensures HasMeta(job.Replay(start, trace))
  {
    if trace != [] {
      MetadataNonEmpty(job, start, trace[..|trace| - 1]);
      StepMeta(job, job.Replay(start, trace[..|trace| - 1]), trace[|trace| - 1]);
    }
  }
}
