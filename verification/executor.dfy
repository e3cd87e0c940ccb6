/** cmd/executor/executor.go: the process that runs a staging build and turns its outcome into an
    exit code and at most one failure report. */
module Executor {
  import opened Prelude
  import opened Decimal
  import opened FileSystem
  import opened Errors
  import opened Configuration
  import opened World
  import opened Protocol
  import opened Running
  import opened Frames
  import opened Traces
  import opened Detection
  import opened Layout
  import opened Droplets
  import opened KeyModifier
  import opened Results
  import opened Unzip
  import opened InstalledBuildpacks

  const EXIT_REASON := "failed to create droplet"
  const TEN_GB := 10 * 1024 * 1024 * 1024

  /** What became of the build, once it was started. */
  datatype Account = Account(job: Job, fs0: FS, ready: bool, start: FS, trace: seq<Event>, err: Option<Error>,
                             left: FS)

  /** The configuration is the one the buildpacks JSON asks for. */
  ghost predicate Configured(codecs: Codecs, json: string, c: Settings) {
    if json == "" || codecs.buildpacks(json) == Some([]) then c.order == [] && !c.skipDetect
    else codecs.buildpacks(json).Some? &&
         c.order == NamesOf(codecs.buildpacks(json).value) && c.skipDetect == AllSkip(codecs.buildpacks(json).value)
  }

  /** The exit code tells how the build ended: 0 for a complete one, the code of a descriptive error,
      and 1 for any other error. */
  ghost predicate ExitTells(a: Account, exitCode: int) {
    && (exitCode == 0 <==> a.err.None?)
    && (a.err.Some? ==> exitCode == match AsDescriptive(a.err.value) case Some(c) => c case None => 1)
    && (exitCode != 0 && exitCode != 1 ==>
          a.ready && a.job.Explains(Some(exitCode), a.job.Replay(a.start, a.trace)))
    && (exitCode == 1 && a.ready ==> a.job.Explains(None, a.job.Replay(a.start, a.trace)))
    && (exitCode == 0 ==> a.ready && a.job.Replay(a.start, a.trace).Released?
                          && a.job.CanPackage(a.job.Replay(a.start, a.trace)))
    && (Quiet(a.job.env) && a.ready && a.job.Replay(a.start, a.trace).Released? &&
        a.job.CanPackage(a.job.Replay(a.start, a.trace)) ==>
          exitCode == 0)
    && Founded(a) && Leaves(a)
  }

  /** A build that got ready did so from the account's file system, in a temporary directory, and its
      scripts are the machine's. One that could get ready did, unless a system call failed. */
  ghost predicate Founded(a: Account) {
    && (a.ready ==>
          && a.job.CanFurnish(a.fs0) && a.start == a.job.Prepared(a.fs0)
          && (exists tick :: a.job.contentsDir == a.job.env.TempPath(tick))
          && a.job.FurnishesOnly(a.fs0, a.start)
          && forall i :: 0 <= i < |a.trace| ==> Genuine(a.job.env, a.trace[i]))
    && (Quiet(a.job.env) && Roomy(a.job.env, a.job.config, a.fs0) ==> a.ready)
  }

  /** Where the build left the file system: as packaged; where the phase it gave up in stands; changed
      by packaging only; or changed by setting up only. */
  ghost predicate Leaves(a: Account) {
    if !a.ready then a.trace == [] && a.job.FurnishesOnly(a.fs0, a.left)
    else
      var s := a.job.Replay(a.start, a.trace);
      if a.err.None? then s.Released? && a.left == a.job.Packaged(s)
      else if AsDescriptive(a.err.value).Some? then a.job.LeavesAt(s, a.left)
      else s.Released? && a.job.PackagesOnly(s.fs, a.left)
  }

  /** The contents directory and the build directory have been removed from what the build left, and
      nothing else. */
  ghost predicate CleanedUp(a: Account, fs: FS) {
    var contents, build := a.job.contentsDir, a.job.config.places.buildDir;
    && (forall q :: !(contents != [] && contents <= q) && !(build <= q) ==> At(fs, q) == At(a.left, q))
    && (Quiet(a.job.env) ==> fs == Pruned(if contents == [] then a.left else Pruned(a.left, contents), build))
  }

  /** The app bits were extracted, in full, to a new temporary directory. */
  ghost predicate BitsExtracted(env: Env, downloadDir: Path, fs0: FS, buildDir: Path, fs1: FS) {
    && (exists tick :: buildDir == env.TempPath(tick)) && CanTempDir(env, fs0, buildDir)
    && Extraction(env, TEN_GB, Entries(env, fs0[buildDir := Dir], downloadDir + ["app.zip"]), buildDir, true,
                  fs0[buildDir := Dir], fs1)
  }

  ghost predicate CanExtract(env: Env, downloadDir: Path, fs0: FS, buildDir: Path) {
    var listing := Entries(env, fs0[buildDir := Dir], downloadDir + ["app.zip"]);
    && CanTempDir(env, fs0, buildDir) && listing.Some?
    && CanApplyAll(fs0[buildDir := Dir], buildDir, listing.value, TEN_GB)
  }

  /** The places given to the process do not contain one another, and no temporary directory is in
      or above them. */
  ghost predicate Spaced(env: Env, c: Places) {
    && env.TempApart(c.cacheDir) && env.TempApart(c.buildpacksDir) && env.TempApart(c.outputDroplet)
    && env.TempApart(c.outputCache) && env.TempApart(c.outputMetadata)
    && Apart(c.cacheDir, c.outputDroplet) && Apart(c.cacheDir, c.outputCache) && Apart(c.cacheDir, c.outputMetadata)
    && Apart(c.cacheDir, c.buildpacksDir)
    && Apart(c.outputDroplet, c.outputCache) && Apart(c.outputDroplet, c.outputMetadata)
    && Apart(c.outputCache, c.outputMetadata)
  }

  /** `main`. A responder that cannot be made is not reported; every other failure is, once. */
  method RunExecutor(world: World, responderOk: bool, downloadDir: Path, places: Places, json: string)
    returns (exitCode: int, reports: seq<Error>, ghost account: Option<Account>)
    modifies world
    ensures account.None? ==> exitCode == 1
    ensures world.log == old(world.log) + if account.Some? then account.value.trace else []
    ensures account.None? && TameZips(world.env.codecs) ==>
              forall q :: world.env.TempApart(q) ==> At(world.fs, q) == At(old(world.fs), q)
    ensures account.None? && responderOk && Quiet(world.env) ==>
              (json != "" && world.env.codecs.buildpacks(json).None?) ||
              !CanExtract(world.env, downloadDir, old(world.fs), world.env.TempPath(old(world.clock)))
    ensures exitCode == 0 ==> reports == []
    ensures exitCode != 0 ==> |reports| == if responderOk then 1 else 0
    ensures account.Some? ==>
              && responderOk && account.value.job.env == world.env
              && account.value.job.config.places == places.(buildDir := account.value.job.config.places.buildDir)
              && BitsExtracted(world.env, downloadDir, old(world.fs), account.value.job.config.places.buildDir,
                               account.value.fs0)
              && Configured(world.env.codecs, json, account.value.job.config)
              && ExitTells(account.value, exitCode)
              && CleanedUp(account.value, world.fs)
              && (account.value.err.Some? ==> reports == [Annotated(EXIT_REASON, account.value.err.value)])
    ensures exitCode == 0 && Spaced(world.env, places) ==>
              var a := account.value;
              OutputsReadable(a.job, a.job.Replay(a.start, a.trace), world.fs)
    ensures exitCode == 0 && Spaced(world.env, places)
              && RoundTrips(world.env.codecs) && !world.env.unreadable(places.outputMetadata) ==>
              Reported(world.env, world.fs, places.outputMetadata, json).Some?
  {
    hide BitsExtracted, CanExtract, Founded, Job.CanPackage, Job.Replay, Job.Explains, Spaced, OutputsReadable;
    hide NamesOf, RoundTrips, Separate, Reported, Leaves, CleanedUp, Pruned, TameZips;
    exitCode, reports, account := 0, [], None;
    if !responderOk {
      return 1, [], None;
    }
    var buildDir, extractErr := ExtractBits(world, downloadDir);
    if extractErr.Some? {
      return 1, [Annotated(EXIT_REASON, extractErr.value)], None;
    }
    var buildConfig := new Config(places.(buildDir := buildDir));
    var initErr := buildConfig.InitBuildpacks(json, world.env.codecs.buildpacks);
    if initErr.Some? {
      var _ := world.RemoveAll(buildDir);
      return 1, [Annotated(EXIT_REASON, initErr.value)], None;
    }
    assert Configured(world.env.codecs, json, buildConfig.Value());
    var err;
    err, account := Execute(world, buildConfig);
    ghost var executed := world.fs;
    var _ := world.RemoveAll(buildDir);
    ghost var a := account.value;
    Cleans(a, executed, world.fs);
    if err.Some? {
      exitCode := match AsDescriptive(err.value) case Some(c) => c case None => SYSTEM_FAIL_CODE;
      CodesNonZero(a.job, a.job.Replay(a.start, a.trace), AsDescriptive(err.value));
      return exitCode, [Annotated(EXIT_REASON, err.value)], account;
    }
    if Spaced(world.env, places) {
      SpacedSeparate(a, downloadDir, old(world.fs), places);
      OutputsStay(a, world.fs);
      if RoundTrips(world.env.codecs) && !world.env.unreadable(places.outputMetadata) {
        ReportedEndToEnd(a, world.fs, json);
      }
    }
  }

  /** `execute`: the build, and then the contents directory is removed. */
  method Execute(world: World, config: Config) returns (err: Option<Error>, ghost account: Option<Account>)
    requires config.Value().InRange()
    modifies world
    ensures account.Some? && account.value.err == err && account.value.fs0 == old(world.fs)
    ensures account.value.job.env == world.env && account.value.job.config == config.Value()
    ensures err.Some? && AsDescriptive(err.value).Some? ==> err.value.Descriptive?
    ensures var a := account.value;
            && Founded(a) && Leaves(a)
            && (a.err.Some? && AsDescriptive(a.err.value).Some? ==> a.ready)
            && (a.err.Some? && a.ready ==>
                  a.job.Explains(AsDescriptive(a.err.value), a.job.Replay(a.start, a.trace)))
            && (a.err.None? ==> a.ready && a.job.Replay(a.start, a.trace).Released?
                                && a.job.CanPackage(a.job.Replay(a.start, a.trace)))
            && (Quiet(world.env) && a.ready && a.job.Replay(a.start, a.trace).Released? &&
                a.job.CanPackage(a.job.Replay(a.start, a.trace)) ==>
                  a.err.None?)
            && world.log == old(world.log) + a.trace
            && (if a.job.contentsDir == [] then world.fs == a.left
                else && (forall q :: !(a.job.contentsDir <= q) ==> At(world.fs, q) == At(a.left, q))
                     && (Quiet(world.env) ==> world.fs == Pruned(a.left, a.job.contentsDir)))
  {
    hide Job.CanFurnish, Job.Prepared, Job.CanPackage, Job.Packaged, Job.Replay, Job.Explains, Roomy;
    hide Job.AllSuppliable, Job.Settle, Genuine, Env.TempPath;
    ghost var fs0 := world.fs;
    var runner := new Runner(config, world);
    err := runner.Run();
    account := Some(Account(runner.TheJob(), fs0, runner.ready, runner.start, runner.trace, err,
                            world.fs));
    runner.CleanUp();
  }

  method ExtractBits(world: World, downloadDir: Path) returns (buildDir: Path, err: Option<Error>)
    modifies world
    ensures err.None? ==> BitsExtracted(world.env, downloadDir, old(world.fs), buildDir, world.fs)
    ensures err.None? ==>
              var entries := Entries(world.env, old(world.fs)[buildDir := Dir], downloadDir + ["app.zip"]).value;
              && Landed(buildDir, entries, world.fs)
              && forall e :: e in entries && !e.isDir ==> |e.bytes| < 10_737_418_240
    ensures Quiet(world.env) ==>
              (err.None? <==> CanExtract(world.env, downloadDir, old(world.fs), world.env.TempPath(old(world.clock))))
    ensures world.log == old(world.log)
    ensures TameZips(world.env.codecs) ==>
              forall q :: world.env.TempApart(q) ==> At(world.fs, q) == At(old(world.fs), q)
    ensures err.None? ==> exists tick :: buildDir == world.env.TempPath(tick)
    ensures err.Some? ==> AsDescriptive(err.value).None?
  {
    hide Entries, AppliedAll, CanApplyAll, CanTempDir, Extraction;
    var extractor := new Unzipper(TEN_GB);
    ghost var fs0 := world.fs;
    var dir := world.TempDir();
    if dir.None? {
      return [], Some(Formatted("failed to create temp dir", Plain("mkdir")));
    }
    buildDir := dir.value;
    ghost var made := world.fs;
    err := extractor.Extract(world, downloadDir + ["app.zip"], buildDir);
    forall q | world.env.TempApart(q) && TameZips(world.env.codecs)
      ensures At(world.fs, q) == At(fs0, q)
    {
      TameListing(world.env, made, downloadDir + ["app.zip"]);
      ExtractionBeneath(world.env, TEN_GB, Entries(world.env, made, downloadDir + ["app.zip"]), buildDir, err.None?,
                        made, world.fs, q);
    }
    if err.None? {
      WithinTenGB(Entries(world.env, made, downloadDir + ["app.zip"]).value, buildDir, made);
    }
    if Quiet(world.env) {
      ExtractionFails(world.env, TEN_GB, Entries(world.env, made, downloadDir + ["app.zip"]), buildDir, err.None?,
                      made, world.fs);
    }
    if err.Some? {
      return [], Some(Formatted("extraction failed", err.value));
    }
  }

  lemma WithinTenGB(entries: seq<ZipEntry>, dest: Path, before: FS)
    requires CanApplyAll(before, dest, entries, TEN_GB)
    ensures forall e :: e in entries && !e.isDir ==> |e.bytes| < 10_737_418_240
  {
    hide AppliedAll, CanApply;
    forall e | e in entries && !e.isDir
      ensures |e.bytes| < 10_737_418_240
    {
      var i :| 0 <= i < |entries| && entries[i] == e;
      assert WithinLimit(entries[i], TEN_GB);
    }
  }

  lemma ExtractionFails(env: Env, limit: int, listing: Option<seq<ZipEntry>>, dest: Path, ok: bool,
                        before: FS, after: FS)
    requires Extraction(env, limit, listing, dest, ok, before, after) && dest != [] && Quiet(env)
    ensures ok <==> listing.Some? && CanApplyAll(before, dest, listing.value, limit)
  {
  }

  /** The build directory is there when the build starts. */
  lemma BuildDirMade(env: Env, downloadDir: Path, fs0: FS, buildDir: Path, fs1: FS)
    requires BitsExtracted(env, downloadDir, fs0, buildDir, fs1)
    ensures buildDir in fs1
  {
    hide Entries, AppliedAll, CanApplyAll;
    var entries := Entries(env, fs0[buildDir := Dir], downloadDir + ["app.zip"]).value;
    ExtractedAt(fs0[buildDir := Dir], buildDir, entries, TEN_GB, buildDir);
    assert At(fs1, buildDir).Some?;
  }

  /** The contents directory is a new temporary one, so it is not the build directory. */
  lemma SpacedSeparate(a: Account, downloadDir: Path, fs: FS, places: Places)
    requires Founded(a) && a.ready && Spaced(a.job.env, places)
    requires a.job.config.places == places.(buildDir := a.job.config.places.buildDir)
    requires BitsExtracted(a.job.env, downloadDir, fs, a.job.config.places.buildDir, a.fs0)
    ensures Separate(a.job.config.places, a.job.contentsDir)
  {
    hide Job.Prepared, Job.OuterDirs, Job.InnerDirs, Roomy, Genuine, MkAll, CanMkAll, ReadDir, Extraction;
    var job := a.job;
    var build, contents := job.config.places.buildDir, job.contentsDir;
    BuildDirMade(job.env, downloadDir, fs, build, a.fs0);
    MkAllAt(a.fs0, job.OuterDirs(), build);
    assert At(MkAll(a.fs0, job.OuterDirs()), build).Some?;
    assert !(contents <= build);
    assert |contents| == |build|;
    assert build <= contents ==> build == contents;
    var s :| contents == job.env.TempPath(s);
    var t :| build == job.env.TempPath(t);
    TempsApart(job.env, places, s);
    TempsApart(job.env, places, t);
  }

  lemma TempsApart(env: Env, c: Places, tick: nat)
    requires Spaced(env, c)
    ensures var t := env.TempPath(tick);
            && Apart(t, c.cacheDir) && Apart(t, c.buildpacksDir) && Apart(t, c.outputDroplet)
            && Apart(t, c.outputCache) && Apart(t, c.outputMetadata)
  {
  }

  /** The explained exit codes are none of 0 and 1. */
  lemma CodesNonZero(job: Job, s: Phase, code: Option<int>)
    requires code.Some? ==> job.Explains(code, s)
    ensures code.Some? ==> code.value in {222, 223, 224, 225, 227}
  {
    hide Job.Resolve, Job.Script, Job.NextDetectable, Job.Metadata, Job.Procfile;
  }

  /** The three output files hold the droplet, the cache and the result. */
  ghost predicate OutputsReadable(job: Job, rel: Phase, fs: FS) {
    var c, codecs := job.config.places, job.env.codecs;
    && rel.Released?
    && At(fs, c.outputDroplet) == Some(File(codecs.tar(job.Droplet(rel))))
    && At(fs, c.outputCache) == Some(File(codecs.tar(job.OutputCache(rel))))
    && At(fs, c.outputMetadata) == Some(File(codecs.encodeResult(job.Result(rel))))
  }

  /** Removing the contents and build directories leaves the outputs in place. */
  lemma OutputsStay(a: Account, fs: FS)
    requires a.ready && a.err.None? && Leaves(a) && CleanedUp(a, fs)
    requires Separate(a.job.config.places, a.job.contentsDir)
    ensures OutputsReadable(a.job, a.job.Replay(a.start, a.trace), fs)
  {
    hide Job.Packaged, Job.Droplet, Job.OutputCache, Job.Result, Job.Replay, Job.LeavesAt, Job.PackagesOnly;
    OutputsInPlace(a.job, a.job.Replay(a.start, a.trace));
  }

  lemma Cleans(a: Account, executed: FS, fs: FS)
    requires var contents := a.job.contentsDir;
             if contents == [] then executed == a.left
             else && (forall q :: !(contents <= q) ==> At(executed, q) == At(a.left, q))
                  && (Quiet(a.job.env) ==> executed == Pruned(a.left, contents))
    requires forall q :: !(a.job.config.places.buildDir <= q) ==> At(fs, q) == At(executed, q)
    requires Quiet(a.job.env) ==> fs == Pruned(executed, a.job.config.places.buildDir)
    ensures CleanedUp(a, fs)
  {
    hide Pruned;
  }

  /** The report on a completed build is never refused. */
  lemma ReportedEndToEnd(a: Account, fs: FS, json: string)
    requires var rel := a.job.Replay(a.start, a.trace);
             rel.Released? && OutputsReadable(a.job, rel, fs)
    requires a.job.config.InRange() && Configured(a.job.env.codecs, json, a.job.config)
    requires RoundTrips(a.job.env.codecs) && !a.job.env.unreadable(a.job.config.places.outputMetadata)
    ensures Reported(a.job.env, fs, a.job.config.places.outputMetadata, json).Some?
  {
    hide Job.Replay, Job.Droplet, Job.OutputCache, Modified, NamesOf;
    var rel, codecs := a.job.Replay(a.start, a.trace), a.job.env.codecs;
    KeysListed(a.job, a.start, a.trace);
    assert a.job.config.order != [] by { assert rel.meta[0].key in a.job.config.order; }
    NeverMisses(a.job, a.start, a.trace, codecs.buildpacks(json).value);
    assert codecs.decodeResult(codecs.encodeResult(a.job.Result(rel))) == Some(a.job.Result(rel));
  }

  lemma ExplainedPhase(job: Job, code: Option<int>, s: Phase)
    requires job.Explains(code, s)
    ensures s != Wrong
  {
    hide Job.Resolve, Job.Script, Job.NextDetectable, Job.Metadata, Job.Procfile;
  }

  /** What the exit code of the process says about the scripts that ran. */
  lemma ExitCodeStory(a: Account, exitCode: int)
    requires ExitTells(a, exitCode) && a.job.config.InRange()
    ensures exitCode == 222 ==>
              forall i :: 0 <= i < |a.trace| ==> a.trace[i].inv.Detect? && !a.trace[i].ok
    ensures exitCode == 225 ==>
              NoneRun(a.trace, IS_COMPILE) && NoneRun(a.trace, IS_FINALIZE) && NoneRun(a.trace, IS_RELEASE)
    ensures exitCode == 223 ==> NoneRun(a.trace, IS_FINALIZE) && NoneRun(a.trace, IS_RELEASE)
    ensures exitCode == 227 ==> NoneRun(a.trace, IS_COMPILE) && NoneRun(a.trace, IS_RELEASE)
    ensures exitCode == 224 ==> Ran(a.trace, IS_FINALIZE) || Ran(a.trace, IS_COMPILE)
    ensures exitCode == 0 || (exitCode == 1 && a.ready) ==>
              exists n: nat, bp, finalized :: Traces.Word(a.job, a.trace, n, bp, finalized)
    ensures exitCode in {0, 1, 222, 223, 224, 225, 227}
  {
    hide Job.Replay, Job.CanPackage, Job.CanFurnish, Job.Prepared, Job.Explains, Word;
    var s := a.job.Replay(a.start, a.trace);
    var code := if exitCode == 0 || exitCode == 1 then None else Some(exitCode);
    ReleasedExplains(a.job, s, None);
    if a.ready {
      ExplainedPhase(a.job, code, s);
      ExitCodes(a.job, a.start, a.trace, code);
      if code.None? {
        NoneMeansReleased(a.job, s);
        var n := TraceLanguage(a.job, a.start, a.trace);
      }
    }
  }

  /** A phase explains one exit code. */
  lemma ExplainsOne(job: Job, s: Phase, c: Option<int>, d: Option<int>)
    requires job.Explains(c, s) && job.Explains(d, s)
    ensures c == d
  {
    hide Job.Resolve, Job.Metadata, Job.Script, Job.Procfile, Job.NextDetectable;
  }

  /** The process exits with 222 exactly if the detect script of every buildpack that has one was
      run and failed. */
  lemma ExitsUndetected(a: Account, exitCode: int)
    requires ExitTells(a, exitCode) && a.ready && !a.job.config.skipDetect && ConfinedScripts(a.job.env)
    requires Apart(a.job.config.places.buildDir, a.job.config.places.buildpacksDir)
    requires a.job.config.InRange()
    ensures exitCode == 222 <==>
            (forall k :: 0 <= k < |a.trace| ==> !a.trace[k].ok && a.trace[k].inv.Detect?) &&
            |a.trace| == |Candidates(a.job, a.start, |a.job.config.order|)|
  {
    hide Job.Replay, Job.CanPackage, Job.CanFurnish, Job.Prepared, Job.Explains, Roomy, Candidates, Apart;
    hide ConfinedScripts, Confined;
    var s := a.job.Replay(a.start, a.trace);
    GenuineIsConfined(a.job.env, a.trace);
    var code := if exitCode == 0 || exitCode == 1 then None else Some(exitCode);
    ReleasedExplains(a.job, s, None);
    ExplainedPhase(a.job, code, s);
    NoneDetected(a.job, a.start, a.trace);
    if a.job.Explains(Some(222), s) {
      ExplainsOne(a.job, s, code, Some(222));
    }
  }

  lemma NoneMeansReleased(job: Job, s: Phase)
    requires job.Explains(None, s)
    ensures s.Released?
  {
    hide Job.Resolve, Job.Metadata;
  }

  /** The number the process exits with, by the last script of its build: which one failed, or what can
      go wrong after one that did not. */
  lemma ExitCodeOfLastScript(a: Account, exitCode: int)
    requires ExitTells(a, exitCode) && a.ready && a.job.config.InRange()
    ensures if a.trace == [] then exitCode == 222 || a.job.config.skipDetect
            else if a.trace[|a.trace| - 1].ok then
              match a.trace[|a.trace| - 1].inv
              case Release(_, _) =>
                if a.job.env.codecs.release(a.trace[|a.trace| - 1].output).None? then exitCode == 224
                else exitCode == 0 || exitCode == 1
              case Compile(_, _, _) => exitCode == 224
              case Finalize(_, _, _, _, _, _) => exitCode == 224
              case _ => exitCode in {223, 225, 227}
            else
              match a.trace[|a.trace| - 1].inv
              case Detect(_, _) => exitCode == 222
              case Compile(_, _, _) => exitCode == 223
              case Release(_, _) => exitCode == 224
              case Supply(_, _, _, _, _) => exitCode == 225
              case Finalize(_, _, _, _, _, _) => exitCode == 227
  {
    hide Job.Replay, Job.CanPackage, Job.CanFurnish, Job.Prepared, Job.Explains, Founded, Leaves;
    var s := a.job.Replay(a.start, a.trace);
    var code := if exitCode == 0 || exitCode == 1 then None else Some(exitCode);
    ReleasedExplains(a.job, s, None);
    ExplainedPhase(a.job, code, s);
    LastScriptCode(a.job, a.start, a.trace, code);
  }

  /** A process that exits with 0 accounts for a completed build on what it was given, so everything
      proved of those holds of what it leaves: the droplet's layout, the aligned metadata and the
      round of the cache. */
  lemma ExitZeroCompleted(a: Account, downloadDir: Path, fs: FS, places: Places, json: string)
    requires ExitTells(a, 0) && Configured(a.job.env.codecs, json, a.job.config)
    requires a.job.config.places == places.(buildDir := a.job.config.places.buildDir)
    requires BitsExtracted(a.job.env, downloadDir, fs, a.job.config.places.buildDir, a.fs0)
    requires Spaced(a.job.env, places)
    requires ConfinedScripts(a.job.env) && SaneLog10(a.job.env.codecs.log10)
    ensures Completed(a.job, a.fs0, a.start, a.trace)
  {
    hide Job.Replay, Job.CanPackage, Job.CanMake, Job.Prepared, ConfinedScripts, Confined, NamesOf, Spaced;
    hide Separate, BitsExtracted, Roomy, Job.Explains, Leaves, Job.FurnishesOnly, Job.AllSuppliable, Env.TempPath;
    GenuineIsConfined(a.job.env, a.trace);
    SpacedSeparate(a, downloadDir, fs, places);
  }

  /** Extracting the app bits touches nothing outside the new directory and those above it. */
  lemma ExtractionKeeps(env: Env, downloadDir: Path, fs0: FS, buildDir: Path, fs1: FS, q: Path)
    requires BitsExtracted(env, downloadDir, fs0, buildDir, fs1) && env.TempApart(q) && TameZips(env.codecs)
    ensures At(fs1, q) == At(fs0, q)
  {
    hide Extraction, Entries;
    var tick :| buildDir == env.TempPath(tick);
    assert Apart(env.TempPath(tick), q);
    TameListing(env, fs0[buildDir := Dir], downloadDir + ["app.zip"]);
    ExtractionBeneath(env, TEN_GB, Entries(env, fs0[buildDir := Dir], downloadDir + ["app.zip"]), buildDir, true,
                      fs0[buildDir := Dir], fs1, q);
  }

  // ----- What a failed build leaves alone

  lemma NotAboveOutputs(job: Job, p: Path)
    requires Separate(job.config.places, job.contentsDir)
    requires p == job.config.places.outputDroplet || p == job.config.places.outputCache
             || p == job.config.places.outputMetadata
    ensures NotAbove(job.OuterDirs(), p) && OutOfReach(job, p) && !(job.DepsSubDir(job.K()) <= p)
  {
    hide Job.Hash, Job.DepsIndex;
    var c, dirs := job.config.places, job.OuterDirs();
    forall i | 0 <= i < |dirs|
      ensures !(p <= dirs[i])
    {
      var d := if i == 0 then c.outputDroplet else if i == 1 then c.outputMetadata else c.cacheDir;
      if i >= 2 {
        assert d <= dirs[i];
        assert dirs[i] == if i == 2 then job.FinalCache() else job.CachePath(job.Supplies()[i - 3]);
        ApartNotAbove(d, dirs[i], p);
      } else {
        assert dirs[i] == Parent(d) && d != [];
        if p != d {
          PrefixOfParent(p, d);
        }
      }
    }
    assert job.contentsDir <= job.ProfileDir() && forall i :: job.contentsDir <= job.DepsSubDir(i);
  }

  /** A build that ends with one of its own exit codes leaves the droplet, the cache archive and the
      result file as they were before the process. */
  lemma FailureLeavesOutputs(a: Account, exitCode: int, downloadDir: Path, entry: FS, places: Places, fs: FS,
                             p: Path)
    requires ExitTells(a, exitCode) && exitCode in {222, 223, 224, 225, 227} && CleanedUp(a, fs)
    requires a.job.config.places == places.(buildDir := a.job.config.places.buildDir)
    requires BitsExtracted(a.job.env, downloadDir, entry, a.job.config.places.buildDir, a.fs0)
    requires Spaced(a.job.env, places) && ConfinedScripts(a.job.env) && TameZips(a.job.env.codecs)
    requires p == places.outputDroplet || p == places.outputCache || p == places.outputMetadata
    ensures At(fs, p) == At(entry, p)
  {
    hide Job.Replay, Job.CanPackage, Job.CanFurnish, Job.Prepared, ConfinedScripts, Confined, BitsExtracted, Roomy;
    hide Job.Explains, Job.PackagesOnly, OutOfReach, Job.Packaged, Job.OuterDirs, NotAbove, TameZips;
    var s := a.job.Replay(a.start, a.trace);
    SpacedSeparate(a, downloadDir, entry, places);
    GenuineIsConfined(a.job.env, a.trace);
    NotAboveOutputs(a.job, p);
    ExplainedPhase(a.job, Some(exitCode), s);
    Kept(a.job, a.start, a.trace, |a.trace|, p);
    ReplayState(a.job, a.start, a.trace);
    ExtractionKeeps(a.job.env, downloadDir, entry, a.job.config.places.buildDir, a.fs0, p);
    assert a.job.Settle(s).fs == s.fs;
  }
}
