/** What a build's scripts may touch, and what therefore stays the same from one script to the
    next. */
module Frames {
  import opened FileSystem
  import opened Configuration
  import opened World
  import opened Protocol
  import opened Running

  /** The directories beneath which a script may change things. Supply and finalize are given the
      whole deps directory but keep to their own index in it. */
  function WriteRoots(inv: Invocation): set<Path> {
    match inv
    case Supply(_, build, cache, deps, idx) => {build, cache, deps + [idx]}
    case Finalize(_, build, cache, deps, idx, profile) => {build, cache, deps + [idx], profile}
    case Compile(_, build, cache) => {build, cache}
    case Detect(_, build) => {build}
    case Release(_, build) => {build}
  }

  predicate MayTouch(inv: Invocation, q: Path) {
    exists r :: r in WriteRoots(inv) && r < q
  }

  ghost predicate Confined(e: Event) {
    forall q :: !MayTouch(e.inv, q) ==> At(e.after, q) == At(e.before, q)
  }

  /** The assumption on buildpack scripts: each changes only what lies beneath its directories. */
  ghost predicate ConfinedScripts(env: Env) {
    forall tick, inv, fs ::
      var o := env.script(tick, inv, fs);
      Confined(Event(inv, fs, o.ok, o.output, o.fs))
  }

  ghost predicate AllConfined(trace: seq<Event>) {
    forall i :: 0 <= i < |trace| ==> Confined(trace[i])
  }

  lemma GenuineIsConfined(env: Env, trace: seq<Event>)
    requires ConfinedScripts(env) && forall i :: 0 <= i < |trace| ==> Genuine(env, trace[i])
    ensures AllConfined(trace)
  {
    forall i | 0 <= i < |trace|
      ensures Confined(trace[i])
    {
      var e := trace[i];
      var tick :| env.script(tick, e.inv, e.before) == Outcome(e.ok, e.output, e.after);
      var o := env.script(tick, e.inv, e.before);
      assert Confined(Event(e.inv, e.before, o.ok, o.output, o.fs));
    }
  }

  /** The directories and files of a build do not contain one another. */
  ghost predicate Separate(c: Places, contentsDir: Path) {
    && Apart(contentsDir, c.buildDir) && Apart(contentsDir, c.cacheDir)
    && Apart(contentsDir, c.outputDroplet) && Apart(contentsDir, c.outputCache)
    && Apart(contentsDir, c.outputMetadata)
    && Apart(c.buildDir, c.cacheDir) && Apart(c.buildDir, c.buildpacksDir)
    && Apart(c.buildDir, c.outputDroplet) && Apart(c.buildDir, c.outputMetadata)
    && Apart(c.buildDir, c.outputCache)
    && Apart(c.cacheDir, c.outputDroplet) && Apart(c.cacheDir, c.outputCache)
    && Apart(c.cacheDir, c.outputMetadata) && Apart(c.cacheDir, c.buildpacksDir)
    && Apart(contentsDir, c.buildpacksDir)
    && Apart(c.outputDroplet, c.outputCache) && Apart(c.outputDroplet, c.outputMetadata)
    && Apart(c.outputCache, c.outputMetadata)
  }

  /** The file system after the first n scripts of a trace. */
  function StateAfter(start: FS, trace: seq<Event>, n: nat): FS
    requires n <= |trace|
  {
    if n == 0 then start else trace[n - 1].after
  }

  lemma StepState(job: Job, s: Phase, e: Event)
    requires job.Step(s, e) != Wrong
    ensures s != Wrong && job.Step(s, e).fs == e.after
    ensures e.before == if e.inv.Compile? then Pruned(s.fs, job.DepsSubDir(job.K())) else s.fs
  {
    hide Stat, Job.Resolve, Job.Hash, Job.Metadata, Job.DetectedMeta, Job.DepsIndex, Job.Merge, Job.Script;
    hide Job.Procfile, Pruned, Job.CachePath;
    assert job.Settle(s) == s || job.Settle(s).fs == s.fs;
  }

  /** Each phase of a replay holds the state its last script left. */
  lemma {:induction false} ReplayState(job: Job, start: FS, trace: seq<Event>)
    requires job.Replay(start, trace) != Wrong
    ensures job.Replay(start, trace).fs == StateAfter(start, trace, |trace|)
  {
    hide Job.Step;
    if trace != [] {
      StepState(job, job.Replay(start, trace[..|trace| - 1]), trace[|trace| - 1]);
    }
  }

  lemma {:induction false} ReplayFront(job: Job, start: FS, trace: seq<Event>, n: nat)
    requires job.Replay(start, trace) != Wrong && n <= |trace|
    ensures job.Replay(start, trace[..n]) != Wrong
    decreases |trace| - n
  {
    hide Job.Step;
    if n == |trace| {
      assert trace[..n] == trace;
    } else {
      ReplayFront(job, start, trace, n + 1);
      assert trace[..n + 1][..n] == trace[..n];
      StepState(job, job.Replay(start, trace[..n]), trace[n]);
    }
  }

  /** Each script starts where the one before it stopped, but for the deps directory that is
      removed before compiling. */
  lemma Chained(job: Job, start: FS, trace: seq<Event>, n: nat)
    requires job.Replay(start, trace) != Wrong && n < |trace|
    ensures trace[n].before ==
              if trace[n].inv.Compile? then Pruned(StateAfter(start, trace, n), job.DepsSubDir(job.K()))
              else StateAfter(start, trace, n)
  {
    hide Job.Step, Job.Start, Job.DepsSubDir;
    ReplayFront(job, start, trace, n + 1);
    ReplayFront(job, start, trace, n);
    assert trace[..n + 1][..n] == trace[..n] && trace[..n + 1][n] == trace[n];
    StepState(job, job.Replay(start, trace[..n]), trace[n]);
    ReplayState(job, start, trace[..n]);
    assert StateAfter(start, trace[..n], n) == StateAfter(start, trace, n);
  }

  /** A path that none of the scripts m to n may touch, and that is not in the removed deps
      directory, is the same after script n as after script m. */
  lemma {:induction false} Steady(job: Job, start: FS, trace: seq<Event>, m: nat, n: nat, q: Path)
    requires job.Replay(start, trace) != Wrong && AllConfined(trace)
    requires m <= n <= |trace|
    requires forall i :: m <= i < n ==> !MayTouch(trace[i].inv, q)
    requires job.DepsSubDir(job.K()) <= q ==> forall i :: m <= i < n ==> !trace[i].inv.Compile?
    ensures At(StateAfter(start, trace, n), q) == At(StateAfter(start, trace, m), q)
    decreases n
  {
    hide Job.Replay, Job.DepsSubDir, MayTouch;
    if m < n {
      Steady(job, start, trace, m, n - 1, q);
      Chained(job, start, trace, n - 1);
      PrunedAt(StateAfter(start, trace, n - 1), job.DepsSubDir(job.K()));
      assert Confined(trace[n - 1]);
    }
  }

  /** Reading a file looks only at the path and those above it. */
  lemma ReadStable(env: Env, a: FS, b: FS, p: Path)
    requires forall q :: q <= p ==> At(a, q) == At(b, q)
    ensures Stat(env, a, p) == Stat(env, b, p)
    ensures ReadFile(env, a, p) == ReadFile(env, b, p)
  {
    forall q | q in Prefixes(p)
      ensures q in a <==> q in b
      ensures q in a ==> a[q] == b[q]
    {
      assert At(a, q) == At(b, q);
    }
    assert p in Prefixes(p);
  }

  /** The calls a build makes have the directories of its job as arguments. */
  lemma StepCall(job: Job, s: Phase, e: Event)
    requires job.Step(s, e) != Wrong
    ensures WriteRoots(e.inv) <= {job.config.places.buildDir, job.FinalCache(), job.ProfileDir()}
                                 + (set name | name in job.Supplies() :: job.CachePath(name))
                                 + (set i | 0 <= i <= job.K() :: job.DepsSubDir(i))
  {
    hide Stat, Job.Resolve, Job.Hash, Job.ReadConfigYml, Job.DetectedMeta, Job.DepsIndex, Job.Merge, Job.Metadata;
    hide Job.StepSupplying, WriteRoots;
    var t := job.Settle(s);
    if t.Supplying? {
      SupplyRoots(job, t.next, t.fs, e);
    } else {
      CallRoots(job, e.inv);
    }
  }

  lemma SupplyRoots(job: Job, i: nat, fs: FS, e: Event)
    requires job.StepSupplying(i, fs, e) != Wrong
    ensures i < job.K() && job.config.order[i] in job.Supplies()
    ensures WriteRoots(e.inv) == {job.config.places.buildDir, job.CachePath(job.config.order[i]), job.DepsSubDir(i)}
  {
    hide Stat, Job.Resolve, Job.Hash, Job.DepsIndex;
    assert job.config.order[i] == job.Supplies()[i];
  }

  /** The directories of the final buildpack's calls, and of detect and release. */
  lemma CallRoots(job: Job, inv: Invocation)
    ensures inv.Supply? && inv == job.SupplyCall(inv.bp, job.FinalCache(), job.K()) ==>
              WriteRoots(inv) == {job.config.places.buildDir, job.FinalCache(), job.DepsSubDir(job.K())}
    ensures inv.Finalize? && inv == job.FinalizeCall(inv.bp) ==>
              WriteRoots(inv)
              == {job.config.places.buildDir, job.FinalCache(), job.DepsSubDir(job.K()), job.ProfileDir()}
    ensures inv.Compile? && inv == job.CompileCall(inv.bp) ==>
              WriteRoots(inv) == {job.config.places.buildDir, job.FinalCache()}
    ensures inv.Detect? || inv.Release? ==> WriteRoots(inv) == {inv.build}
  {
    hide Job.DepsIndex;
  }

  lemma CallsWithin(job: Job, start: FS, trace: seq<Event>, n: nat)
    requires job.Replay(start, trace) != Wrong && n < |trace|
    ensures WriteRoots(trace[n].inv) <= {job.config.places.buildDir, job.FinalCache(), job.ProfileDir()}
                                        + (set name | name in job.Supplies() :: job.CachePath(name))
                                        + (set i | 0 <= i <= job.K() :: job.DepsSubDir(i))
  {
    hide Job.Step, WriteRoots, Job.CachePath, Job.DepsSubDir;
    ReplayFront(job, start, trace, n + 1);
    assert trace[..n + 1][..n] == trace[..n] && trace[..n + 1][n] == trace[n];
    StepCall(job, job.Replay(start, trace[..n]), trace[n]);
  }
}
