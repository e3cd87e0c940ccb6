/** The language of script traces, stated over the calls alone, and what each exit code says about
    the scripts that ran. */
module Traces {
  import opened Prelude
  import opened FileSystem
  import opened Errors
  import opened World
  import opened Protocol
  import opened Frames

  /** `bp` is the buildpack's own directory or one nested directly in it. */
  ghost predicate Houses(job: Job, name: string, bp: Path) {
    var base := job.config.places.buildpacksDir + [job.Hash(name)];
    bp == base || exists n :: bp == base + [n]
  }

  lemma ResolveHouses(job: Job, fs: FS, name: string)
    ensures job.Resolve(fs, name).Some? ==> Houses(job, name, job.Resolve(fs, name).value)
  {
    hide Job.Hash, Stat;
  }

  /** Supply script i of the multi-buildpack phase, with the cache and deps index that belong to
      buildpack i. */
  ghost predicate SupplyAt(job: Job, e: Event, i: nat)
    requires i < |job.config.order|
  {
    && e.inv.Supply? && Houses(job, job.config.order[i], e.inv.bp)
    && e.inv == job.SupplyCall(e.inv.bp, job.CachePath(job.config.order[i]), i)
  }

  ghost predicate DetectIn(job: Job, e: Event) {
    e.inv.Detect? && e.inv.build == job.config.places.buildDir
    && exists name :: name in job.config.order && Houses(job, name, e.inv.bp)
  }

  ghost predicate FailedDetects(job: Job, t: seq<Event>) {
    forall i :: 0 <= i < |t| ==> DetectIn(job, t[i]) && !t[i].ok
  }

  ghost predicate Supplied(job: Job, t: seq<Event>) {
    job.config.skipDetect && |t| <= job.K() < |job.config.order|
    && forall i :: 0 <= i < |t| ==> SupplyAt(job, t[i], i) && t[i].ok
  }

  /** The scripts that lead to the choice of `bp`: every supply in order, or failing detects and
      then one that succeeds. */
  ghost predicate SetupWord(job: Job, t: seq<Event>, bp: Path) {
    if job.config.skipDetect then
      Supplied(job, t) && |t| == job.K() && Houses(job, job.config.order[job.K()], bp)
    else
      && t != [] && FailedDetects(job, t[..|t| - 1])
      && DetectIn(job, t[|t| - 1]) && t[|t| - 1].ok && t[|t| - 1].inv.bp == bp
  }

  ghost predicate FinalSupply(job: Job, e: Event, bp: Path) {
    e.inv == job.SupplyCall(bp, job.FinalCache(), job.K())
  }

  /** Either compile alone, or finalize after the buildpack's own supply if it has one. */
  ghost predicate BuildWord(job: Job, t: seq<Event>, bp: Path, finalized: bool) {
    && (forall i :: 0 <= i < |t| ==> t[i].ok)
    && if finalized then
         || (|t| == 1 && t[0].inv == job.FinalizeCall(bp))
         || (|t| == 2 && FinalSupply(job, t[0], bp) && t[1].inv == job.FinalizeCall(bp))
       else |t| == 1 && t[0].inv == job.CompileCall(bp)
  }

  ghost predicate ReleaseOf(job: Job, e: Event, bp: Path) {
    e.inv == Release(bp, job.config.places.buildDir)
  }

  /** A complete trace: n set-up scripts, the build, and release. */
  ghost predicate Word(job: Job, t: seq<Event>, n: nat, bp: Path, finalized: bool) {
    && n + 2 <= |t| && SetupWord(job, t[..n], bp)
    && BuildWord(job, t[n..|t| - 1], bp, finalized)
    && ReleaseOf(job, t[|t| - 1], bp) && t[|t| - 1].ok
  }

  /** The traces that lead to a phase in which the build is still going. */
  ghost predicate Live(job: Job, t: seq<Event>, s: Phase) {
    match s
    case Supplying(i, _) => Supplied(job, t) && i == |t|
    case Detecting(_, _) => !job.config.skipDetect && FailedDetects(job, t)
    case Chosen(bp, _, _) => SetupWord(job, t, bp)
    case FinalSupplied(bp, _, _) =>
      t != [] && SetupWord(job, t[..|t| - 1], bp) && FinalSupply(job, t[|t| - 1], bp) && t[|t| - 1].ok
    case Built(bp, _, finalized, _) =>
      exists n | 0 <= n <= |t| :: SetupWord(job, t[..n], bp) && BuildWord(job, t[n..], bp, finalized)
    case Released(bp, _, finalized, _, _, _) => exists n: nat :: Word(job, t, n, bp, finalized)
    case _ => false
  }

  /** The script that stops a build with this code, in the phase before it. */
  ghost predicate Fails(job: Job, s: Phase, e: Event, code: int) {
    match s
    case Supplying(i, _) =>
      code == SUPPLY_FAIL_CODE && !e.ok && i < job.K() < |job.config.order| && SupplyAt(job, e, i)
    case Chosen(bp, _, _) =>
      !e.ok && ((code == SUPPLY_FAIL_CODE && FinalSupply(job, e, bp))
                || (code == FINALIZE_FAIL_CODE && e.inv == job.FinalizeCall(bp))
                || (code == COMPILE_FAIL_CODE && e.inv == job.CompileCall(bp)))
    case FinalSupplied(bp, _, _) =>
      code == FINALIZE_FAIL_CODE && !e.ok && e.inv == job.FinalizeCall(bp)
    case Built(bp, _, _, _) => code == RELEASE_FAIL_CODE && ReleaseOf(job, e, bp)
    case _ => false
  }

  /** The trace was going on in phase `p` until its last script stopped it. */
  ghost predicate Ends(job: Job, t: seq<Event>, p: Phase, code: int) {
    t != [] && Live(job, t[..|t| - 1], p) && Fails(job, p, t[|t| - 1], code)
  }

  /** The traces that lead to any phase. */
  ghost predicate Fits(job: Job, t: seq<Event>, s: Phase) {
    match s
    case Stopped(code, _) =>
      || (t == [] && code == SUPPLY_FAIL_CODE && job.config.skipDetect)
      || exists p :: Ends(job, t, p, code)
    case Wrong => true
    case _ => Live(job, t, s)
  }

  lemma LiveSettle(job: Job, t: seq<Event>, s: Phase)
    requires Live(job, t, s)
    ensures Live(job, t, job.Settle(s))
  {
    hide Job.Resolve, Job.Hash, Houses, Job.Metadata, Stat;
    if s.Supplying? && job.K() < |job.config.order| {
      ResolveHouses(job, s.fs, job.config.order[job.K()]);
    }
  }

  lemma LiveSupplying(job: Job, t: seq<Event>, i: nat, fs: FS, e: Event)
    requires Live(job, t, Supplying(i, fs)) && job.StepSupplying(i, fs, e) != Wrong
    ensures Fits(job, t + [e], job.StepSupplying(i, fs, e))
  {
    hide Job.Resolve, Job.Hash, Houses, Stat;
    ResolveHouses(job, fs, job.config.order[i]);
    assert SupplyAt(job, e, i);
    assert (t + [e])[..|t|] == t;
    if !e.ok {
      assert Ends(job, t + [e], Supplying(i, fs), SUPPLY_FAIL_CODE);
    }
  }

  lemma LiveDetecting(job: Job, t: seq<Event>, i: nat, fs: FS, e: Event)
    requires Live(job, t, Detecting(i, fs)) && job.StepDetecting(i, fs, e) != Wrong
    ensures Fits(job, t + [e], job.StepDetecting(i, fs, e))
  {
    hide Job.Resolve, Job.Hash, Houses, Stat, Job.Script, Job.DetectedMeta;
    var j := job.NextDetectable(fs, i);
    ResolveHouses(job, fs, job.config.order[j]);
    assert job.config.order[j] in job.config.order;
    assert DetectIn(job, e);
    assert (t + [e])[..|t|] == t;
  }

  lemma LiveChosen(job: Job, t: seq<Event>, s: Phase, e: Event)
    requires s.Chosen? && Live(job, t, s) && job.StepChosen(s.bp, s.meta, s.fs, e) != Wrong
    ensures Fits(job, t + [e], job.StepChosen(s.bp, s.meta, s.fs, e))
  {
    hide Stat, Job.Script, Job.Metadata, SetupWord, Job.DepsSubDir, Job.DepsIndex, Job.DepsDir, Job.ProfileDir;
    assert (t + [e])[..|t|] == t && (t + [e])[|t|..] == [e];
    if e.ok && !e.inv.Supply? {
      assert BuildWord(job, [e], s.bp, e.inv.Finalize?);
    } else if !e.ok {
      assert Ends(job, t + [e], s, job.StepChosen(s.bp, s.meta, s.fs, e).code);
    }
  }

  lemma LiveFinalSupplied(job: Job, t: seq<Event>, s: Phase, e: Event)
    requires s.FinalSupplied? && Live(job, t, s) && job.StepFinalize(s.bp, s.meta, s.fs, e) != Wrong
    ensures Fits(job, t + [e], job.StepFinalize(s.bp, s.meta, s.fs, e))
  {
    hide Job.Metadata, SetupWord, Job.DepsIndex, Job.DepsDir, Job.ProfileDir;
    var n, w := |t| - 1, t + [e];
    assert w[..|t|] == t && w[..n] == t[..n];
    if e.ok {
      assert w[n..] == [t[n], e];
      assert BuildWord(job, w[n..], s.bp, true);
    } else {
      assert Ends(job, w, s, FINALIZE_FAIL_CODE);
    }
  }

  lemma LiveBuilt(job: Job, t: seq<Event>, s: Phase, e: Event)
    requires s.Built? && Live(job, t, s) && job.StepBuilt(s.bp, s.meta, s.finalized, s.fs, e) != Wrong
    ensures Fits(job, t + [e], job.StepBuilt(s.bp, s.meta, s.finalized, s.fs, e))
  {
    hide Job.Procfile, Job.Merge, SetupWord, BuildWord;
    var w := t + [e];
    assert w[..|t|] == t;
    var n :| 0 <= n <= |t| && SetupWord(job, t[..n], s.bp) && BuildWord(job, t[n..], s.bp, s.finalized);
    if job.StepBuilt(s.bp, s.meta, s.finalized, s.fs, e).Released? {
      assert w[..n] == t[..n] && w[n..|t|] == t[n..];
      assert |t[n..]| >= 1 by { BuildWordLength(job, t[n..], s.bp, s.finalized); }
      assert Word(job, w, n, s.bp, s.finalized);
    } else {
      assert Ends(job, w, s, RELEASE_FAIL_CODE);
    }
  }

  lemma BuildWordLength(job: Job, t: seq<Event>, bp: Path, finalized: bool)
    requires BuildWord(job, t, bp, finalized)
    ensures 1 <= |t| <= 2
  {
  }

  lemma FitsStep(job: Job, t: seq<Event>, s: Phase, e: Event)
    requires Fits(job, t, s) && job.Step(s, e) != Wrong
    ensures Fits(job, t + [e], job.Step(s, e))
  {
    hide Live, Fits, Job.StepSupplying, Job.StepDetecting, Job.StepChosen, Job.StepFinalize, Job.StepBuilt;
    hide Job.Resolve, Job.Metadata;
    var u := job.Settle(s);
    FitsOfStep(job, t, s, e);
    LiveSettle(job, t, s);
    match u
    case Supplying(i, fs) => LiveSupplying(job, t, i, fs, e);
    case Detecting(i, fs) => LiveDetecting(job, t, i, fs, e);
    case Chosen(_, _, _) => LiveChosen(job, t, u, e);
    case FinalSupplied(_, _, _) => LiveFinalSupplied(job, t, u, e);
    case Built(_, _, _, _) => LiveBuilt(job, t, u, e);
  }

  /** A phase that can take a step is still going. */
  lemma FitsOfStep(job: Job, t: seq<Event>, s: Phase, e: Event)
    requires Fits(job, t, s) && job.Step(s, e) != Wrong
    ensures Live(job, t, s) && !s.Stopped? && !s.Released?
  {
    hide Live, Job.Resolve, Job.Metadata;
  }

  lemma StartFits(job: Job, start: FS)
    requires job.config.InRange()
    ensures Fits(job, [], job.Start(start))
  {
    hide Job.AllSuppliable;
  }

  /** The main invariant of a trace: it fits the phase its replay reaches. */
  lemma {:induction false} TraceFits(job: Job, start: FS, t: seq<Event>)
    requires job.config.InRange() && job.Replay(start, t) != Wrong
    ensures Fits(job, t, job.Replay(start, t))
  {
    hide Job.Step, Job.Start, Fits;
    if t == [] {
      StartFits(job, start);
    } else {
      var front, e := t[..|t| - 1], t[|t| - 1];
      StepState(job, job.Replay(start, front), e);
      TraceFits(job, start, front);
      FitsStep(job, front, job.Replay(start, front), e);
      assert front + [e] == t;
    }
  }

  /** A build that gets as far as a usable release has run exactly a word of the language, for the
      buildpack it chose. */
  lemma TraceLanguage(job: Job, start: FS, t: seq<Event>) returns (n: nat)
    requires job.config.InRange() && job.Replay(start, t).Released?
    ensures Word(job, t, n, job.Replay(start, t).bp, job.Replay(start, t).finalized)
  {
    hide Job.Replay, Word;
    TraceFits(job, start, t);
    var s := job.Replay(start, t);
    n :| Word(job, t, n, s.bp, s.finalized);
  }

  // ----- Failing builds

  function Good(inv: Invocation): Event {
    Event(inv, map[], true, "", map[])
  }

  /** The trace with a failure of its last script, detect apart, taken back. */
  function Repaired(t: seq<Event>): seq<Event> {
    if t == [] || t[|t| - 1].inv.Detect? then t
    else t[..|t| - 1] + [t[|t| - 1].(ok := true)]
  }

  /** From any live phase the scripts that are still missing complete a word. */
  lemma {:induction false} Completes(job: Job, t: seq<Event>, s: Phase)
    returns (u: seq<Event>, n: nat, bp: Path, fin: bool)
    requires job.config.InRange() && job.config.order != [] && Live(job, t, s)
    ensures Word(job, t + u, n, bp, fin)
    decreases match s case Supplying(i, _) => 10 + job.K() - i case Detecting(_, _) => 9
                case Chosen(_, _, _) => 8 case FinalSupplied(_, _, _) => 7 case Built(_, _, _, _) => 6 case _ => 5
  {
    hide Houses, Job.Hash, Job.DepsIndex, SetupWord, BuildWord;
    var fs: FS := map[];
    match s {
      case Supplying(i, _) =>
        var home := job.config.places.buildpacksDir + [job.Hash(job.config.order[i])];
        HomeHouses(job, job.config.order[i]);
        if i == job.K() {
          assert SetupWord(job, t, home) by { SuppliedSetup(job, t, home); }
          u, n, bp, fin := Completes(job, t, Chosen(home, [], fs));
        } else {
          var e := Good(job.SupplyCall(home, job.CachePath(job.config.order[i]), i));
          assert SupplyAt(job, e, i);
          u, n, bp, fin := Completes(job, t + [e], Supplying(i + 1, fs));
          assert (t + [e]) + u == t + ([e] + u);
          u := [e] + u;
        }
      case Detecting(_, _) =>
        var home := job.config.places.buildpacksDir + [job.Hash(job.config.order[0])];
        HomeHouses(job, job.config.order[0]);
        assert job.config.order[0] in job.config.order;
        var e := Good(Detect(home, job.config.places.buildDir));
        assert SetupWord(job, t + [e], home) by { DetectedSetup(job, t, e, home); }
        u, n, bp, fin := Completes(job, t + [e], Chosen(home, [], fs));
        assert (t + [e]) + u == t + ([e] + u);
        u := [e] + u;
      case Chosen(b, _, _) =>
        var e := Good(job.CompileCall(b));
        assert (t + [e])[..|t|] == t && (t + [e])[|t|..] == [e];
        assert BuildWord(job, [e], b, false) by { OneBuild(job, e, b, false); }
        u, n, bp, fin := Completes(job, t + [e], Built(b, [], false, fs));
        assert (t + [e]) + u == t + ([e] + u);
        u := [e] + u;
      case FinalSupplied(b, _, _) =>
        var e, k := Good(job.FinalizeCall(b)), |t| - 1;
        assert (t + [e])[..k] == t[..k] && (t + [e])[k..] == [t[k], e];
        assert BuildWord(job, [t[k], e], b, true) by { TwoBuild(job, t[k], e, b); }
        u, n, bp, fin := Completes(job, t + [e], Built(b, [], true, fs));
        assert (t + [e]) + u == t + ([e] + u);
        u := [e] + u;
      case Built(b, _, f, _) =>
        n :| 0 <= n <= |t| && SetupWord(job, t[..n], b) && BuildWord(job, t[n..], b, f);
        BuildWordLength(job, t[n..], b, f);
        u, bp, fin := [Good(Release(b, job.config.places.buildDir))], b, f;
        assert (t + u)[..n] == t[..n] && (t + u)[n..|t|] == t[n..];
      case Released(b, _, f, _, _, _) =>
        n :| Word(job, t, n, b, f);
        u, bp, fin := [], b, f;
        assert t + [] == t;
    }
  }

  lemma HomeHouses(job: Job, name: string)
    ensures Houses(job, name, job.config.places.buildpacksDir + [job.Hash(name)])
  {
  }

  lemma SuppliedSetup(job: Job, t: seq<Event>, bp: Path)
    requires Supplied(job, t) && |t| == job.K() && Houses(job, job.config.order[job.K()], bp)
    ensures SetupWord(job, t, bp)
  {
  }

  lemma DetectedSetup(job: Job, t: seq<Event>, e: Event, bp: Path)
    requires !job.config.skipDetect && FailedDetects(job, t) && DetectIn(job, e) && e.ok && e.inv.bp == bp
    ensures SetupWord(job, t + [e], bp)
  {
    hide DetectIn;
    assert (t + [e])[..|t|] == t;
  }

  lemma OneBuild(job: Job, e: Event, bp: Path, finalized: bool)
    requires e.ok && e.inv == if finalized then job.FinalizeCall(bp) else job.CompileCall(bp)
    ensures BuildWord(job, [e], bp, finalized)
  {
  }

  lemma TwoBuild(job: Job, s: Event, e: Event, bp: Path)
    requires s.ok && e.ok && FinalSupply(job, s, bp) && e.inv == job.FinalizeCall(bp)
    ensures BuildWord(job, [s, e], bp, true)
  {
  }

  /** A script that stops the build would, had it succeeded, have carried it on. */
  lemma RepairedLive(job: Job, t: seq<Event>, s: Phase, e: Event, code: int) returns (next: Phase)
    requires Live(job, t, s) && Fails(job, s, e, code)
    ensures Live(job, t + [e.(ok := true)], next)
  {
    hide Houses, Job.Hash, Job.DepsIndex, SetupWord, BuildWord;
    var fs: FS := map[];
    var good := e.(ok := true);
    var w := t + [good];
    assert w[..|t|] == t && w[|t|..] == [good];
    match s {
      case Supplying(i, _) =>
        assert SupplyAt(job, good, i);
        next := Supplying(i + 1, fs);
      case Chosen(bp, _, _) =>
        if e.inv.Supply? {
          next := FinalSupplied(bp, [], fs);
        } else {
          OneBuild(job, good, bp, e.inv.Finalize?);
          next := Built(bp, [], e.inv.Finalize?, fs);
        }
      case FinalSupplied(bp, _, _) =>
        TwoBuild(job, t[|t| - 1], good, bp);
        assert w[..|t| - 1] == t[..|t| - 1] && w[|t| - 1..] == [t[|t| - 1], good];
        next := Built(bp, [], true, fs);
      case Built(bp, meta, f, _) =>
        var n :| 0 <= n <= |t| && SetupWord(job, t[..n], bp) && BuildWord(job, t[n..], bp, f);
        BuildWordLength(job, t[n..], bp, f);
        assert w[..n] == t[..n] && w[n..|t|] == t[n..];
        assert Word(job, w, n, bp, f);
        var types: Models.ProcessTypes := Models.NilTypes;
        next := Released(bp, [], f, fs, types, fs);
    }
  }

  lemma LiveAfterRepair(job: Job, t: seq<Event>, s: Phase) returns (w: seq<Event>, p: Phase)
    requires job.config.InRange() && Fits(job, t, s) && s != Wrong
    ensures w == t || w == Repaired(t)
    ensures Live(job, w, p)
  {
    hide Live, Fails;
    match s {
      case Stopped(code, _) =>
        if t == [] {
          w, p := t, Supplying(0, map[]);
          assert Live(job, t, p) by { EmptySupplied(job); }
        } else {
          var e := t[|t| - 1];
          var q :| Ends(job, t, q, code);
          p := RepairedLive(job, t[..|t| - 1], q, e, code);
          w := Repaired(t);
          assert !e.inv.Detect? by { FailsNoDetect(job, q, e, code); }
        }
      case _ => w, p := t, s;
    }
  }

  lemma EmptySupplied(job: Job)
    requires job.config.skipDetect && job.config.InRange()
    ensures Live(job, [], Supplying(0, map[]))
  {
  }

  lemma FailsNoDetect(job: Job, s: Phase, e: Event, code: int)
    requires Fails(job, s, e, code)
    ensures !e.inv.Detect?
  {
  }

  /** Every trace, also that of a failing build, is the front of a word once a failure of its last
      script is taken back; only with no buildpacks at all is there no word to complete. */
  lemma FailingPrefix(job: Job, start: FS, t: seq<Event>)
    returns (w: seq<Event>, u: seq<Event>, n: nat, bp: Path, fin: bool)
    requires job.config.InRange() && job.config.order != [] && job.Replay(start, t) != Wrong
    ensures w == t || w == Repaired(t)
    ensures Word(job, w + u, n, bp, fin)
  {
    hide Job.Replay, Live, Fits, Word;
    TraceFits(job, start, t);
    var p;
    w, p := LiveAfterRepair(job, t, job.Replay(start, t));
    u, n, bp, fin := Completes(job, w, p);
  }

  /** Only the last script can have failed, detects that were passed over apart. */
  lemma OnlyLastFails(job: Job, start: FS, t: seq<Event>, i: nat)
    requires job.config.InRange() && job.Replay(start, t) != Wrong
    requires i < |t| - 1
    ensures t[i].ok || t[i].inv.Detect?
  {
    hide Job.Step, Job.Start;
    if !t[i].ok && !t[i].inv.Detect? {
      ReplayFront(job, start, t, i + 2);
      ReplayFront(job, start, t, i + 1);
      assert t[..i + 2][..i + 1] == t[..i + 1] && t[..i + 2][i + 1] == t[i + 1];
      assert t[..i + 1][..i] == t[..i] && t[..i + 1][i] == t[i];
      FailureStops(job, job.Replay(start, t[..i]), t[i], t[i + 1]);
    }
  }

  lemma FailureStops(job: Job, s: Phase, e: Event, e': Event)
    requires !e.ok && !e.inv.Detect?
    ensures job.Step(job.Step(s, e), e') == Wrong
  {
    hide Stat, Job.Resolve, Job.Hash, Job.Metadata, Job.DetectedMeta, Job.DepsIndex, Job.Procfile, Job.Merge;
    hide Job.SupplyCall, Job.CompileCall, Job.FinalizeCall, Job.AfterBuild, Job.Script, Job.DepsSubDir, Pruned;
    assert var s' := job.Step(s, e); s'.Stopped? || s' == Wrong;
  }

  // ----- Exit codes

  ghost predicate NoneRun(t: seq<Event>, which: Invocation -> bool) {
    forall i :: 0 <= i < |t| ==> !which(t[i].inv)
  }

  ghost predicate Ran(t: seq<Event>, which: Invocation -> bool) {
    exists i :: 0 <= i < |t| && which(t[i].inv) && t[i].ok
  }

  const IS_COMPILE := (inv: Invocation) => inv.Compile?
  const IS_FINALIZE := (inv: Invocation) => inv.Finalize?
  const IS_RELEASE := (inv: Invocation) => inv.Release?

  /** Which scripts may have run before each live phase. */
  lemma LiveKinds(job: Job, t: seq<Event>, s: Phase)
    requires Live(job, t, s)
    ensures s.Detecting? ==>
              !job.config.skipDetect && forall i :: 0 <= i < |t| ==> t[i].inv.Detect? && !t[i].ok
    ensures s.Supplying? || s.Detecting? || s.Chosen? || s.FinalSupplied? ==>
              NoneRun(t, IS_COMPILE) && NoneRun(t, IS_FINALIZE)
    ensures !s.Released? ==> NoneRun(t, IS_RELEASE)
    ensures s.Built? || s.Released? ==>
              if s.finalized then Ran(t, IS_FINALIZE) && NoneRun(t, IS_COMPILE)
              else Ran(t, IS_COMPILE) && NoneRun(t, IS_FINALIZE)
  {
    hide Houses, Job.Hash, SetupWord, BuildWord, Job.SupplyCall, Job.CachePath;
    match s
    case Built(bp, _, finalized, _) =>
      var n :| 0 <= n <= |t| && SetupWord(job, t[..n], bp) && BuildWord(job, t[n..], bp, finalized);
      SetupKinds(job, t[..n], bp);
      BuildKinds(job, t, n, bp, finalized);
    case Released(bp, _, finalized, _, _, _) =>
      var n: nat :| Word(job, t, n, bp, finalized);
      var front := t[..|t| - 1];
      assert front[..n] == t[..n] && front[n..] == t[n..|t| - 1];
      SetupKinds(job, t[..n], bp);
      BuildKinds(job, front, n, bp, finalized);
      assert forall i :: 0 <= i < |front| ==> front[i] == t[i];
    case Chosen(bp, _, _) => SetupKinds(job, t, bp);
    case FinalSupplied(bp, _, _) =>
      SetupKinds(job, t[..|t| - 1], bp);
      FinalSupplyKind(job, t[|t| - 1], bp);
      assert forall i :: 0 <= i < |t| - 1 ==> t[..|t| - 1][i] == t[i];
    case _ =>
  }

  lemma FinalSupplyKind(job: Job, e: Event, bp: Path)
    requires FinalSupply(job, e, bp)
    ensures e.inv.Supply?
  {
  }

  lemma SetupKinds(job: Job, t: seq<Event>, bp: Path)
    requires SetupWord(job, t, bp)
    ensures forall i :: 0 <= i < |t| ==> t[i].inv.Supply? || t[i].inv.Detect?
  {
    hide Houses, Job.Hash, Job.DepsIndex;
    if !job.config.skipDetect {
      assert forall i :: 0 <= i < |t| - 1 ==> t[..|t| - 1][i] == t[i];
    }
  }

  lemma BuildKinds(job: Job, t: seq<Event>, n: nat, bp: Path, finalized: bool)
    requires n <= |t| && BuildWord(job, t[n..], bp, finalized)
    requires forall i :: 0 <= i < n ==> t[..n][i].inv.Supply? || t[..n][i].inv.Detect?
    ensures NoneRun(t, IS_RELEASE)
    ensures if finalized then Ran(t, IS_FINALIZE) && NoneRun(t, IS_COMPILE)
            else Ran(t, IS_COMPILE) && NoneRun(t, IS_FINALIZE)
  {
    hide Job.DepsIndex;
    var b := t[n..];
    assert forall i :: 0 <= i < n ==> t[i] == t[..n][i];
    assert forall i :: n <= i < |t| ==> t[i] == b[i - n];
    var last := |b| - 1;
    assert t[n + last] == b[last] && t[n + last].ok;
  }

  /** What an exit code, or a plain error after the cache was cleaned, says about the scripts that
      ran. */
  lemma ExitCodes(job: Job, start: FS, t: seq<Event>, code: Option<int>)
    requires job.config.InRange() && job.Replay(start, t) != Wrong
    requires job.Explains(code, job.Replay(start, t))
    ensures code == Some(222) ==>
              !job.config.skipDetect && forall i :: 0 <= i < |t| ==> t[i].inv.Detect? && !t[i].ok
    ensures code == Some(225) ==>
              NoneRun(t, IS_COMPILE) && NoneRun(t, IS_FINALIZE) && NoneRun(t, IS_RELEASE)
    ensures code == Some(223) ==> NoneRun(t, IS_RELEASE) && NoneRun(t, IS_FINALIZE)
    ensures code == Some(227) ==> NoneRun(t, IS_RELEASE) && NoneRun(t, IS_COMPILE)
    ensures code == Some(224) ==> Ran(t, IS_FINALIZE) || Ran(t, IS_COMPILE)
    ensures code == None ==> Ran(t, IS_RELEASE) && (Ran(t, IS_FINALIZE) || Ran(t, IS_COMPILE))
    ensures code == None || (code.value in {222, 223, 224, 225, 227})
  {
    hide Job.Replay, Live, Job.Resolve, Job.Script, Job.NextDetectable, Job.Metadata, Job.Procfile;
    var s := job.Replay(start, t);
    TraceFits(job, start, t);
    if s.Stopped? {
      if t != [] {
        var front, e := t[..|t| - 1], t[|t| - 1];
        var p :| Ends(job, t, p, s.code);
        LiveKinds(job, front, p);
        FailsKind(job, p, e, s.code);
        StoppedKinds(t, front, e);
      }
    } else {
      LiveSettle(job, t, s);
      LiveKinds(job, t, job.Settle(s));
      if s.Released? {
        var n := TraceLanguage(job, start, t);
        assert t[|t| - 1].inv.Release? && t[|t| - 1].ok;
      }
    }
  }

  /** What a script does to the build, by its kind and whether it failed. */
  lemma StepCode(job: Job, s: Phase, e: Event)
    requires job.Step(s, e) != Wrong
    ensures var s' := job.Step(s, e);
            if e.ok then
              match e.inv
              case Detect(_, _) => s'.Chosen?
              case Supply(_, _, _, _, _) => s'.Supplying? || s'.FinalSupplied?
              case Release(_, _) =>
                if job.env.codecs.release(e.output).None? then s' == Stopped(224, e.after) else s'.Released?
              case _ => s'.Built?
            else
              match e.inv
              case Detect(_, _) => s'.Detecting?
              case Supply(_, _, _, _, _) => s' == Stopped(225, e.after)
              case Finalize(_, _, _, _, _, _) => s' == Stopped(227, e.after)
              case Compile(_, _, _) => s' == Stopped(223, e.after)
              case Release(_, _) => s' == Stopped(224, e.after)
  {
    hide Stat, Job.Resolve, Job.Hash, Job.Metadata, Job.DetectedMeta, Job.DepsIndex, Job.Procfile, Job.Merge;
    hide Job.Script, Pruned, Job.CachePath;
  }

  /** The codes with which a build can end in each phase. */
  lemma PhaseCode(job: Job, s: Phase, code: Option<int>)
    requires job.Explains(code, s)
    ensures match s
            case Detecting(_, _) => code == Some(222)
            case Stopped(c, _) => code == Some(c)
            case Built(_, _, _, _) => code == Some(224)
            case Released(_, _, _, _, _, _) => code == None
            case _ => code in {Some(223), Some(225), Some(227)}
  {
    hide Job.Resolve, Job.Metadata, Job.Script, Job.Procfile, Job.NextDetectable;
  }

  /** The exit code, or none for a plain error or success, goes by the last script: its kind if it
      failed, and what can go wrong after it if it did not. */
  lemma LastScriptCode(job: Job, start: FS, t: seq<Event>, code: Option<int>)
    requires job.Replay(start, t) != Wrong && job.Explains(code, job.Replay(start, t))
    ensures if t == [] then code == Some(222) || job.config.skipDetect
            else if t[|t| - 1].ok then
              match t[|t| - 1].inv
              case Release(_, _) =>
                code == if job.env.codecs.release(t[|t| - 1].output).None? then Some(224) else None
              case Compile(_, _, _) => code == Some(224)
              case Finalize(_, _, _, _, _, _) => code == Some(224)
              case _ => code in {Some(223), Some(225), Some(227)}
            else
              match t[|t| - 1].inv
              case Detect(_, _) => code == Some(222)
              case Compile(_, _, _) => code == Some(223)
              case Release(_, _) => code == Some(224)
              case Supply(_, _, _, _, _) => code == Some(225)
              case Finalize(_, _, _, _, _, _) => code == Some(227)
  {
    hide Job.Step, Job.Explains, Job.AllSuppliable;
    PhaseCode(job, job.Replay(start, t), code);
    if t != [] {
      StepState(job, job.Replay(start, t[..|t| - 1]), t[|t| - 1]);
      StepCode(job, job.Replay(start, t[..|t| - 1]), t[|t| - 1]);
    }
  }

  // ----- The arguments of the calls

  /** A script of this build was called with its directories, the deps index in decimal and the cache
      directory named by the md5 sum. */
  ghost predicate CalledRightly(job: Job, e: Event) {
    var c, deps := job.config.places, job.contentsDir + ["deps"];
    && e.inv.build == c.buildDir
    && match e.inv
       case Supply(_, _, cache, d, idx) =>
         && d == deps
         && ((cache == c.cacheDir + ["final"] && idx == job.DepsIndex(job.K())) ||
             exists i | 0 <= i < job.K() < |job.config.order| ::
               cache == c.cacheDir + [job.Hash(job.config.order[i])] && idx == job.DepsIndex(i))
       case Finalize(_, _, cache, d, idx, profile) =>
         && d == deps && cache == c.cacheDir + ["final"] && idx == job.DepsIndex(job.K())
         && profile == job.contentsDir + ["profile.d"]
       case Compile(_, _, cache) => cache == c.cacheDir + ["final"]
       case _ => true
  }

  lemma StepCalled(job: Job, s: Phase, e: Event)
    requires job.Step(s, e) != Wrong
    ensures CalledRightly(job, e)
    ensures e.inv.Supply? && s.Supplying? && job.Settle(s).Supplying? ==>
              s.next < job.K() < |job.config.order| && e.inv.idx == job.DepsIndex(s.next) &&
              e.inv.cache == job.config.places.cacheDir + [job.Hash(job.config.order[s.next])]
  {
    hide Stat, Job.Resolve, Job.Hash, Job.Metadata, Job.DetectedMeta, Job.DepsIndex, Job.Procfile, Job.Merge;
    hide Job.Script, Pruned;
  }

  lemma CallArguments(job: Job, start: FS, t: seq<Event>, i: nat)
    requires job.Replay(start, t) != Wrong && i < |t|
    ensures CalledRightly(job, t[i])
  {
    hide Job.Step, CalledRightly;
    ReplayFront(job, start, t, i + 1);
    assert t[..i + 1][..i] == t[..i] && t[..i + 1][i] == t[i];
    StepCalled(job, job.Replay(start, t[..i]), t[i]);
  }

  lemma FailsKind(job: Job, s: Phase, e: Event, code: int)
    requires Fails(job, s, e, code)
    ensures code == SUPPLY_FAIL_CODE ==> e.inv.Supply? && (s.Supplying? || s.Chosen?)
    ensures code == COMPILE_FAIL_CODE ==> e.inv.Compile? && s.Chosen?
    ensures code == FINALIZE_FAIL_CODE ==> e.inv.Finalize? && (s.Chosen? || s.FinalSupplied?)
    ensures code == RELEASE_FAIL_CODE ==> e.inv.Release? && s.Built?
    ensures code in {SUPPLY_FAIL_CODE, COMPILE_FAIL_CODE, FINALIZE_FAIL_CODE, RELEASE_FAIL_CODE}
  {
  }

  lemma StoppedKinds(t: seq<Event>, front: seq<Event>, e: Event)
    requires t != [] && front == t[..|t| - 1] && e == t[|t| - 1]
    ensures forall which :: NoneRun(front, which) && !which(e.inv) ==> NoneRun(t, which)
    ensures forall which :: Ran(front, which) ==> Ran(t, which)
  {
    assert forall i :: 0 <= i < |front| ==> front[i] == t[i];
  }

  /** Compile and finalize never both run. */
  lemma CompileOrFinalize(job: Job, start: FS, t: seq<Event>)
    requires job.config.InRange() && job.Replay(start, t) != Wrong
    ensures NoneRun(t, IS_COMPILE) || NoneRun(t, IS_FINALIZE)
  {
    hide Job.Replay, Live;
    var s := job.Replay(start, t);
    TraceFits(job, start, t);
    if s.Stopped? {
      if t != [] {
        var front, e := t[..|t| - 1], t[|t| - 1];
        var p :| Ends(job, t, p, s.code);
        LiveKinds(job, front, p);
        FailsKind(job, p, e, s.code);
        StoppedKinds(t, front, e);
      }
    } else {
      LiveKinds(job, t, s);
    }
  }
}
