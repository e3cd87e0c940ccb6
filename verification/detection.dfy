/** Detection picks the first buildpack that qualifies. */
module Detection {
  import opened Prelude
  import opened FileSystem
  import opened Models
  import opened Errors
  import opened World
  import opened Protocol
  import opened Frames
  import opened Layout

  /** The indices below n whose buildpack has a well-formed path and a detect script, in order. */
  function Candidates(job: Job, fs: FS, n: nat): (ids: seq<nat>)
    requires n <= |job.config.order|
    ensures forall k :: 0 <= k < |ids| ==> ids[k] < n
    ensures forall k, l :: 0 <= k < l < |ids| ==> ids[k] < ids[l]
  {
    if n == 0 then []
    else if job.Detectable(fs, job.config.order[n - 1]) then Candidates(job, fs, n - 1) + [n - 1]
    else Candidates(job, fs, n - 1)
  }

  lemma {:induction false} CandidatesExact(job: Job, fs: FS, n: nat, i: nat)
    requires i < n <= |job.config.order|
    ensures i in Candidates(job, fs, n) <==> job.Detectable(fs, job.config.order[i])
  {
    hide Job.Detectable;
    if i < n - 1 {
      CandidatesExact(job, fs, n - 1, i);
    }
  }

  lemma {:induction false} CandidatesGrow(job: Job, fs: FS, m: nat, n: nat)
    requires m <= n <= |job.config.order|
    requires forall i :: m <= i < n ==> !job.Detectable(fs, job.config.order[i])
    ensures Candidates(job, fs, n) == Candidates(job, fs, m)
    decreases n
  {
    hide Job.Detectable;
    if m < n {
      CandidatesGrow(job, fs, m, n - 1);
    }
  }

  /** The detect call for buildpack i, as the directories stood at the start. */
  ghost predicate DetectFor(job: Job, fs: FS, e: Event, i: nat)
    requires i < |job.config.order|
  {
    && job.Resolve(fs, job.config.order[i]).Some?
    && e.inv == Detect(job.Resolve(fs, job.config.order[i]).value, job.config.places.buildDir)
  }

  /** What lies in the buildpacks directory is the same in both file systems. */
  ghost predicate SameBuildpacks(job: Job, a: FS, b: FS) {
    forall q :: !(job.config.places.buildDir < q) ==> At(a, q) == At(b, q)
  }

  lemma SameDetectable(job: Job, a: FS, b: FS, name: string)
    requires SameBuildpacks(job, a, b)
    requires Apart(job.config.places.buildDir, job.config.places.buildpacksDir)
    ensures job.Resolve(a, name) == job.Resolve(b, name)
    ensures job.Detectable(a, name) == job.Detectable(b, name)
  {
    hide Job.Hash, Stat, ReadFile;
    var base := job.config.places.buildpacksDir + [job.Hash(name)];
    SameBeneath(job, a, b, base + ["bin"]);
    SameBeneath(job, a, b, base);
    forall n
      ensures At(a, base + [n]) == At(b, base + [n])
      ensures Stat(job.env, a, base + [n] + ["bin"]) == Stat(job.env, b, base + [n] + ["bin"])
    {
      SameBeneath(job, a, b, base + [n]);
      SameBeneath(job, a, b, base + [n] + ["bin"]);
    }
    assert Names(a, base) == Names(b, base) by {
      forall n
        ensures n in Names(a, base) <==> n in Names(b, base)
      {
        assert At(a, base + [n]) == At(b, base + [n]);
      }
    }
    var r := job.Resolve(a, name);
    if r.Some? {
      assert job.config.places.buildpacksDir <= r.value;
      SameBeneath(job, a, b, r.value + ["bin", "detect"]);
    }
  }

  lemma SameBeneath(job: Job, a: FS, b: FS, p: Path)
    requires SameBuildpacks(job, a, b) && job.config.places.buildpacksDir <= p
    requires Apart(job.config.places.buildDir, job.config.places.buildpacksDir)
    ensures At(a, p) == At(b, p) && Stat(job.env, a, p) == Stat(job.env, b, p)
  {
    forall q | q <= p
      ensures At(a, q) == At(b, q)
    {
      if job.config.places.buildDir < q {
        PrefixesNest(job.config.places.buildDir, job.config.places.buildpacksDir, p);
      }
    }
    ReadStable(job.env, a, b, p);
  }

  /** Where detection stands after some detect scripts: those that ran are exactly the candidates
      looked at so far, in order, and all but a last one failed. */
  ghost predicate Scanned(job: Job, start: FS, t: seq<Event>, s: Phase) {
    match s
    case Detecting(n, fs) =>
      && n <= |job.config.order| && |t| == |Candidates(job, start, n)|
      && SameBuildpacks(job, start, fs)
      && forall i :: 0 <= i < |t| ==> DetectFor(job, start, t[i], Candidates(job, start, n)[i]) && !t[i].ok
    case Chosen(bp, meta, fs) =>
      exists c | 0 <= c < |job.config.order| :: ScannedTo(job, start, t, c, bp, meta, fs)
    case Supplying(_, _) => false
    case _ => true
  }

  /** The scan stopped at index c, the last candidate looked at. */
  ghost predicate ScannedTo(job: Job, start: FS, t: seq<Event>, c: nat, bp: Path,
                            meta: seq<BuildpackMetadata>, fs: FS)
    requires c < |job.config.order|
  {
    var ids := Candidates(job, start, c + 1);
    && |t| == |ids| && t != [] && ids[|ids| - 1] == c
    && (forall i :: 0 <= i < |t| ==> DetectFor(job, start, t[i], ids[i]) && (t[i].ok <==> i == |t| - 1))
    && job.Resolve(start, job.config.order[c]) == Some(bp)
    && fs == t[|t| - 1].after
    && meta == [job.DetectedMeta(fs, job.config.order[c], t[|t| - 1].output)]
  }

  /** The next script to run is that of the next candidate. */
  lemma NextCandidate(job: Job, start: FS, n: nat, fs: FS)
    requires SameBuildpacks(job, start, fs) && n <= |job.config.order|
    requires Apart(job.config.places.buildDir, job.config.places.buildpacksDir)
    ensures var j := job.NextDetectable(fs, n);
            j < |job.config.order| ==>
              && Candidates(job, start, j + 1) == Candidates(job, start, n) + [j]
              && job.Resolve(start, job.config.order[j]).Some?
              && job.Resolve(start, job.config.order[j]) == job.Resolve(fs, job.config.order[j])
  {
    hide Job.Detectable, Job.Resolve, SameBuildpacks, Apart;
    var j := job.NextDetectable(fs, n);
    forall name
      ensures job.Resolve(start, name) == job.Resolve(fs, name)
      ensures job.Detectable(start, name) == job.Detectable(fs, name)
    {
      SameDetectable(job, start, fs, name);
    }
    CandidatesGrow(job, start, n, j);
    if j < |job.config.order| {
      DetectableResolves(job, fs, job.config.order[j]);
    }
  }

  lemma ScanStep(job: Job, start: FS, t: seq<Event>, n: nat, fs: FS, e: Event)
    requires Scanned(job, start, t, Detecting(n, fs)) && Confined(e)
    requires Apart(job.config.places.buildDir, job.config.places.buildpacksDir)
    requires job.StepDetecting(n, fs, e) != Wrong
    ensures Scanned(job, start, t + [e], job.StepDetecting(n, fs, e))
  {
    hide Job.Resolve, Job.DetectedMeta, Confined, SameBuildpacks, Apart, Candidates, Job.NextDetectable;
    var order, j := job.config.order, job.NextDetectable(fs, n);
    NextCandidate(job, start, n, fs);
    DetectKeeps(job, start, fs, e);
    if e.ok {
      assert ScannedTo(job, start, t + [e], j, job.Resolve(fs, order[j]).value,
                       [job.DetectedMeta(e.after, order[j], e.output)], e.after);
    }
  }

  lemma DetectKeeps(job: Job, start: FS, fs: FS, e: Event)
    requires SameBuildpacks(job, start, fs) && e.before == fs && Confined(e)
    requires e.inv.Detect? && e.inv.build == job.config.places.buildDir
    ensures SameBuildpacks(job, start, e.after)
  {
  }

  lemma DetectableResolves(job: Job, fs: FS, name: string)
    requires job.Detectable(fs, name)
    ensures job.Resolve(fs, name).Some?
  {
  }

  lemma {:induction false} Scan(job: Job, start: FS, t: seq<Event>)
    requires !job.config.skipDetect && job.Replay(start, t) != Wrong && AllConfined(t)
    requires Apart(job.config.places.buildDir, job.config.places.buildpacksDir)
    ensures Scanned(job, start, t, job.Replay(start, t))
  {
    hide Job.Step, Scanned, Job.Resolve, Job.Hash;
    if t == [] {
      assert Scanned(job, start, t, Detecting(0, start)) by { ScanNothing(job, start); }
    } else {
      var front, e := t[..|t| - 1], t[|t| - 1];
      var s := job.Replay(start, front);
      StepState(job, s, e);
      Scan(job, start, front);
      assert front + [e] == t;
      ScanAny(job, start, front, s, e);
    }
  }

  lemma ScanNothing(job: Job, start: FS)
    ensures Scanned(job, start, [], Detecting(0, start))
  {
  }

  lemma ScanAny(job: Job, start: FS, t: seq<Event>, s: Phase, e: Event)
    requires !job.config.skipDetect && job.Step(s, e) != Wrong
    requires Scanned(job, start, t, s) && Confined(e)
    requires Apart(job.config.places.buildDir, job.config.places.buildpacksDir)
    ensures Scanned(job, start, t + [e], job.Step(s, e))
  {
    hide Job.StepDetecting, Job.Resolve, Job.Hash, Job.Metadata, Candidates, Job.DepsIndex, Stat, Job.Procfile;
    if s.Detecting? {
      ScanStep(job, start, t, s.next, s.fs, e);
      DetectingStep(job, s.next, s.fs, e);
    }
  }

  lemma DetectingStep(job: Job, n: nat, fs: FS, e: Event)
    ensures var s := job.StepDetecting(n, fs, e); s == Wrong || s.Detecting? || s.Chosen?
  {
  }

  // ----- The theorems

  lemma DetectOkChosen(job: Job, s: Phase, e: Event)
    requires job.Step(s, e) != Wrong && e.inv.Detect? && e.ok
    ensures job.Step(s, e).Chosen?
  {
    hide Stat, Job.Resolve, Job.Hash, Job.Metadata, Job.DetectedMeta, Job.DepsIndex, Job.Procfile, Job.Merge;
  }

  /** The chosen buildpack is the first that qualifies: every earlier one with a well-formed path
      and a detect script was run and failed. Its metadata is one entry, with the key, what detect
      printed as the name, and no version. */
  lemma DetectFirstMatch(job: Job, fs0: FS, start: FS, t: seq<Event>, i: nat) returns (c: nat)
    requires SetUp(job, fs0, start)
    requires !job.config.skipDetect && job.Replay(start, t) != Wrong && AllConfined(t)
    requires i < |t| && t[i].inv.Detect? && t[i].ok
    ensures c < |job.config.order| && job.Detectable(start, job.config.order[c])
    ensures i == |Candidates(job, start, c)|
    ensures forall k :: 0 <= k < i ==> DetectFor(job, start, t[k], Candidates(job, start, c)[k]) && !t[k].ok
    ensures DetectFor(job, start, t[i], c)
    ensures job.Replay(start, t[..i + 1]) ==
            Chosen(job.Resolve(start, job.config.order[c]).value,
                   [BuildpackMetadata(job.config.order[c], TrimRight(t[i].output), "")], t[i].after)
  {
    hide Job.Step, Job.Start, Job.Prepared, Job.CanMake, Job.Resolve, Separate, Job.Detectable, Candidates;
    var u := t[..i + 1];
    assert u[..i] == t[..i] && u[i] == t[i];
    ReplayFront(job, start, t, i + 1);
    DetectOkChosen(job, job.Replay(start, t[..i]), t[i]);
    assert Apart(job.config.places.buildDir, job.config.places.buildpacksDir) by { BuildpacksApart(job); }
    Scan(job, start, u);
    var s := job.Replay(start, u);
    c :| 0 <= c < |job.config.order| && ScannedTo(job, start, u, c, s.bp, s.meta, s.fs);
    ScannedFront(job, start, u, c, s.bp, s.meta, s.fs);
    forall k | 0 <= k < i
      ensures DetectFor(job, start, t[k], Candidates(job, start, c)[k]) && !t[k].ok
    {
      assert u[k] == t[k];
    }
    FreshMeta(job, fs0, start, u, job.config.order[c], t[i].output);
  }

  /** The candidates before the chosen one are those whose detect scripts failed. */
  lemma ScannedFront(job: Job, start: FS, u: seq<Event>, c: nat, bp: Path, meta: seq<BuildpackMetadata>, fs: FS)
    requires c < |job.config.order| && ScannedTo(job, start, u, c, bp, meta, fs)
    ensures job.Detectable(start, job.config.order[c]) && |u| == |Candidates(job, start, c)| + 1
    ensures DetectFor(job, start, u[|u| - 1], c)
    ensures forall k :: 0 <= k < |u| - 1 ==> DetectFor(job, start, u[k], Candidates(job, start, c)[k]) && !u[k].ok
  {
    hide Job.Detectable, Job.Resolve, Job.DetectedMeta;
    var ids := Candidates(job, start, c + 1);
    assert c in ids;
    CandidatesExact(job, start, c + 1, c);
    assert ids == Candidates(job, start, c) + [c];
  }

  lemma BuildpacksApart(job: Job)
    requires Separate(job.config.places, job.contentsDir)
    ensures Apart(job.config.places.buildDir, job.config.places.buildpacksDir)
  {
  }

  /** Nothing has written a config.yml when detection is over. */
  lemma FreshMeta(job: Job, fs0: FS, start: FS, u: seq<Event>, key: string, output: string)
    requires SetUp(job, fs0, start) && job.Replay(start, u).Chosen? && AllConfined(u)
    requires u != [] && !job.config.skipDetect
    requires forall k :: 0 <= k < |u| ==> u[k].inv.Detect? && u[k].inv.build == job.config.places.buildDir
    ensures job.DetectedMeta(u[|u| - 1].after, key, output) == BuildpackMetadata(key, TrimRight(output), "")
  {
    hide Job.Replay, Job.Prepared, Job.CanMake, Job.Hash, Job.DepsIndex, Job.DetectedMeta, Job.DepsSubDir;
    var fs, q := u[|u| - 1].after, job.DepsSubDir(0) + ["config.yml"];
    DepsStartEmpty(job, fs0, start, 0, "config.yml");
    assert job.contentsDir <= q by { InContents(job, q, 0); }
    if job.config.places.buildDir < q {
      PrefixesNest(job.config.places.buildDir, job.contentsDir, q);
    }
    Steady(job, start, u, 0, |u|, q);
    NoConfig(job, fs, key, output);
  }

  lemma InContents(job: Job, q: Path, i: nat)
    requires job.DepsSubDir(i) <= q
    ensures job.contentsDir <= q
  {
  }

  lemma NoConfig(job: Job, fs: FS, key: string, output: string)
    requires At(fs, job.DepsSubDir(0) + ["config.yml"]) == None
    ensures job.DetectedMeta(fs, key, output) == BuildpackMetadata(key, TrimRight(output), "")
  {
    hide Job.DepsSubDir;
  }

  /** No candidate is left exactly if all of them have been looked at. */
  lemma NoneLeft(job: Job, start: FS, n: nat, fs: FS)
    requires SameBuildpacks(job, start, fs) && n <= |job.config.order|
    requires Apart(job.config.places.buildDir, job.config.places.buildpacksDir)
    ensures job.NextDetectable(fs, n) == |job.config.order| <==>
            |Candidates(job, start, n)| == |Candidates(job, start, |job.config.order|)|
  {
    hide Job.Detectable, Job.Resolve, SameBuildpacks, Apart, Job.NextDetectable;
    var j := job.NextDetectable(fs, n);
    forall i | n <= i < j
      ensures !job.Detectable(start, job.config.order[i])
    {
      SameDetectable(job, start, fs, job.config.order[i]);
    }
    CandidatesGrow(job, start, n, j);
    if j < |job.config.order| {
      SameDetectable(job, start, fs, job.config.order[j]);
      CandidatesMore(job, start, j + 1, |job.config.order|);
    }
  }

  /** Detection fails exactly when every candidate's detect script ran and failed. */
  lemma NoneDetected(job: Job, start: FS, t: seq<Event>)
    requires !job.config.skipDetect && job.Replay(start, t) != Wrong && AllConfined(t)
    requires Apart(job.config.places.buildDir, job.config.places.buildpacksDir)
    ensures job.Explains(Some(DETECT_FAIL_CODE), job.Replay(start, t)) <==>
            (forall k :: 0 <= k < |t| ==> !t[k].ok && t[k].inv.Detect?) &&
            |t| == |Candidates(job, start, |job.config.order|)|
  {
    hide Job.Replay, Job.Resolve, Job.Script, Job.NextDetectable, Job.Metadata, Job.Procfile, Candidates;
    hide SameBuildpacks, Apart, AllConfined, ScannedTo;
    Scan(job, start, t);
    var s := job.Replay(start, t);
    if forall k :: 0 <= k < |t| ==> !t[k].ok && t[k].inv.Detect? {
      StillDetecting(job, start, t);
    }
    if s.Detecting? {
      NoneLeft(job, start, s.next, s.fs);
    }
  }

  lemma {:induction false} CandidatesMore(job: Job, fs: FS, m: nat, n: nat)
    requires m <= n <= |job.config.order|
    ensures |Candidates(job, fs, m)| <= |Candidates(job, fs, n)|
    decreases n
  {
    hide Job.Detectable;
    if m < n {
      CandidatesMore(job, fs, m, n - 1);
    }
  }

  lemma {:induction false} StillDetecting(job: Job, start: FS, t: seq<Event>)
    requires !job.config.skipDetect && job.Replay(start, t) != Wrong
    requires forall k :: 0 <= k < |t| ==> !t[k].ok && t[k].inv.Detect?
    ensures job.Replay(start, t).Detecting?
  {
    hide Job.Step;
    if t != [] {
      var front := t[..|t| - 1];
      StepState(job, job.Replay(start, front), t[|t| - 1]);
      StillDetecting(job, start, front);
      FailedDetectStays(job, job.Replay(start, front), t[|t| - 1]);
    }
  }

  lemma FailedDetectStays(job: Job, s: Phase, e: Event)
    requires s.Detecting? && !e.ok && job.Step(s, e) != Wrong
    ensures job.Step(s, e).Detecting?
  {
    hide Stat, Job.Resolve, Job.Hash, Job.DetectedMeta;
  }
}
