/** The buildpack metadata of a multi-buildpack build lines up with its scripts. */
module MetadataAlignment {
  import opened Prelude
  import opened Decimal
  import opened FileSystem
  import opened World
  import opened Protocol
  import opened Frames
  import opened Traces
  import opened Layout

  lemma StepMetas(job: Job, s: Phase, e: Event)
    requires job.config.skipDetect
    ensures var s' := job.Step(s, e);
            && (s'.Built? ==> s'.meta == job.Metadata(s'.fs, job.config.order))
            && (s'.Released? && s.Built? ==> s'.meta == s.meta && s'.built == s.fs)
            && (s'.Released? ==> s.Built?)
  {
    hide Stat, Job.Resolve, Job.Hash, Job.Metadata, Job.DetectedMeta, Job.DepsIndex, Job.Procfile, Job.Merge;
  }

  /** The final metadata is read after the build scripts and before release. */
  lemma {:induction false} MetadataReread(job: Job, start: FS, t: seq<Event>)
    requires job.config.skipDetect && job.Replay(start, t) != Wrong
    ensures var s := job.Replay(start, t);
            && (s.Built? ==> s.meta == job.Metadata(s.fs, job.config.order))
            && (s.Released? ==> s.meta == job.Metadata(s.built, job.config.order))
  {
    hide Job.Step, Job.Metadata;
    if t != [] {
      var front := t[..|t| - 1];
      StepState(job, job.Replay(start, front), t[|t| - 1]);
      MetadataReread(job, start, front);
      StepMetas(job, job.Replay(start, front), t[|t| - 1]);
    }
  }

  /** Entry i of the final metadata has the key of buildpack i, and name and version from the deps
      directory that script i was given. */
  lemma Aligned(job: Job, start: FS, t: seq<Event>, i: nat)
    requires job.config.InRange() && job.config.skipDetect && job.Replay(start, t).Released?
    requires i < job.K()
    ensures var s := job.Replay(start, t);
            && |s.meta| == |job.config.order| && i < |t| && t[i].inv.Supply? && t[i].ok
            && t[i].inv.cache == job.CachePath(job.config.order[i])
            && t[i].inv.deps + [t[i].inv.idx] == job.DepsSubDir(i)
            && s.meta[i].key == job.config.order[i]
            && (s.meta[i].name, s.meta[i].version)
               == job.ReadConfigYml(s.built, t[i].inv.deps + [t[i].inv.idx])
            && Recorded(job.env, s.built, t[i].inv.deps + [t[i].inv.idx], s.meta[i])
  {
    hide Job.Replay, Job.ReadConfigYml, Job.DepsIndex, Job.Hash, Houses, BuildWord, Recorded;
    MetadataReread(job, start, t);
    var n := TraceLanguage(job, start, t);
    assert t[..n][i] == t[i];
    assert SupplyAt(job, t[i], i);
    MetaRecorded(job, job.Replay(start, t).built, job.config.order[i], i);
  }

  /** The final buildpack's entry is read from the deps directory its own scripts were given; it
      has no name and no version if it was compiled, because that directory is gone. */
  lemma LastAligned(job: Job, start: FS, t: seq<Event>)
    requires job.config.InRange() && job.config.skipDetect && job.Replay(start, t).Released?
    requires Separate(job.config.places, job.contentsDir) && AllConfined(t)
    ensures var s := job.Replay(start, t);
            && |s.meta| == job.K() + 1 && s.meta[job.K()].key == job.config.order[job.K()]
            && (s.finalized ==>
                  && |t| >= 2 && t[|t| - 2].inv.Finalize?
                  && (s.meta[job.K()].name, s.meta[job.K()].version)
                     == job.ReadConfigYml(s.built, t[|t| - 2].inv.deps + [t[|t| - 2].inv.idx])
                  && Recorded(job.env, s.built, t[|t| - 2].inv.deps + [t[|t| - 2].inv.idx], s.meta[job.K()]))
            && (!s.finalized ==> s.meta[job.K()].name == "" && s.meta[job.K()].version == "")
  {
    hide Job.Replay, Job.ReadConfigYml, Job.DepsIndex, Job.Hash, SetupWord, AllConfined, Separate, Recorded;
    var s, last := job.Replay(start, t), job.DepsSubDir(job.K());
    MetadataReread(job, start, t);
    if s.finalized {
      var n := TraceLanguage(job, start, t);
      var b := t[n..|t| - 1];
      assert b[|b| - 1] == t[|t| - 2];
      MetaRecorded(job, s.built, job.config.order[job.K()], job.K());
    } else {
      LastDeps(job, start, t);
      assert At(s.built, last + ["config.yml"]) == None;
      NothingToRead(job, s.built, last);
    }
  }

  lemma NothingToRead(job: Job, fs: FS, dir: Path)
    requires At(fs, dir + ["config.yml"]) == None
    ensures job.ReadConfigYml(fs, dir) == ("", "")
  {
  }

  /** The cache and index arguments of no other script reach into the deps directory of index i. */
  lemma OwnDeps(job: Job, start: FS, t: seq<Event>, i: nat, j: nat, q: Path)
    requires job.config.InRange() && job.config.skipDetect && job.Replay(start, t).Released?
    requires Separate(job.config.places, job.contentsDir) && SaneLog10(job.env.codecs.log10)
    requires i < job.K() && i < j < |t| && q <= job.DepsSubDir(i) + ["config.yml"]
    ensures !MayTouch(t[j].inv, q)
  {
    hide Job.Replay, Job.DepsIndex, Job.Hash, Job.DepsSubDir, WriteRoots;
    var n := TraceLanguage(job, start, t);
    var m := if j < n then j else job.K();
    var cache := if j < n then job.CachePath(job.config.order[j]) else job.FinalCache();
    WordRoots(job, t, n, job.Replay(start, t).bp, job.Replay(start, t).finalized, j);
    DepsDistinct(job, i, m);
    forall r | r in WriteRoots(t[j].inv)
      ensures !(r < q)
    {
      RootsMiss(job, i, m, r, q, cache);
    }
  }

  /** In a multi-buildpack word, script j has its own cache and deps directory, and every script
      after the supplies those of the final buildpack. */
  lemma WordRoots(job: Job, t: seq<Event>, n: nat, bp: Path, finalized: bool, j: nat)
    requires job.config.skipDetect && Word(job, t, n, bp, finalized) && j < |t|
    ensures n == job.K() < |job.config.order|
    ensures var m := if j < n then j else job.K();
            var cache := if j < n then job.CachePath(job.config.order[j]) else job.FinalCache();
            WriteRoots(t[j].inv) <= {job.config.places.buildDir, job.FinalCache(), job.ProfileDir(),
                                     job.DepsSubDir(m), cache}
  {
    hide Job.DepsIndex, Job.Hash, Houses;
    var b := t[n..|t| - 1];
    if j < n {
      assert t[..n][j] == t[j];
      assert SupplyAt(job, t[j], j);
    } else if j < |t| - 1 {
      assert b[j - n] == t[j];
    }
  }

  lemma RootsMiss(job: Job, i: nat, m: nat, r: Path, q: Path, cache: Path)
    requires Separate(job.config.places, job.contentsDir) && q <= job.DepsSubDir(i) + ["config.yml"]
    requires job.DepsIndex(i) != job.DepsIndex(m) && job.config.places.cacheDir <= cache
    requires r in {job.config.places.buildDir, job.FinalCache(), job.ProfileDir(), job.DepsSubDir(m), cache}
    ensures !(r < q)
  {
    hide Job.DepsIndex, Job.Hash;
    var d, c, p := job.contentsDir, job.config.places, job.DepsSubDir(i) + ["config.yml"];
    assert d <= p;
    assert p[|d|] == "deps" && p[|d| + 1] == job.DepsIndex(i);
    assert job.ProfileDir()[|d|] == "profile.d" && job.DepsSubDir(m)[|d| + 1] == job.DepsIndex(m);
    if c.buildDir <= p {
      PrefixesNest(c.buildDir, d, p);
    }
    if c.cacheDir <= p {
      PrefixesNest(c.cacheDir, d, p);
    }
  }

  /** So the metadata of a supply buildpack is what its own script left behind, whatever the later
      scripts did. */
  lemma OwnMetadata(job: Job, start: FS, t: seq<Event>, i: nat)
    requires job.config.InRange() && job.config.skipDetect && job.Replay(start, t).Released?
    requires Separate(job.config.places, job.contentsDir) && SaneLog10(job.env.codecs.log10)
    requires AllConfined(t) && i < job.K()
    ensures var s := job.Replay(start, t);
            && i < |t| && t[i].inv.Supply? && |s.meta| == |job.config.order|
            && s.meta[i] == job.Meta(t[i].after, job.config.order[i], i)
            && s.meta[i].key == job.config.order[i]
            && Recorded(job.env, t[i].after, t[i].inv.deps + [t[i].inv.idx], s.meta[i])
  {
    hide Job.Replay, Job.DepsIndex, Job.Hash, MayTouch, AllConfined, Separate, ReadFile, Stat, Word, Recorded;
    var s, p := job.Replay(start, t), job.DepsSubDir(i) + ["config.yml"];
    MetadataReread(job, start, t);
    Aligned(job, start, t, i);
    CompiledLast(job, start, t);
    SupplyEnds(job, start, t, i);
    forall q | q <= p
      ensures At(s.built, q) == At(t[i].after, q)
    {
      forall j | i + 1 <= j < |t| - 1
        ensures !MayTouch(t[j].inv, q)
      {
        OwnDeps(job, start, t, i, j, q);
      }
      DepsDistinct(job, i, job.K());
      assert !(job.DepsSubDir(job.K()) <= q) by { OtherDeps(job, i, job.K(), q); }
      Steady(job, start, t, i + 1, |t| - 1, q);
    }
    ReadStable(job.env, s.built, t[i].after, p);
    MetaRecorded(job, t[i].after, job.config.order[i], i);
  }

  lemma OtherDeps(job: Job, i: nat, j: nat, q: Path)
    requires job.DepsIndex(i) != job.DepsIndex(j) && q <= job.DepsSubDir(i) + ["config.yml"]
    ensures !(job.DepsSubDir(j) <= q)
  {
    hide Job.DepsIndex;
    var d := job.DepsDir();
    assert job.DepsSubDir(j)[|d|] == job.DepsIndex(j);
    assert (job.DepsSubDir(i) + ["config.yml"])[|d|] == job.DepsIndex(i);
  }

  /** The supply scripts come before the last two. */
  lemma SupplyEnds(job: Job, start: FS, t: seq<Event>, i: nat)
    requires job.config.InRange() && job.config.skipDetect && job.Replay(start, t).Released? && i < job.K()
    ensures i + 2 < |t|
  {
    hide Job.Replay, Houses, Job.Hash, BuildWord;
    var n := TraceLanguage(job, start, t);
  }
}
