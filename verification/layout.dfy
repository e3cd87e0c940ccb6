/** What a build puts in the contents directory, and so in the droplet. */
module Layout {
  import opened Prelude
  import opened Decimal
  import opened FileSystem
  import opened Configuration
  import opened World
  import opened Protocol
  import opened Frames
  import opened Traces

  /** A build that has been set up in its own contents directory. */
  ghost predicate SetUp(job: Job, fs0: FS, start: FS) {
    && job.CanMake(fs0) && start == job.Prepared(fs0)
    && Separate(job.config.places, job.contentsDir)
  }

  /** A directory made for the deps indices or profile.d, or one above them. */
  ghost predicate Made(job: Job, q: Path) {
    exists i :: 0 <= i < |job.InnerDirs()| && q <= job.InnerDirs()[i]
  }

  /** Before the first script, the contents directory holds just the directories made in it. */
  lemma PreparedInside(job: Job, fs0: FS, start: FS, q: Path)
    requires SetUp(job, fs0, start) && job.contentsDir <= q
    ensures At(start, q) == if Made(job, q) then Some(Dir) else None
  {
    hide Job.InnerDirs, Job.OuterDirs, Job.NeededCache, MkAll, CanMkAll;
    var d, cache := job.contentsDir, job.config.places.cacheDir;
    var outer := MkAll(fs0, job.OuterDirs());
    assert q !in outer;
    MkAllAt(outer[d := Dir], job.InnerDirs(), q);
    SweptAt(job.Furnished(fs0), cache, job.NeededCache());
    if cache < q {
      PrefixesNest(cache, d, q);
    }
    ContentsMade(job);
  }

  lemma ContentsMade(job: Job)
    ensures Made(job, job.contentsDir)
  {
    hide Job.Hash, Job.DepsIndex;
    var last := |job.InnerDirs()| - 1;
    assert job.InnerDirs()[last] == job.ProfileDir();
    assert job.contentsDir <= job.InnerDirs()[last];
  }

  /** The top level of the contents directory. */
  lemma MadeTop(job: Job, n: string)
    ensures Made(job, job.contentsDir + [n]) <==> n == "deps" || n == "profile.d"
  {
    hide Job.Hash, Job.DepsIndex;
    var d, dirs := job.contentsDir, job.InnerDirs();
    assert dirs[|dirs| - 1] == job.ProfileDir() && dirs[0] == job.DepsSubDir(0);
    if n == "deps" {
      assert d + [n] <= dirs[0];
    }
    if n == "profile.d" {
      assert d + [n] <= dirs[|dirs| - 1];
    }
    if Made(job, d + [n]) {
      var i :| 0 <= i < |dirs| && d + [n] <= dirs[i];
      assert dirs[i] == (if i < |dirs| - 1 then job.DepsSubDir(i) else job.ProfileDir());
      assert (d + [n])[|d|] == dirs[i][|d|];
    }
  }

  /** The deps directory holds one directory per index. */
  lemma MadeDeps(job: Job, x: string)
    ensures Made(job, job.DepsDir() + [x]) <==> exists i :: 0 <= i <= job.K() && x == job.DepsIndex(i)
  {
    hide Job.Hash, Job.DepsIndex;
    var dirs, deps := job.InnerDirs(), job.DepsDir();
    if Made(job, deps + [x]) {
      var i :| 0 <= i < |dirs| && deps + [x] <= dirs[i];
      assert (deps + [x])[|deps|] == x;
      if i < |dirs| - 1 {
        assert dirs[i] == job.DepsSubDir(i);
        assert dirs[i][|deps|] == job.DepsIndex(i);
      }
    }
    if exists i :: 0 <= i <= job.K() && x == job.DepsIndex(i) {
      var i :| 0 <= i <= job.K() && x == job.DepsIndex(i);
      assert dirs[i] == job.DepsSubDir(i) == deps + [x];
    }
  }

  /** Nothing lies below a deps directory before the first script. */
  lemma DepsStartEmpty(job: Job, fs0: FS, start: FS, i: nat, n: string)
    requires SetUp(job, fs0, start)
    ensures At(start, job.DepsSubDir(i) + [n]) == None
  {
    hide Job.Hash, Job.DepsIndex, Job.Prepared, Job.CanMake, Separate;
    var q := job.DepsSubDir(i) + [n];
    PreparedInside(job, fs0, start, q);
    assert job.contentsDir <= q;
    var dirs := job.InnerDirs();
    forall k | 0 <= k < |dirs|
      ensures |dirs[k]| < |q|
    {
      assert dirs[k] == if k < |dirs| - 1 then job.DepsSubDir(k) else job.ProfileDir();
    }
  }

  /** The directories of the droplet and the result are there too. */
  lemma OutputDirsMade(job: Job, fs0: FS, start: FS, p: Path)
    requires SetUp(job, fs0, start)
    requires p == job.config.places.outputDroplet || p == job.config.places.outputMetadata
    ensures p != [] && At(start, p[..|p| - 1]) == Some(Dir)
  {
    hide Job.InnerDirs, Job.NeededCache, MkAll, CanMkAll, Job.CachePaths, Job.Hash;
    var dir, outer := Parent(p), job.OuterDirs();
    assert outer[0] == Parent(job.config.places.outputDroplet) && outer[1] == Parent(job.config.places.outputMetadata);
    MkAllDirs(fs0, outer, if p == job.config.places.outputDroplet then 0 else 1);
    MkAllAt(MkAll(fs0, outer)[job.contentsDir := Dir], job.InnerDirs(), dir);
    SweptAt(job.Furnished(fs0), job.config.places.cacheDir, job.NeededCache());
    assert dir <= p;
    assert !(job.config.places.cacheDir < dir);
  }

  // ----- Which paths scripts leave alone

  /** No script of the build has a directory strictly above this path. */
  ghost predicate OutOfReach(job: Job, q: Path) {
    && !(job.config.places.buildDir < q)
    && !(job.config.places.cacheDir < q)
    && !(job.ProfileDir() < q)
    && forall i :: 0 <= i <= job.K() ==> !(job.DepsSubDir(i) < q)
  }

  lemma Untouchable(job: Job, start: FS, trace: seq<Event>, n: nat, q: Path)
    requires job.Replay(start, trace) != Wrong && n < |trace| && OutOfReach(job, q)
    ensures !MayTouch(trace[n].inv, q)
  {
    hide Job.Replay, Job.Hash, WriteRoots, Job.DepsSubDir;
    CallsWithin(job, start, trace, n);
    forall r | r in WriteRoots(trace[n].inv)
      ensures !(r < q)
    {
    }
  }

  /** Out-of-reach paths, the removed deps directory apart, are as they were at the start. */
  lemma Kept(job: Job, start: FS, trace: seq<Event>, n: nat, q: Path)
    requires job.Replay(start, trace) != Wrong && AllConfined(trace) && n <= |trace|
    requires OutOfReach(job, q) && !(job.DepsSubDir(job.K()) <= q)
    ensures At(StateAfter(start, trace, n), q) == At(start, q)
  {
    hide Job.Replay, OutOfReach, MayTouch, Job.DepsSubDir;
    forall i | 0 <= i < n
      ensures !MayTouch(trace[i].inv, q)
    {
      Untouchable(job, start, trace, i, q);
    }
    Steady(job, start, trace, 0, n, q);
  }

  lemma TopOutOfReach(job: Job, n: string)
    requires Separate(job.config.places, job.contentsDir)
    ensures OutOfReach(job, job.contentsDir + [n])
    ensures OutOfReach(job, job.contentsDir)
    ensures !(job.DepsSubDir(job.K()) <= job.contentsDir + [n])
  {
    hide Job.DepsIndex;
    var d, c := job.contentsDir, job.config.places;
    var q := d + [n];
    if c.buildDir < q {
      PrefixesNest(c.buildDir, d, q);
    }
    if c.cacheDir < q {
      PrefixesNest(c.cacheDir, d, q);
    }
  }

  lemma DepsOutOfReach(job: Job, x: string)
    requires Separate(job.config.places, job.contentsDir)
    ensures OutOfReach(job, job.DepsDir() + [x])
  {
    hide Job.DepsIndex;
    var d, c := job.contentsDir, job.config.places;
    var q := job.DepsDir() + [x];
    assert d <= q;
    if c.buildDir < q {
      PrefixesNest(c.buildDir, d, q);
    }
    if c.cacheDir < q {
      PrefixesNest(c.cacheDir, d, q);
    }
    assert q[|d|] == "deps" && job.ProfileDir()[|d|] == "profile.d";
  }

  // ----- The deps directory

  /** Index i still has its deps directory at the end: every index but the last, and the last if
      the final buildpack was finalized. */
  ghost predicate Remains(job: Job, finalized: bool, i: nat) {
    i <= job.K() && (i < job.K() || finalized)
  }

  lemma DepsDistinct(job: Job, i: nat, j: nat)
    requires SaneLog10(job.env.codecs.log10) && i <= job.K() && j <= job.K()
    ensures job.DepsIndex(i) == job.DepsIndex(j) <==> i == j
  {
    DepsIndexOrder(job.config, job.env.codecs.log10, i, j);
  }

  /** After a successful build the deps directory holds exactly the remaining indices. */
  lemma DepsNames(job: Job, fs0: FS, start: FS, t: seq<Event>, x: string)
    requires SetUp(job, fs0, start) && job.config.InRange() && SaneLog10(job.env.codecs.log10)
    requires job.Replay(start, t).Released? && AllConfined(t)
    ensures var s := job.Replay(start, t);
            At(s.fs, job.DepsDir() + [x]) ==
              if exists i: nat :: Remains(job, s.finalized, i) && x == job.DepsIndex(i)
              then Some(Dir) else None
  {
    hide Job.Replay, Job.Prepared, Job.CanMake, Separate, Job.DepsIndex, Made, OutOfReach, AllConfined;
    var s, q := job.Replay(start, t), job.DepsDir() + [x];
    ReplayState(job, start, t);
    DepsOutOfReach(job, x);
    MadeDeps(job, x);
    assert job.contentsDir <= q;
    PreparedInside(job, fs0, start, q);
    if x != job.DepsIndex(job.K()) {
      assert !(job.DepsSubDir(job.K()) <= q) by {
        assert job.DepsSubDir(job.K())[|q| - 1] != q[|q| - 1];
      }
      Kept(job, start, t, |t|, q);
      assert forall i: nat :: x == job.DepsIndex(i) ==> i != job.K();
    } else {
      assert q == job.DepsSubDir(job.K());
      LastDeps(job, start, t);
      forall i: nat | i < job.K()
        ensures job.DepsIndex(i) != x
      {
        DepsDistinct(job, i, job.K());
      }
    }
  }

  /** Without finalize, the last two scripts are compile and release of the chosen buildpack, and
      the phase was built on what compile left. */
  lemma CompiledLast(job: Job, start: FS, t: seq<Event>)
    requires job.config.InRange() && job.Replay(start, t).Released?
    ensures |t| >= 2 && t[|t| - 1].inv.Release? && t[|t| - 1].before == job.Replay(start, t).built
    ensures t[|t| - 1].inv.build == job.config.places.buildDir
    ensures !job.Replay(start, t).finalized ==> t[|t| - 2].inv == job.CompileCall(job.Replay(start, t).bp)
    ensures job.Replay(start, t).built == t[|t| - 2].after
  {
    hide Job.Resolve, Job.Metadata, Job.Procfile, Job.Merge, SetupWord, Job.Script, Job.DepsIndex;
    var n := TraceLanguage(job, start, t);
    var s, b := job.Replay(start, t), t[n..|t| - 1];
    var front := t[..|t| - 1];
    assert b[|b| - 1] == t[|t| - 2];
    assert job.Replay(start, front) != Wrong && job.Replay(start, front).fs == t[|t| - 2].after by {
      ReplayFront(job, start, t, |t| - 1);
      ReplayState(job, start, front);
    }
  }

  /** Scripts that are given only the build and cache directories leave the contents alone. */
  lemma BuildAndCacheApart(job: Job, inv: Invocation, q: Path)
    requires Separate(job.config.places, job.contentsDir) && job.contentsDir <= q
    requires inv == job.CompileCall(inv.bp) || inv == Release(inv.bp, job.config.places.buildDir)
    ensures !MayTouch(inv, q)
  {
    if job.config.places.buildDir < q {
      PrefixesNest(job.config.places.buildDir, job.contentsDir, q);
    }
    if job.FinalCache() < q {
      PrefixesNest(job.config.places.cacheDir, job.contentsDir, q);
    }
  }

  /** The last index's deps directory is as it was made if the build was finalized, and gone with
      everything in it if not. */
  lemma LastDeps(job: Job, start: FS, t: seq<Event>)
    requires job.config.InRange() && Separate(job.config.places, job.contentsDir)
    requires job.Replay(start, t).Released? && AllConfined(t)
    ensures var s := job.Replay(start, t);
            if s.finalized then At(s.fs, job.DepsSubDir(job.K())) == At(start, job.DepsSubDir(job.K()))
            else forall q :: job.DepsSubDir(job.K()) <= q ==> At(s.fs, q) == At(s.built, q) == None
  {
    hide Job.Replay, OutOfReach, MayTouch, Job.DepsIndex, Live;
    var s, last := job.Replay(start, t), job.DepsSubDir(job.K());
    ReplayState(job, start, t);
    TraceFits(job, start, t);
    LiveKinds(job, t, s);
    assert last == job.DepsDir() + [job.DepsIndex(job.K())];
    if s.finalized {
      DepsOutOfReach(job, job.DepsIndex(job.K()));
      forall i | 0 <= i < |t|
        ensures !MayTouch(t[i].inv, last) && !t[i].inv.Compile?
      {
        Untouchable(job, start, t, i, last);
        assert !IS_COMPILE(t[i].inv);
      }
      Steady(job, start, t, 0, |t|, last);
    } else {
      var c := |t| - 2;
      CompiledLast(job, start, t);
      forall q | last <= q
        ensures At(s.fs, q) == At(s.built, q) == None
      {
        Chained(job, start, t, c);
        Chained(job, start, t, c + 1);
        PrunedAt(StateAfter(start, t, c), last);
        BuildAndCacheApart(job, t[c].inv, q);
        BuildAndCacheApart(job, t[c + 1].inv, q);
        assert Confined(t[c]) && Confined(t[c + 1]);
      }
    }
  }

  function Indices(job: Job, n: nat): (ids: set<string>)
    ensures forall x :: x in ids <==> exists i: nat :: i < n && x == job.DepsIndex(i)
  {
    set i | 0 <= i < n :: job.DepsIndex(i)
  }

  lemma {:induction false} IndicesCount(job: Job, n: nat)
    requires SaneLog10(job.env.codecs.log10) && n <= job.K() + 1
    ensures |Indices(job, n)| == n
  {
    hide Job.DepsIndex;
    if n == 0 {
      assert Indices(job, 0) == {};
    } else {
      IndicesCount(job, n - 1);
      forall i: nat | i < n - 1
        ensures job.DepsIndex(i) != job.DepsIndex(n - 1)
      {
        DepsDistinct(job, i, n - 1);
      }
      assert Indices(job, n) == Indices(job, n - 1) + {job.DepsIndex(n - 1)};
      assert job.DepsIndex(n - 1) !in Indices(job, n - 1);
    }
  }

  /** Before the first script there are exactly k+1 separate deps directories, one per buildpack. */
  lemma DepsDirsMade(job: Job, fs0: FS, start: FS)
    requires SetUp(job, fs0, start) && SaneLog10(job.env.codecs.log10)
    ensures Names(start, job.DepsDir()) == Indices(job, job.K() + 1)
    ensures |Names(start, job.DepsDir())| == job.K() + 1
  {
    hide Job.DepsIndex, SetUp, Made, Indices;
    forall x
      ensures x in Names(start, job.DepsDir()) <==> x in Indices(job, job.K() + 1)
    {
      var q := job.DepsDir() + [x];
      assert job.contentsDir <= q;
      PreparedInside(job, fs0, start, q);
      MadeDeps(job, x);
      assert q in start <==> At(start, q).Some?;
    }
    IndicesCount(job, job.K() + 1);
  }
}
