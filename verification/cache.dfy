/** The build artifacts cache: what cleaning keeps, what a build hands on, and what survives a
    chain of builds of any length. */
module CacheChain {
  import opened Prelude
  import opened FileSystem
  import opened World
  import opened Protocol
  import opened Frames
  import opened Layout
  import opened Droplets

  /** The top-level names a build keeps in its cache. */
  function KeptNames(job: Job): set<string> {
    {"final"} + set name | name in job.Supplies() :: job.Hash(name)
  }

  /** Making the directories adds to the cache only the kept ones. */
  lemma FurnishedCache(job: Job, fs0: FS, q: Path)
    requires job.CanMake(fs0) && Separate(job.config.places, job.contentsDir)
    requires job.config.places.cacheDir < q
    ensures At(job.Furnished(fs0), q) ==
              if q !in fs0 && (exists n :: n in KeptNames(job) && q == job.config.places.cacheDir + [n])
              then Some(Dir) else At(fs0, q)
  {
    hide MkAll, CanMkAll, Job.InnerDirs, CanTempDir;
    var c, d, cache := job.config.places, job.contentsDir, job.config.places.cacheDir;
    var outer, inner := job.OuterDirs(), job.InnerDirs();
    var g1 := MkAll(fs0, outer);
    MkAllAt(fs0, outer, q);
    MkAllAt(g1[d := Dir], inner, q);
    forall i | 0 <= i < |inner|
      ensures !(q <= inner[i])
    {
      InnerInside(job, i);
      if cache <= inner[i] {
        PrefixesNest(cache, d, inner[i]);
      }
      PrefixChain(cache, q, inner[i]);
    }
    OuterInCache(job, q);
  }

  lemma PrefixChain(p: Path, q: Path, r: Path)
    requires p <= q
    ensures q <= r ==> p <= r
  {
  }

  lemma InnerInside(job: Job, i: nat)
    requires i < |job.InnerDirs()|
    ensures job.contentsDir <= job.InnerDirs()[i]
  {
    hide Job.DepsIndex;
    assert job.InnerDirs()[i] == if i < |job.InnerDirs()| - 1 then job.DepsSubDir(i) else job.ProfileDir();
  }

  lemma OuterInCache(job: Job, q: Path)
    requires Separate(job.config.places, job.contentsDir) && job.config.places.cacheDir < q
    ensures (exists i :: 0 <= i < |job.OuterDirs()| && q <= job.OuterDirs()[i]) <==>
            (exists n :: n in KeptNames(job) && q == job.config.places.cacheDir + [n])
  {
    hide Job.OuterDirs, KeptNames, Separate;
    var cache, outer := job.config.places.cacheDir, job.OuterDirs();
    if i :| 0 <= i < |outer| && q <= outer[i] {
      ParentsOutside(job, q);
      OuterKept(job, i);
      OneDeeper(cache, q, outer[i]);
    }
    if n :| n in KeptNames(job) && q == cache + [n] {
      KeptOuter(job, n);
    }
  }

  /** The parents of the output files do not lie in the cache. */
  lemma ParentsOutside(job: Job, q: Path)
    requires Separate(job.config.places, job.contentsDir) && job.config.places.cacheDir < q
    ensures |job.OuterDirs()| >= 2 && !(q <= job.OuterDirs()[0]) && !(q <= job.OuterDirs()[1])
  {
    hide Job.CachePaths, Job.FinalCache;
    var c := job.config.places;
    PrefixChain(c.cacheDir, q, c.outputDroplet);
    PrefixChain(c.cacheDir, q, c.outputMetadata);
    assert job.OuterDirs()[0] <= c.outputDroplet && job.OuterDirs()[1] <= c.outputMetadata;
  }

  lemma KeptOuter(job: Job, n: string)
    requires n in KeptNames(job)
    ensures exists i :: 0 <= i < |job.OuterDirs()| && job.OuterDirs()[i] == job.config.places.cacheDir + [n]
  {
    hide Job.Hash;
    var outer, names := job.OuterDirs(), job.Supplies();
    if n == "final" {
      assert outer[2] == job.FinalCache();
    } else {
      var name :| name in names && n == job.Hash(name);
      var k :| 0 <= k < |names| && names[k] == name;
      assert outer[3 + k] == job.CachePath(name);
    }
  }

  lemma OneDeeper(p: Path, q: Path, r: Path)
    requires p < q && q <= r && |r| == |p| + 1
    ensures q == r
  {
  }

  lemma OuterKept(job: Job, i: nat)
    requires 2 <= i < |job.OuterDirs()|
    ensures exists n :: n in KeptNames(job) && job.OuterDirs()[i] == job.config.places.cacheDir + [n]
    ensures |job.OuterDirs()[i]| == |job.config.places.cacheDir| + 1
  {
    hide Job.Hash;
    if i == 2 {
      assert "final" in KeptNames(job);
    } else {
      var name := job.Supplies()[i - 3];
      assert job.OuterDirs()[i] == job.CachePath(name);
      assert name in job.Supplies() && job.Hash(name) in KeptNames(job);
    }
  }

  lemma NeededIsKept(job: Job, n: string)
    ensures job.config.places.cacheDir + [n] in job.NeededCache() <==> n in KeptNames(job)
  {
    hide Job.Hash;
    var cache := job.config.places.cacheDir;
    assert (cache + [n])[|cache|] == n;
    assert job.FinalCache()[|cache|] == "final";
    assert forall name :: job.CachePath(name)[|cache|] == job.Hash(name);
  }

  /** After cleaning, a kept directory holds what it held before, and anything else is gone. */
  lemma PrunedCacheAt(job: Job, fs0: FS, start: FS, n: string, r: Path)
    requires SetUp(job, fs0, start) && Rooted(fs0)
    ensures var q := job.config.places.cacheDir + [n] + r;
            && (n !in KeptNames(job) ==> At(start, q) == None)
            && (n in KeptNames(job) && r != [] ==> At(start, q) == At(fs0, q))
            && (n in KeptNames(job) && r == [] ==> At(start, q) == Some(Dir))
  {
    hide Job.Furnished, KeptNames, Job.CanMake, Job.NeededCache, Swept;
    var cache := job.config.places.cacheDir;
    var q, top, full := cache + [n] + r, cache + [n], job.Furnished(fs0);
    FurnishedCache(job, fs0, q);
    FurnishedCache(job, fs0, top);
    SweptAt(full, cache, job.NeededCache());
    NeededIsKept(job, n);
    assert q[..|cache| + 1] == top && top[|cache|] == n;
    assert forall m :: q == cache + [m] ==> m == n && q == top by {
      assert forall m :: (cache + [m])[|cache|] == m;
    }
    assert r != [] ==> |q| > |cache| + 1;
    assert q in fs0 ==> q[..|cache| + 1] in fs0;
    assert (q in full) == At(full, q).Some? && (top in full) == At(full, top).Some?;
    if n in KeptNames(job) {
      KeptIsDir(job, fs0, n);
      assert r == [] ==> q == top;
    }
  }

  lemma KeptIsDir(job: Job, fs0: FS, n: string)
    requires job.CanMake(fs0) && Separate(job.config.places, job.contentsDir) && n in KeptNames(job)
    ensures At(job.Furnished(fs0), job.config.places.cacheDir + [n]) == Some(Dir)
  {
    hide MkAll, CanMkAll, Job.InnerDirs, Job.OuterDirs, CanTempDir, Job.Furnished, KeptNames;
    var outer, q := job.OuterDirs(), job.config.places.cacheDir + [n];
    FurnishedCache(job, fs0, q);
    MkAllAt(fs0, outer, q);
    KeptOuter(job, n);
    var i :| 0 <= i < |outer| && outer[i] == q;
    MkAllDirs(fs0, outer, i);
  }

  /** After the directories are made and the cache cleaned, the cache's top level is exactly
      `final` and the hash directories of the supply buildpacks, whatever was there before, and
      what those directories held is unchanged. */
  lemma CachePruned(job: Job, fs0: FS, start: FS)
    requires SetUp(job, fs0, start) && Rooted(fs0)
    ensures Names(start, job.config.places.cacheDir) == KeptNames(job)
    ensures forall n, r :: n in KeptNames(job) && r != [] ==>
              At(start, job.config.places.cacheDir + [n] + r) == At(fs0, job.config.places.cacheDir + [n] + r)
  {
    hide SetUp, KeptNames, Names;
    var cache := job.config.places.cacheDir;
    forall n
      ensures n in Names(start, cache) <==> n in KeptNames(job)
    {
      PrunedCacheAt(job, fs0, start, n, []);
      assert cache + [n] + [] == cache + [n];
      assert n in Names(start, cache) <==> cache + [n] in start;
    }
    forall n, r | n in KeptNames(job) && r != []
      ensures At(start, cache + [n] + r) == At(fs0, cache + [n] + r)
    {
      PrunedCacheAt(job, fs0, start, n, r);
    }
  }

  // ----- From the first script to the output archive

  /** Scripts write in the cache only below `final` and the hash directories. */
  lemma CacheOutOfReach(job: Job, start: FS, t: seq<Event>, i: nat, n: string, r: Path)
    requires job.Replay(start, t) != Wrong && i < |t| && Separate(job.config.places, job.contentsDir)
    requires n in KeptNames(job) ==> r == []
    ensures !MayTouch(t[i].inv, job.config.places.cacheDir + [n] + r)
  {
    hide Job.Replay, Job.Hash, WriteRoots, Job.DepsIndex;
    var c, d, cache := job.config.places, job.contentsDir, job.config.places.cacheDir;
    var q := cache + [n] + r;
    CallsWithin(job, start, t, i);
    assert cache <= q && q[|cache|] == n;
    forall x | x in WriteRoots(t[i].inv)
      ensures !(x < q)
    {
      if x == c.buildDir {
        if x < q {
          PrefixesNest(c.buildDir, cache, q);
        }
      } else if x == job.FinalCache() || exists name :: name in job.Supplies() && x == job.CachePath(name) {
        assert x[|cache|] in KeptNames(job);
      } else {
        assert d <= x;
        PrefixChain(d, x, q);
        if x < q {
          PrefixesNest(d, cache, q);
        }
      }
    }
  }

  lemma CacheSteady(job: Job, start: FS, t: seq<Event>, n: string, r: Path)
    requires job.Replay(start, t) != Wrong && AllConfined(t)
    requires Separate(job.config.places, job.contentsDir)
    requires n in KeptNames(job) ==> r == []
    ensures At(StateAfter(start, t, |t|), job.config.places.cacheDir + [n] + r)
         == At(start, job.config.places.cacheDir + [n] + r)
  {
    hide Job.Replay, KeptNames, MayTouch, AllConfined;
    var q := job.config.places.cacheDir + [n] + r;
    forall i | 0 <= i < |t|
      ensures !MayTouch(t[i].inv, q)
    {
      CacheOutOfReach(job, start, t, i, n, r);
    }
    assert !(job.DepsSubDir(job.K()) <= q) by { DepsNotInCache(job, q); }
    Steady(job, start, t, 0, |t|, q);
  }

  lemma DepsNotInCache(job: Job, q: Path)
    requires Separate(job.config.places, job.contentsDir) && job.config.places.cacheDir <= q
    ensures !(job.DepsSubDir(job.K()) <= q)
  {
    hide Job.DepsIndex;
    assert job.contentsDir <= job.DepsSubDir(job.K());
    PrefixChain(job.contentsDir, job.DepsSubDir(job.K()), q);
    if job.contentsDir <= q {
      PrefixesNest(job.contentsDir, job.config.places.cacheDir, q);
    }
  }

  /** Packaging leaves the cache alone, so its archive is the cache as the last script left it. */
  lemma CacheArchived(job: Job, rel: Phase, r: Path)
    requires rel.Released? && Separate(job.config.places, job.contentsDir)
    ensures At(job.OutputCache(rel), r) == At(rel.fs, job.config.places.cacheDir + r)
  {
    hide Job.WithApp, Job.Droplet, Snapshot, Mkdirs;
    var c, q := job.config.places, job.config.places.cacheDir + r;
    SnapshotAt(job.WithDroplet(rel), c.cacheDir);
    CacheUncopied(job, rel, q);
    var packed := job.WithApp(rel)[c.outputDroplet := File(job.env.codecs.tar(job.Droplet(rel)))];
    MkdirsAt(packed, Parent(c.outputCache));
    PrefixChain(c.cacheDir, q, Parent(c.outputCache));
    assert At(packed, q) == At(rel.fs, q);
  }

  lemma CacheUncopied(job: Job, rel: Phase, q: Path)
    requires rel.Released? && Separate(job.config.places, job.contentsDir) && job.config.places.cacheDir <= q
    ensures At(job.WithApp(rel), q) == At(rel.fs, q)
  {
    hide Job.Info, Job.Result, Job.WithSkeleton, Job.WithApp;
    var c, d := job.config.places, job.contentsDir;
    NotInContents(job, q, q);
    CopyKeeps(job, rel, q);
    CacheBeforeApp(job, rel, q);
  }

  lemma CacheBeforeApp(job: Job, rel: Phase, q: Path)
    requires rel.Released? && Separate(job.config.places, job.contentsDir) && job.config.places.cacheDir <= q
    ensures At(job.WithSkeleton(rel), q) == At(rel.fs, q)
  {
    hide Job.Info, Job.Result, MkAll;
    var dirs := [job.contentsDir + ["tmp"], job.contentsDir + ["logs"]];
    NotInContents(job, q, job.InfoPath());
    NotInContents(job, q, dirs[0]);
    NotInContents(job, q, dirs[1]);
    MkAllAt(job.WithResult(rel), dirs, q);
  }

  lemma NotInContents(job: Job, q: Path, p: Path)
    requires Separate(job.config.places, job.contentsDir) && job.config.places.cacheDir <= q
    ensures q <= p ==> !(job.contentsDir <= p)
  {
    if q <= p && job.contentsDir <= p {
      PrefixChain(job.config.places.cacheDir, q, p);
      PrefixesNest(job.config.places.cacheDir, job.contentsDir, p);
    }
  }

  // ----- Rounds

  /** What one build does to the cache: `inn` is what its scripts find, `out` what it hands on. */
  datatype Round = Round(kept: set<string>, inn: Tree, out: Tree)

  ghost predicate IsRound(before: Tree, r: Round) {
    && (forall n, q :: n in r.kept && q != [] ==> At(r.inn, [n] + q) == At(before, [n] + q))
    && (forall n, q :: n !in r.kept ==> At(r.inn, [n] + q) == None && At(r.out, [n] + q) == None)
    && Names(r.inn, []) == Names(r.out, []) == r.kept
    && "final" in r.kept && "app.zip" !in r.kept
  }

  /** A build, the file systems before and after its set-up, and the scripts it ran. */
  datatype Build = Build(job: Job, fs0: FS, start: FS, trace: seq<Event>)

  ghost predicate Done(b: Build) {
    Completed(b.job, b.fs0, b.start, b.trace) && Rooted(b.fs0)
  }

  function CacheBefore(b: Build): Tree {
    Snapshot(b.fs0, b.job.config.places.cacheDir)
  }

  ghost function RoundOf(b: Build): Round
    requires Done(b)
  {
    Round(KeptNames(b.job), Snapshot(b.start, b.job.config.places.cacheDir),
          b.job.OutputCache(b.job.Replay(b.start, b.trace)))
  }

  /** A hash name is 32 characters long, so it is neither of the two plain names. */
  lemma KeptApart(job: Job)
    ensures "app.zip" !in KeptNames(job)
    ensures forall name :: job.Hash(name) != "final"
  {
    assert forall name :: |job.Hash(name)| == 32 && job.Hash(name) != "app.zip" && job.Hash(name) != "final";
  }

  /** Every completed build is a round on the cache it was given. */
  lemma BuildIsRound(b: Build)
    requires Done(b)
    ensures IsRound(CacheBefore(b), RoundOf(b))
  {
    var Build(job, fs0, start, t) := b;
    hide Job.Replay, KeptNames, SetUp, Job.CanPackage, Job.OutputCache, Snapshot, AllConfined, Names;
    var cache, rel := job.config.places.cacheDir, job.Replay(start, t);
    SnapshotAt(fs0, cache);
    SnapshotAt(start, cache);
    forall n, q
      ensures n in KeptNames(job) && q != [] ==>
                At(Snapshot(start, cache), [n] + q) == At(Snapshot(fs0, cache), [n] + q)
      ensures n !in KeptNames(job) ==>
                At(Snapshot(start, cache), [n] + q) == None && At(job.OutputCache(rel), [n] + q) == None
    {
      RoundAt(job, fs0, start, t, n, q);
      assert cache + ([n] + q) == cache + [n] + q;
    }
    forall n
      ensures n in Names(Snapshot(start, cache), []) <==> n in KeptNames(job)
      ensures n in Names(job.OutputCache(rel), []) <==> n in KeptNames(job)
    {
      RoundAt(job, fs0, start, t, n, []);
      assert [] + [n] == [n] == [n] + [] && cache + ([n] + []) == cache + [n] + [];
      NamesAt(Snapshot(start, cache), [], n);
      NamesAt(job.OutputCache(rel), [], n);
    }
    KeptApart(job);
    FinalKept(job);
  }

  lemma FinalKept(job: Job)
    ensures "final" in KeptNames(job)
  {
  }

  lemma NamesAt(fs: FS, dir: Path, n: string)
    ensures n in Names(fs, dir) <==> At(fs, dir + [n]).Some?
  {
  }

  lemma RoundAt(job: Job, fs0: FS, start: FS, t: seq<Event>, n: string, q: Path)
    requires Completed(job, fs0, start, t) && Rooted(fs0)
    ensures var p, out := job.config.places.cacheDir + [n] + q, job.OutputCache(job.Replay(start, t));
            && (n in KeptNames(job) && q != [] ==> At(start, p) == At(fs0, p))
            && (n in KeptNames(job) && q == [] ==> At(start, p) == At(out, [n] + q) == Some(Dir))
            && (n !in KeptNames(job) ==> At(start, p) == At(out, [n] + q) == None)
  {
    hide Job.Replay, KeptNames, Job.CanPackage, Job.OutputCache, AllConfined, Job.CanMake, Job.Prepared;
    var rel := job.Replay(start, t);
    PrunedCacheAt(job, fs0, start, n, q);
    CacheArchived(job, rel, [n] + q);
    assert job.config.places.cacheDir + ([n] + q) == job.config.places.cacheDir + [n] + q;
    if n in KeptNames(job) ==> q == [] {
      CacheSteady(job, start, t, n, q);
      ReplayState(job, start, t);
    }
  }

  // ----- Chains

  /** The cache directory after the previous archive, stored in it as app.zip, was unpacked. */
  ghost predicate Unpacked(prev: Tree, before: Tree) {
    forall n, q :: n != "app.zip" ==> At(before, [n] + q) == At(prev, [n] + q)
  }

  /** Completed builds, each given what the one before it handed on. */
  ghost predicate Chain(builds: seq<Build>) {
    && (forall i :: 0 <= i < |builds| ==> Done(builds[i]))
    && (forall i :: 0 < i < |builds| ==> Unpacked(RoundOf(builds[i - 1]).out, CacheBefore(builds[i])))
  }

  ghost predicate RoundChain(rounds: seq<Round>, befores: seq<Tree>) {
    && |rounds| == |befores|
    && (forall i :: 0 <= i < |rounds| ==> IsRound(befores[i], rounds[i]))
    && (forall i :: 0 < i < |rounds| ==> Unpacked(rounds[i - 1].out, befores[i]))
  }

  /** The scripts of build i leave this path of a kept directory as they find it. */
  ghost predicate LeftAlone(r: Round, h: string, q: Path) {
    h in r.kept ==> At(r.out, [h] + q) == At(r.inn, [h] + q)
  }

  /** Every round after `first` up to `last` keeps this top-level name. */
  ghost predicate KeptThrough(rounds: seq<Round>, h: string, first: nat, last: nat)
    requires last < |rounds|
  {
    forall i :: first < i <= last ==> h in rounds[i].kept
  }

  /** What build `first` leaves below a cache directory survives to build `last` exactly when every
      build after it up to `last` keeps that directory; dropped once, it does not come back. */
  lemma {:induction false} SurvivesIff(rounds: seq<Round>, befores: seq<Tree>, first: nat, last: nat,
                                       h: string, q: Path)
    requires RoundChain(rounds, befores) && first <= last < |rounds| == |befores| && q != [] && h != "app.zip"
    requires forall i :: first < i <= last ==> LeftAlone(rounds[i], h, q)
    requires At(rounds[first].out, [h] + q).Some?
    ensures At(rounds[last].out, [h] + q)
         == if KeptThrough(rounds, h, first, last) then At(rounds[first].out, [h] + q) else None
    decreases last
  {
    hide IsRound, Unpacked, LeftAlone, RoundChain, KeptThrough, At;
    ChainAt(rounds, befores, last);
    KeptStep(rounds, h, first, last);
    if first < last {
      SurvivesIff(rounds, befores, first, last - 1, h, q);
      SurvivesOne(rounds[last - 1].out, befores[last], rounds[last], h, q);
    }
  }

  lemma ChainAt(rounds: seq<Round>, befores: seq<Tree>, i: nat)
    requires RoundChain(rounds, befores) && i < |rounds|
    ensures |befores| == |rounds| && IsRound(befores[i], rounds[i])
    ensures i > 0 ==> Unpacked(rounds[i - 1].out, befores[i])
  {
  }

  lemma KeptStep(rounds: seq<Round>, h: string, first: nat, last: nat)
    requires first <= last < |rounds|
    ensures first == last ==> KeptThrough(rounds, h, first, last)
    ensures first < last ==>
              (KeptThrough(rounds, h, first, last) <==>
               KeptThrough(rounds, h, first, last - 1) && h in rounds[last].kept)
  {
  }

  lemma SurvivesOne(prev: Tree, before: Tree, r: Round, h: string, q: Path)
    requires Unpacked(prev, before) && IsRound(before, r) && LeftAlone(r, h, q) && q != [] && h != "app.zip"
    ensures At(r.out, [h] + q) == if h in r.kept then At(prev, [h] + q) else None
  {
    hide Names;
  }

  /** No two of the names have the same md5 sum. */
  ghost predicate NoCollision(job: Job, name: string) {
    forall other :: other in job.Supplies() && job.env.codecs.md5(other) == job.env.codecs.md5(name) ==> other == name
  }

  lemma KeptIffListed(job: Job, name: string)
    requires NoCollision(job, name)
    ensures job.Hash(name) in KeptNames(job) <==> name in job.Supplies()
  {
    KeptApart(job);
    if job.Hash(name) in KeptNames(job) {
      var other :| other in job.Supplies() && job.Hash(other) == job.Hash(name);
      HexInjective(job.env.codecs.md5(other), job.env.codecs.md5(name));
    }
  }

  /** Over a chain of builds of any length: what the scripts of build `first` left in a buildpack's
      cache directory, and later scripts leave alone, is still there after build `last` exactly when
      every build after `first` up to `last` lists the buildpack among its supply buildpacks; and no
      build hands on the archive it was given. */
  lemma CacheSurvives(builds: seq<Build>, first: nat, last: nat, name: string, h: string, q: Path)
    requires Chain(builds) && first <= last < |builds| && q != [] && |h| == 32
    requires forall i :: first < i <= last ==> builds[i].job.Hash(name) == h && NoCollision(builds[i].job, name)
    requires forall i :: first < i <= last ==> LeftAlone(RoundOf(builds[i]), h, q)
    requires At(RoundOf(builds[first]).out, [h] + q).Some?
    ensures At(RoundOf(builds[last]).out, [h] + q)
         == if forall i :: first < i <= last ==> name in builds[i].job.Supplies()
            then At(RoundOf(builds[first]).out, [h] + q) else None
    ensures forall i :: 0 <= i < |builds| ==> ["app.zip"] !in RoundOf(builds[i]).out
  {
    hide IsRound, Unpacked, LeftAlone, KeptNames, Done, RoundOf, NoCollision, Job.Supplies, Job.Hash;
    var rounds, befores := Rounds(builds);
    forall i | first < i <= last
      ensures h in rounds[i].kept <==> name in builds[i].job.Supplies()
    {
      KeptIffListed(builds[i].job, name);
      KeptOf(builds[i]);
    }
    SurvivesIff(rounds, befores, first, last, h, q);
    forall i | 0 <= i < |builds|
      ensures ["app.zip"] !in rounds[i].out
    {
      NoAppZip(befores[i], rounds[i]);
    }
  }

  lemma KeptOf(b: Build)
    requires Done(b)
    ensures RoundOf(b).kept == KeptNames(b.job)
  {
  }

  lemma NoAppZip(before: Tree, r: Round)
    requires IsRound(before, r)
    ensures ["app.zip"] !in r.out
  {
    hide Names;
    assert ["app.zip"] + [] == ["app.zip"];
    assert At(r.out, ["app.zip"] + []) == None;
  }

  lemma Rounds(builds: seq<Build>) returns (rounds: seq<Round>, befores: seq<Tree>)
    requires Chain(builds)
    ensures RoundChain(rounds, befores) && |rounds| == |builds|
    ensures forall i :: 0 <= i < |builds| ==> Done(builds[i]) && rounds[i] == RoundOf(builds[i])
  {
    hide IsRound, Unpacked, Done, RoundOf, CacheBefore;
    rounds := seq(|builds|, i requires 0 <= i < |builds| && Done(builds[i]) => RoundOf(builds[i]));
    befores := seq(|builds|, i requires 0 <= i < |builds| => CacheBefore(builds[i]));
    forall i | 0 <= i < |builds|
      ensures IsRound(befores[i], rounds[i])
    {
      BuildIsRound(builds[i]);
    }
  }
}
