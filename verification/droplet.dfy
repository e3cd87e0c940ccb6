/** The droplet archive of a successful build. */
module Droplets {
  import opened Prelude
  import opened Decimal
  import opened FileSystem
  import opened World
  import opened Protocol
  import opened Frames
  import opened Layout

  /** A build that has run to the end. */
  ghost predicate Completed(job: Job, fs0: FS, start: FS, t: seq<Event>) {
    && SetUp(job, fs0, start) && job.config.InRange() && SaneLog10(job.env.codecs.log10)
    && job.Replay(start, t).Released? && AllConfined(t) && job.CanPackage(job.Replay(start, t))
  }

  /** Where nothing was made and no script reaches, there is nothing. */
  lemma NothingAt(job: Job, fs0: FS, start: FS, t: seq<Event>, n: string, q: Path)
    requires SetUp(job, fs0, start) && job.Replay(start, t).Released? && AllConfined(t)
    requires n != "deps" && n != "profile.d"
    requires job.contentsDir + [n] <= q
    ensures At(job.Replay(start, t).fs, q) == None
  {
    hide Job.Replay, Job.Prepared, Job.CanMake, OutOfReach, Made, Job.DepsIndex, AllConfined;
    var d, c := job.contentsDir, job.config.places;
    assert d <= q && q[|d|] == n;
    PreparedInside(job, fs0, start, q);
    MadeTop(job, n);
    if Made(job, q) {
      MadeClosed(job, d + [n], q);
    }
    ReplayState(job, start, t);
    assert OutOfReach(job, q) by { ElsewhereOutOfReach(job, n, q); }
    assert !(job.DepsSubDir(job.K()) <= q) by {
      assert job.DepsSubDir(job.K())[|d|] == "deps";
    }
    Kept(job, start, t, |t|, q);
  }

  lemma MadeClosed(job: Job, p: Path, q: Path)
    requires p <= q && Made(job, q)
    ensures Made(job, p)
  {
    hide Job.InnerDirs;
    var i :| 0 <= i < |job.InnerDirs()| && q <= job.InnerDirs()[i];
    assert p <= job.InnerDirs()[i];
  }

  lemma ElsewhereOutOfReach(job: Job, n: string, q: Path)
    requires Separate(job.config.places, job.contentsDir)
    requires n != "deps" && n != "profile.d" && job.contentsDir + [n] <= q
    ensures OutOfReach(job, q)
  {
    hide Job.DepsIndex;
    var d, c := job.contentsDir, job.config.places;
    assert q[|d|] == n;
    if c.buildDir < q {
      PrefixesNest(c.buildDir, d, q);
    }
    if c.cacheDir < q {
      PrefixesNest(c.cacheDir, d, q);
    }
    assert job.ProfileDir()[|d|] == "profile.d";
    forall i | 0 <= i <= job.K()
      ensures !(job.DepsSubDir(i) < q)
    {
      assert job.DepsSubDir(i)[|d|] == "deps";
    }
  }

  /** The contents directory and the build directory just before they are archived. */
  lemma BeforeApp(job: Job, rel: Phase, q: Path)
    requires rel.Released? && Separate(job.config.places, job.contentsDir)
    ensures job.contentsDir <= q ==>
              At(job.WithSkeleton(rel), q)
              == if q == job.InfoPath() then Some(File(job.env.codecs.encodeInfo(job.Info(rel))))
                 else if q !in rel.fs && (q <= job.contentsDir + ["tmp"] || q <= job.contentsDir + ["logs"])
                 then Some(Dir) else At(rel.fs, q)
    ensures job.config.places.buildDir <= q ==> At(job.WithSkeleton(rel), q) == At(rel.fs, q)
  {
    hide Job.Info, MkAll;
    var d, c := job.contentsDir, job.config.places;
    var dirs := [d + ["tmp"], d + ["logs"]];
    MkAllAt(job.WithResult(rel), dirs, q);
    assert (exists i :: 0 <= i < |dirs| && q <= dirs[i]) <==> q <= dirs[0] || q <= dirs[1];
    assert d <= q ==> q != c.outputMetadata;
    if c.buildDir <= q {
      assert q != c.outputMetadata;
      assert q != job.InfoPath() by {
        if c.buildDir <= job.InfoPath() {
          PrefixesNest(c.buildDir, d, job.InfoPath());
        }
      }
      if q <= dirs[0] {
        PrefixesNest(c.buildDir, d, dirs[0]);
      }
      if q <= dirs[1] {
        PrefixesNest(c.buildDir, d, dirs[1]);
      }
    }
  }

  /** The app directory of the droplet is the build directory as the release script left it, and
      the rest of the contents is as it was. */
  lemma AppCopied(job: Job, fs0: FS, start: FS, t: seq<Event>, q: Path)
    requires Completed(job, fs0, start, t)
    ensures var rel := job.Replay(start, t);
            var app := job.contentsDir + ["app"];
            && (app <= q ==> At(job.WithApp(rel), q) == At(rel.fs, job.config.places.buildDir + q[|app|..]))
            && (!(app <= q) ==> At(job.WithApp(rel), q) == At(job.WithSkeleton(rel), q))
  {
    hide Job.Replay, Job.WithSkeleton, Job.CanMake, Job.Prepared, MkAll, CanMkAll, AllConfined;
    var rel, app, build := job.Replay(start, t), job.contentsDir + ["app"], job.config.places.buildDir;
    NothingAt(job, fs0, start, t, "app", app);
    BeforeApp(job, rel, app);
    assert app[|job.contentsDir|] == "app";
    assert CopyTarget(job.WithSkeleton(rel), build, app) == app;
    SnapshotAt(job.WithSkeleton(rel), build);
    PlacedAt(job.WithSkeleton(rel), app, Snapshot(job.WithSkeleton(rel), build));
    if app <= q {
      var r := q[|app|..];
      BeforeApp(job, rel, build + r);
      assert At(Snapshot(job.WithSkeleton(rel), build), r) == At(rel.fs, build + r);
      NothingAt(job, fs0, start, t, "app", q);
      BeforeApp(job, rel, q);
      assert q[|job.contentsDir|] == "app";
      assert q != job.InfoPath();
      assert !(q <= job.contentsDir + ["tmp"]) && !(q <= job.contentsDir + ["logs"]);
    }
  }

  /** The top level of the droplet is exactly app, deps, profile.d, tmp, logs and
      staging_info.yml. */
  lemma DropletTop(job: Job, fs0: FS, start: FS, t: seq<Event>)
    requires Completed(job, fs0, start, t)
    ensures Names(job.Droplet(job.Replay(start, t)), [])
         == {"app", "deps", "profile.d", "tmp", "logs", "staging_info.yml"}
  {
    hide Job.Replay, Job.Droplet, Job.WithApp, SetUp, Job.CanPackage, AllConfined, Snapshot, Names, At, Job.DepsDir;
    var rel, tree := job.Replay(start, t), job.Droplet(job.Replay(start, t));
    var names := {"app", "deps", "profile.d", "tmp", "logs", "staging_info.yml"};
    forall n
      ensures n in Names(tree, []) <==> n in names
    {
      NamesTop(tree, n);
      DropletAt(job, rel, [n]);
      DropletTopAt(job, fs0, start, t, n);
    }
  }

  lemma NamesTop(tree: Tree, n: string)
    ensures n in Names(tree, []) <==> At(tree, [n]).Some?
  {
    assert [] + [n] == [n];
  }

  lemma DropletAt(job: Job, rel: Phase, r: Path)
    requires rel.Released?
    ensures At(job.Droplet(rel), r) == At(job.WithApp(rel), job.contentsDir + r)
  {
    hide Job.WithApp, Snapshot;
    SnapshotAt(job.WithApp(rel), job.contentsDir);
  }

  lemma DropletTopAt(job: Job, fs0: FS, start: FS, t: seq<Event>, n: string)
    requires Completed(job, fs0, start, t)
    ensures At(job.WithApp(job.Replay(start, t)), job.contentsDir + [n]).Some? <==>
            n in {"app", "deps", "profile.d", "tmp", "logs", "staging_info.yml"}
  {
    hide Job.Replay, Job.WithApp, Job.WithSkeleton, Job.CanMake, Job.Prepared, Made, OutOfReach, AllConfined;
    var rel, d := job.Replay(start, t), job.contentsDir;
    var q, app := d + [n], d + ["app"];
    assert q[|d|] == n;
    AppCopied(job, fs0, start, t, q);
    if n == "app" {
      assert q[|app|..] == [] && job.config.places.buildDir + [] == job.config.places.buildDir;
      assert At(rel.fs, job.config.places.buildDir).Some? by { BuildDirThere(job, rel); }
    } else {
      assert !(app <= q) by { assert app[|d|] == "app"; }
      BeforeApp(job, rel, q);
      assert q <= d + ["tmp"] <==> n == "tmp" by { assert (d + ["tmp"])[|d|] == "tmp"; }
      assert q <= d + ["logs"] <==> n == "logs" by { assert (d + ["logs"])[|d|] == "logs"; }
      assert q == job.InfoPath() <==> n == "staging_info.yml" by {
        assert job.InfoPath()[|d|] == "staging_info.yml";
      }
      if n != "deps" && n != "profile.d" {
        NothingAt(job, fs0, start, t, n, q);
      } else {
        TopOutOfReach(job, n);
        ReplayState(job, start, t);
        Kept(job, start, t, |t|, q);
        PreparedInside(job, fs0, start, q);
        MadeTop(job, n);
      }
    }
  }

  lemma BuildDirThere(job: Job, rel: Phase)
    requires rel.Released? && job.CanPackage(rel) && Separate(job.config.places, job.contentsDir)
    ensures At(rel.fs, job.config.places.buildDir).Some?
  {
    hide Job.WithSkeleton, Job.WithApp, Job.WithDroplet, CanTar, CanWrite, CanMkAll, CanMkdirs;
    BeforeApp(job, rel, job.config.places.buildDir);
  }

  /** What the droplet holds: the built app, the deps directories of exactly the remaining indices
      as the build left them, empty tmp and logs, and the staging info. */
  lemma DropletLayout(job: Job, fs0: FS, start: FS, t: seq<Event>)
    requires Completed(job, fs0, start, t)
    ensures var rel := job.Replay(start, t);
            var tree := job.Droplet(rel);
            && Names(tree, []) == {"app", "deps", "profile.d", "tmp", "logs", "staging_info.yml"}
            && (forall x :: x in Names(tree, ["deps"]) <==>
                              exists i: nat :: Remains(job, rel.finalized, i) && x == job.DepsIndex(i))
            && (forall r :: At(tree, ["app"] + r) == At(rel.fs, job.config.places.buildDir + r))
            && (forall r :: At(tree, ["deps"] + r) == At(rel.built, job.DepsDir() + r))
            && At(tree, ["staging_info.yml"]) == Some(File(job.env.codecs.encodeInfo(job.Info(rel))))
            && At(tree, ["tmp"]) == Some(Dir) && Names(tree, ["tmp"]) == {}
            && At(tree, ["logs"]) == Some(Dir) && Names(tree, ["logs"]) == {}
  {
    hide Job.Replay, Job.Droplet, Job.Info, Job.DepsIndex, SetUp, Job.CanPackage, AllConfined, Names;
    DropletTop(job, fs0, start, t);
    forall r
      ensures var rel := job.Replay(start, t);
              && At(job.Droplet(rel), ["app"] + r) == At(rel.fs, job.config.places.buildDir + r)
              && At(job.Droplet(rel), ["deps"] + r) == At(rel.built, job.DepsDir() + r)
    {
      DropletBelow(job, fs0, start, t, r);
    }
    forall x
      ensures x in Names(job.Droplet(job.Replay(start, t)), ["deps"]) <==>
              exists i: nat :: Remains(job, job.Replay(start, t).finalized, i) && x == job.DepsIndex(i)
    {
      DropletDeps(job, fs0, start, t, x);
    }
    EmptyDir(job, fs0, start, t, "tmp");
    EmptyDir(job, fs0, start, t, "logs");
    InfoArchived(job, fs0, start, t);
  }

  lemma DropletBelow(job: Job, fs0: FS, start: FS, t: seq<Event>, r: Path)
    requires Completed(job, fs0, start, t)
    ensures var rel := job.Replay(start, t);
            && At(job.Droplet(rel), ["app"] + r) == At(rel.fs, job.config.places.buildDir + r)
            && At(job.Droplet(rel), ["deps"] + r) == At(rel.fs, job.DepsDir() + r)
                                                  == At(rel.built, job.DepsDir() + r)
  {
    hide Job.Replay, Job.Droplet, Job.WithApp, SetUp, Job.CanPackage, AllConfined, Snapshot, Names, At, Job.DepsDir;
    var rel, d := job.Replay(start, t), job.contentsDir;
    DropletAt(job, rel, ["app"] + r);
    DropletAt(job, rel, ["deps"] + r);
    AppArchived(job, fs0, start, t, r);
    DepsArchived(job, fs0, start, t, r);
    DepsPath(job, r);
  }

  lemma DepsPath(job: Job, r: Path)
    ensures job.contentsDir + (["deps"] + r) == job.DepsDir() + r
  {
  }

  lemma AppArchived(job: Job, fs0: FS, start: FS, t: seq<Event>, r: Path)
    requires Completed(job, fs0, start, t)
    ensures var rel := job.Replay(start, t);
            At(job.WithApp(rel), job.contentsDir + (["app"] + r)) == At(rel.fs, job.config.places.buildDir + r)
  {
    hide Job.Replay, Job.WithApp, SetUp, Job.CanPackage, AllConfined, At;
    var q, app := job.contentsDir + (["app"] + r), job.contentsDir + ["app"];
    assert q == app + r && q[|app|..] == r;
    AppCopied(job, fs0, start, t, q);
  }

  lemma DropletDeps(job: Job, fs0: FS, start: FS, t: seq<Event>, x: string)
    requires Completed(job, fs0, start, t)
    ensures x in Names(job.Droplet(job.Replay(start, t)), ["deps"]) <==>
            exists i: nat :: Remains(job, job.Replay(start, t).finalized, i) && x == job.DepsIndex(i)
  {
    hide Job.Replay, Job.Droplet, SetUp, Job.CanPackage, AllConfined, Job.DepsIndex;
    DropletBelow(job, fs0, start, t, [x]);
    DepsNamesCompleted(job, fs0, start, t, x);
  }

  lemma DepsNamesCompleted(job: Job, fs0: FS, start: FS, t: seq<Event>, x: string)
    requires Completed(job, fs0, start, t)
    ensures At(job.Replay(start, t).fs, job.DepsDir() + [x]).Some? <==>
            exists i: nat :: Remains(job, job.Replay(start, t).finalized, i) && x == job.DepsIndex(i)
  {
    hide Job.Replay, SetUp, Job.CanPackage, Job.DepsIndex;
    DepsNames(job, fs0, start, t, x);
  }

  /** Neither release nor packaging touches the deps directory. */
  lemma DepsArchived(job: Job, fs0: FS, start: FS, t: seq<Event>, r: Path)
    requires Completed(job, fs0, start, t)
    ensures var rel := job.Replay(start, t);
            At(job.WithApp(rel), job.DepsDir() + r) == At(rel.fs, job.DepsDir() + r)
                                                    == At(rel.built, job.DepsDir() + r)
  {
    hide Job.Replay, Job.WithApp, Job.WithSkeleton, Job.CanMake, Job.Prepared, Job.CanPackage, Job.DepsIndex;
    var rel, d, q := job.Replay(start, t), job.contentsDir, job.DepsDir() + r;
    assert d <= q && q[|d|] == "deps";
    AppCopied(job, fs0, start, t, q);
    BeforeApp(job, rel, q);
    assert (d + ["app"])[|d|] == "app" && (d + ["tmp"])[|d|] == "tmp" && (d + ["logs"])[|d|] == "logs";
    assert job.InfoPath()[|d|] == "staging_info.yml";
    CompiledLast(job, start, t);
    ReplayState(job, start, t);
    BuildAndCacheApart(job, t[|t| - 1].inv, q);
    assert Confined(t[|t| - 1]);
  }

  lemma EmptyDir(job: Job, fs0: FS, start: FS, t: seq<Event>, n: string)
    requires Completed(job, fs0, start, t) && (n == "tmp" || n == "logs")
    ensures var tree := job.Droplet(job.Replay(start, t));
            At(tree, [n]) == Some(Dir) && Names(tree, [n]) == {}
  {
    hide Job.Replay, Job.WithApp, Job.WithSkeleton, Job.CanMake, Job.Prepared, Job.CanPackage, AllConfined;
    var rel, d := job.Replay(start, t), job.contentsDir;
    var tree := job.Droplet(rel);
    SnapshotAt(job.WithApp(rel), d);
    EmptyDirAt(job, fs0, start, t, n, d + [n]);
    assert At(tree, [n]) == At(job.WithApp(rel), d + [n]);
    forall x
      ensures x !in Names(tree, [n])
    {
      assert d + ([n] + [x]) == d + [n] + [x];
      assert At(tree, [n] + [x]) == At(job.WithApp(rel), d + [n] + [x]);
      EmptyDirAt(job, fs0, start, t, n, d + [n] + [x]);
    }
  }

  lemma EmptyDirAt(job: Job, fs0: FS, start: FS, t: seq<Event>, n: string, q: Path)
    requires Completed(job, fs0, start, t) && (n == "tmp" || n == "logs")
    requires job.contentsDir + [n] <= q
    ensures At(job.WithApp(job.Replay(start, t)), q) == if q == job.contentsDir + [n] then Some(Dir) else None
  {
    hide Job.Replay, Job.WithApp, Job.WithSkeleton, Job.CanMake, Job.Prepared, Job.CanPackage, AllConfined;
    var d := job.contentsDir;
    assert q[|d|] == n && (d + ["app"])[|d|] == "app";
    assert (d + ["tmp"])[|d|] == "tmp" && (d + ["logs"])[|d|] == "logs";
    assert job.InfoPath()[|d|] == "staging_info.yml";
    AppCopied(job, fs0, start, t, q);
    NothingAt(job, fs0, start, t, n, q);
    BeforeApp(job, job.Replay(start, t), q);
    assert q <= d + [n] <==> q == d + [n];
  }

  lemma InfoArchived(job: Job, fs0: FS, start: FS, t: seq<Event>)
    requires Completed(job, fs0, start, t)
    ensures var rel := job.Replay(start, t);
            At(job.Droplet(rel), ["staging_info.yml"]) == Some(File(job.env.codecs.encodeInfo(job.Info(rel))))
  {
    hide Job.Replay, Job.WithApp, Job.WithSkeleton, Job.CanMake, Job.Prepared, Job.CanPackage, AllConfined, Job.Info;
    var rel, d := job.Replay(start, t), job.contentsDir;
    SnapshotAt(job.WithApp(rel), d);
    assert job.InfoPath()[|d|] == "staging_info.yml" && (d + ["app"])[|d|] == "app";
    AppCopied(job, fs0, start, t, job.InfoPath());
    BeforeApp(job, rel, job.InfoPath());
    assert At(job.Droplet(rel), ["staging_info.yml"]) == At(job.WithApp(rel), d + ["staging_info.yml"]);
  }

  /** The three output files are in place when the build ends. */
  lemma OutputsInPlace(job: Job, rel: Phase)
    requires rel.Released? && Separate(job.config.places, job.contentsDir)
    ensures var c, codecs := job.config.places, job.env.codecs;
            && At(job.Packaged(rel), c.outputDroplet) == Some(File(codecs.tar(job.Droplet(rel))))
            && At(job.Packaged(rel), c.outputCache) == Some(File(codecs.tar(job.OutputCache(rel))))
            && At(job.Packaged(rel), c.outputMetadata) == Some(File(codecs.encodeResult(job.Result(rel))))
  {
    hide Job.Result, Job.Info, Job.Droplet, Job.OutputCache, Job.WithApp, Mkdirs;
    var c := job.config.places;
    var packed := job.WithApp(rel)[c.outputDroplet := File(job.env.codecs.tar(job.Droplet(rel)))];
    MkdirsAt(packed, Parent(c.outputCache));
    ResultKept(job, rel);
    assert c.outputDroplet != c.outputCache && c.outputDroplet != c.outputMetadata;
    assert c.outputMetadata != c.outputCache;
    assert At(packed, c.outputMetadata) == At(job.WithApp(rel), c.outputMetadata);
    assert At(packed, c.outputDroplet) == Some(File(job.env.codecs.tar(job.Droplet(rel))));
    assert At(job.WithDroplet(rel), c.outputDroplet) == At(packed, c.outputDroplet);
  }

  /** Packaging leaves result.json alone once it is written. */
  lemma ResultKept(job: Job, rel: Phase)
    requires rel.Released? && Separate(job.config.places, job.contentsDir)
    ensures At(job.WithApp(rel), job.config.places.outputMetadata)
         == Some(File(job.env.codecs.encodeResult(job.Result(rel))))
  {
    hide Job.Result, Job.Info, MkAll;
    var d, c := job.contentsDir, job.config.places;
    var dirs := [d + ["tmp"], d + ["logs"]];
    MkAllAt(job.WithResult(rel), dirs, c.outputMetadata);
    CopyKeeps(job, rel, c.outputMetadata);
  }

  /** Copying the app writes only in the contents directory. */
  lemma CopyKeeps(job: Job, rel: Phase, q: Path)
    requires rel.Released? && !(job.contentsDir <= q)
    ensures At(job.WithApp(rel), q) == At(job.WithSkeleton(rel), q)
  {
    hide Job.WithSkeleton, Snapshot;
    var fs, build := job.WithSkeleton(rel), job.config.places.buildDir;
    var target := CopyTarget(fs, build, job.contentsDir + ["app"]);
    PlacedAt(fs, target, Snapshot(fs, build));
    assert job.contentsDir <= target;
  }
}
