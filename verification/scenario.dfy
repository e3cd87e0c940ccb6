/** Builds that complete, in chains of any length: what the theorems about builds assume can be met
    together, whatever the formats and digests are. */
module Scenario {
  import opened Prelude
  import opened Decimal
  import opened FileSystem
  import opened Configuration
  import opened World
  import opened Protocol
  import opened Running
  import opened Frames
  import opened Layout
  import opened CacheChain

  /** A machine without faults, whose scripts succeed and change nothing. */
  function Machine(c: Codecs): Env {
    Env(c, (_, _, fs) => Outcome(true, "", fs), _ => None, _ => false, [], _ => "contents", true, true,
        _ => None, (_, _, _) => None, (_, _) => None, (_, _, fs) => Outcome(true, "", fs))
  }

  const PLACES := Places(["app"], ["packs"], ["droplet"], ["archive"], ["result"], ["cache"])

  /** One supply buildpack, and a final one that has no finalize script and so compiles. */
  function TheJob(c: Codecs): Job {
    Job(Machine(c), Settings(PLACES, ["lib", "only"], true), ["contents"])
  }

  /** All that is asked of the formats: silence is a usable release. */
  ghost predicate Usable(c: Codecs) {
    SaneLog10(c.log10) && c.release("").Some?
  }

  /** The names that depend on digests and logarithms. */
  datatype Labels = Labels(lib: string, only: string, first: string, last: string) {
    ghost predicate Fit() {
      |lib| == 32 && |only| == 32 && first != last
    }
  }

  function LabelsFor(c: Codecs): Labels {
    var job := TheJob(c);
    Labels(job.Hash("lib"), job.Hash("only"), job.DepsIndex(0), job.DepsIndex(1))
  }

  /** Before the build: two buildpacks, and a cache directory that holds something. */
  function Before(n: Labels): set<Path> {
    {[], ["app"], ["packs"], ["packs", n.lib], ["packs", n.lib, "bin"], ["packs", n.lib, "bin", "supply"],
     ["packs", n.only], ["packs", n.only, "bin"],
     ["cache"], ["cache", "final"], ["cache", n.lib], ["cache", n.lib, "gems"]}
  }

  function Furniture(n: Labels): set<Path> {
    {["contents"], ["contents", "deps"], ["contents", "deps", n.first], ["contents", "deps", n.last],
     ["contents", "profile.d"]}
  }

  /** What the supply script finds, and what the compile script finds. */
  function Ready(n: Labels): set<Path> {
    Before(n) + Furniture(n)
  }

  function Compiled(n: Labels): set<Path> {
    Ready(n) - {["contents", "deps", n.last]}
  }

  function Dirs(ps: set<Path>): (fs: FS)
    ensures forall q :: At(fs, q) == if q in ps then Some(Dir) else None
  {
    map p | p in ps :: Dir
  }

  // ----- Sets of directories

  lemma SameDirs(fs: FS, ps: set<Path>)
    requires forall q :: At(fs, q) == if q in ps then Some(Dir) else None
    ensures fs == Dirs(ps)
  {
    SameAt(fs, Dirs(ps));
  }

  lemma DirsMade(a: set<Path>, ps: seq<Path>, b: set<Path>)
    requires a <= b
    requires forall i, q :: 0 <= i < |ps| && q <= ps[i] ==> q in b
    requires forall q :: q in b && q !in a ==> exists i :: 0 <= i < |ps| && q <= ps[i]
    ensures MkAll(Dirs(a), ps) == Dirs(b) && CanMkAll(Dirs(a), ps)
  {
    hide Dirs, MkAll;
    forall q
      ensures At(MkAll(Dirs(a), ps), q) == if q in b then Some(Dir) else None
    {
      MkAllAt(Dirs(a), ps, q);
      assert q in Dirs(a) <==> At(Dirs(a), q).Some?;
    }
    SameDirs(MkAll(Dirs(a), ps), b);
    CanMakeDirs(a, ps);
  }

  lemma {:induction false} CanMakeDirs(a: set<Path>, ps: seq<Path>)
    ensures CanMkAll(Dirs(a), ps)
  {
    hide Mkdirs, Dirs;
    if ps != [] {
      var front := ps[..|ps| - 1];
      CanMakeDirs(a, front);
      forall q | q in MkAll(Dirs(a), front)
        ensures MkAll(Dirs(a), front)[q].Dir?
      {
        MkAllAt(Dirs(a), front, q);
        assert At(MkAll(Dirs(a), front), q).Some? && (q in Dirs(a) ==> At(Dirs(a), q).Some?);
      }
    }
  }

  lemma Above(p: Path, q: Path)
    requires q <= p && |p| <= 3
    ensures q == [] || q == p || (|p| > 1 && q == [p[0]]) || (|p| > 2 && q == [p[0], p[1]])
  {
  }

  // ----- The job

  lemma Shape(c: Codecs)
    requires Usable(c)
    ensures var job, n := TheJob(c), LabelsFor(c);
            && n.Fit() && job.K() == 1 && job.Supplies() == ["lib"]
            && job.OuterDirs() == [[], [], ["cache", "final"], ["cache", n.lib]]
            && job.InnerDirs() == [["contents", "deps", n.first], ["contents", "deps", n.last],
                                   ["contents", "profile.d"]]
            && job.DepsSubDir(1) == ["contents", "deps", n.last]
            && job.CachePath("lib") == ["cache", n.lib] && job.FinalCache() == ["cache", "final"]
  {
    hide Job.Hash, Job.DepsIndex, SaneLog10;
    var job, n := TheJob(c), LabelsFor(c);
    assert job.Supplies() == ["lib"];
    DepsDistinct(job, 0, 1);
    assert job.CachePath("lib") == ["cache", n.lib] && job.FinalCache() == ["cache", "final"];
    assert job.CachePaths(["lib"]) == [["cache", n.lib]];
    assert Parent(["droplet"]) == [] && Parent(["result"]) == [];
    assert job.DepsDir() == ["contents", "deps"] && job.ProfileDir() == ["contents", "profile.d"];
    assert job.DepsSubDir(0) == ["contents", "deps", n.first] && job.DepsSubDir(1) == ["contents", "deps", n.last];
    assert job.DepsDirs(2) == [job.DepsSubDir(0), job.DepsSubDir(1)];
  }

  lemma OutersThere(n: Labels)
    ensures var outer := [[], [], ["cache", "final"], ["cache", n.lib]];
            MkAll(Dirs(Before(n)), outer) == Dirs(Before(n)) && CanMkAll(Dirs(Before(n)), outer)
  {
    hide MkAll, CanMkAll, Dirs;
    var outer := [[], [], ["cache", "final"], ["cache", n.lib]];
    forall i, q | 0 <= i < |outer| && q <= outer[i]
      ensures q in Before(n)
    {
      Above(outer[i], q);
    }
    DirsMade(Before(n), outer, Before(n));
  }

  lemma InnersMade(n: Labels)
    ensures var inner := [["contents", "deps", n.first], ["contents", "deps", n.last], ["contents", "profile.d"]];
            && CanMkAll(Dirs(Before(n))[["contents"] := Dir], inner)
            && MkAll(Dirs(Before(n))[["contents"] := Dir], inner) == Dirs(Ready(n))
  {
    hide MkAll, CanMkAll, Dirs;
    var inner := [["contents", "deps", n.first], ["contents", "deps", n.last], ["contents", "profile.d"]];
    var a := Before(n) + {["contents"]};
    SameDirs(Dirs(Before(n))[["contents"] := Dir], a);
    forall i, q | 0 <= i < |inner| && q <= inner[i]
      ensures q in Ready(n)
    {
      Above(inner[i], q);
    }
    forall q | q in Ready(n) && q !in a
      ensures exists i :: 0 <= i < |inner| && q <= inner[i]
    {
      assert ["contents", "deps"] <= inner[0];
      assert q <= inner[0] || q <= inner[1] || q <= inner[2];
    }
    DirsMade(a, inner, Ready(n));
  }

  lemma NothingSwept(n: Labels)
    ensures Swept(Dirs(Ready(n)), ["cache"], {["cache", "final"], ["cache", n.lib]}) == Dirs(Ready(n))
  {
    hide Dirs;
    var fs, keep := Dirs(Ready(n)), {["cache", "final"], ["cache", n.lib]};
    SweptAt(fs, ["cache"], keep);
    forall q
      ensures At(Swept(fs, ["cache"], keep), q) == At(fs, q)
    {
      if ["cache"] < q && q[..2] in fs {
        assert At(fs, q[..2]).Some? && q[..2][0] == "cache" && q[..2] in Ready(n);
        assert q[..2] in keep;
      }
    }
    SameAt(Swept(fs, ["cache"], keep), fs);
  }

  lemma Separated()
    ensures Separate(PLACES, ["contents"])
  {
    hide Apart;
    forall a: string, b: string | a != b
      ensures Apart([a], [b])
    {
      assert Apart([a], [b]) by { TopsApart(a, b); }
    }
  }

  lemma TopsApart(a: string, b: string)
    requires a != b
    ensures Apart([a], [b])
  {
    assert [a][0] != [b][0];
  }

  lemma BeginsSetUp(c: Codecs)
    requires Usable(c)
    ensures SetUp(TheJob(c), Dirs(Before(LabelsFor(c))), Dirs(Ready(LabelsFor(c))))
  {
    hide Dirs, MkAll, CanMkAll, Job.OuterDirs, Job.InnerDirs, Swept, Job.Hash, Job.DepsIndex, Separate, Usable;
    var job, n := TheJob(c), LabelsFor(c);
    var fs0 := Dirs(Before(n));
    Shape(c);
    Separated();
    OutersThere(n);
    InnersMade(n);
    NothingSwept(n);
    assert job.NeededCache() == {["cache", "final"], ["cache", n.lib]};
    assert CanTempDir(job.env, fs0, ["contents"]) by {
      assert At(fs0, []) == Some(Dir);
      forall q | q in fs0
        ensures !(["contents"] <= q)
      {
        assert At(fs0, q).Some? && q in Before(n);
        assert q != [] ==> q[0] != "contents";
      }
    }
  }

  lemma BeginsRooted(n: Labels)
    ensures Rooted(Dirs(Before(n)))
  {
    hide Dirs;
    var fs0 := Dirs(Before(n));
    forall p, i | p in fs0 && 0 <= i <= |p|
      ensures p[..i] in fs0
    {
      assert At(fs0, p).Some? && p in Before(n);
      if |p| <= 3 {
        Above(p, p[..i]);
      } else {
        assert p == ["packs", n.lib, "bin", "supply"];
        assert p[..1] == ["packs"] && p[..2] == ["packs", n.lib] && p[..3] == ["packs", n.lib, "bin"];
        assert p[..0] == [] && p[..4] == p;
      }
      assert At(fs0, p[..i]).Some?;
    }
  }

  // ----- The scripts

  function Trace(c: Codecs): seq<Event> {
    var job, n := TheJob(c), LabelsFor(c);
    var ready, compiled := Dirs(Ready(n)), Dirs(Compiled(n));
    [Event(job.SupplyCall(["packs", n.lib], job.CachePath("lib"), 0), ready, true, "", ready),
     Event(job.CompileCall(["packs", n.only]), compiled, true, "", compiled),
     Event(Release(["packs", n.only], ["app"]), compiled, true, "", compiled)]
  }

  function Finished(c: Codecs): Phase
    requires c.release("").Some?
  {
    var n := LabelsFor(c);
    Released(["packs", n.only], TheJob(c).Metadata(Dirs(Compiled(n)), ["lib", "only"]), false, Dirs(Compiled(n)),
             c.release("").value, Dirs(Compiled(n)))
  }

  /** The file systems between the scripts hold directories only. */
  lemma Stats(c: Codecs, ps: set<Path>, q: Path)
    ensures Stat(Machine(c), Dirs(ps), q) == if q in ps then Found else Missing
  {
    hide Dirs;
    forall r | r in Dirs(ps)
      ensures Dirs(ps)[r].Dir?
    {
      assert At(Dirs(ps), r).Some?;
    }
    assert q in Dirs(ps) <==> At(Dirs(ps), q).Some?;
  }

  lemma Resolves(c: Codecs)
    ensures var job, n, fs := TheJob(c), LabelsFor(c), Dirs(Ready(LabelsFor(c)));
            && job.Resolve(fs, "lib") == Some(["packs", n.lib]) && job.Resolve(fs, "only") == Some(["packs", n.only])
            && job.Script(fs, ["packs", n.lib], "supply") == Found
            && job.Script(fs, ["packs", n.only], "finalize") == Missing
  {
    hide Dirs, Stat, Job.Hash, Job.DepsIndex, ReadDir, Ready;
    var job, n := TheJob(c), LabelsFor(c);
    var lib: Path, only: Path := ["packs", n.lib], ["packs", n.only];
    assert PLACES.buildpacksDir + [n.lib] == lib && PLACES.buildpacksDir + [n.only] == only;
    InReady(n);
    Stats(c, Ready(n), lib + ["bin"]);
    Stats(c, Ready(n), only + ["bin"]);
    Stats(c, Ready(n), lib + ["bin", "supply"]);
    Stats(c, Ready(n), only + ["bin", "finalize"]);
  }

  lemma InReady(n: Labels)
    ensures ["packs", n.lib] + ["bin"] in Ready(n) && ["packs", n.only] + ["bin"] in Ready(n)
    ensures ["packs", n.lib] + ["bin", "supply"] in Ready(n) && ["packs", n.only] + ["bin", "finalize"] !in Ready(n)
  {
    assert ["packs", n.lib] + ["bin"] == ["packs", n.lib, "bin"];
    assert ["packs", n.only] + ["bin"] == ["packs", n.only, "bin"];
    assert ["packs", n.lib] + ["bin", "supply"] == ["packs", n.lib, "bin", "supply"];
    assert (["packs", n.only] + ["bin", "finalize"])[3] == "finalize";
  }

  lemma DepsRemoved(n: Labels)
    requires n.Fit()
    ensures Pruned(Dirs(Ready(n)), ["contents", "deps", n.last]) == Dirs(Compiled(n))
  {
    hide Dirs, Pruned;
    var fs, last := Dirs(Ready(n)), ["contents", "deps", n.last];
    PrunedAt(fs, last);
    forall q
      ensures At(Pruned(fs, last), q) == if q in Compiled(n) then Some(Dir) else None
    {
      if last <= q && q in Ready(n) {
        assert q[0] == "contents" && q[1] == "deps" && q[2] == n.last;
      }
    }
    SameDirs(Pruned(fs, last), Compiled(n));
  }

  lemma NoProcfile(c: Codecs)
    ensures TheJob(c).Procfile(Dirs(Compiled(LabelsFor(c)))) == Some(map[])
  {
    hide Dirs, Stat, Job.DepsIndex, Job.Hash;
    var q: Path := ["app"] + ["Procfile"];
    assert q[0] == "app" && |q| == 2;
    Stats(c, Compiled(LabelsFor(c)), q);
  }

  lemma Starts(c: Codecs)
    requires Usable(c)
    ensures TheJob(c).Replay(Dirs(Ready(LabelsFor(c))), []) == Supplying(0, Dirs(Ready(LabelsFor(c))))
  {
    hide Dirs, Stat, Job.Hash, Job.DepsIndex, Job.Resolve, Job.Script;
    Shape(c);
    Resolves(c);
  }

  lemma SuppliesLib(c: Codecs)
    requires Usable(c)
    ensures TheJob(c).Step(Supplying(0, Dirs(Ready(LabelsFor(c)))), Trace(c)[0])
            == Supplying(1, Dirs(Ready(LabelsFor(c))))
  {
    hide Dirs, Job.Hash, Job.DepsIndex, Job.Resolve, Job.Script, Usable;
    Shape(c);
    Resolves(c);
  }

  lemma Compiles(c: Codecs)
    requires Usable(c)
    ensures var n := LabelsFor(c);
            TheJob(c).Step(Supplying(1, Dirs(Ready(n))), Trace(c)[1])
            == Built(["packs", n.only], TheJob(c).Metadata(Dirs(Compiled(n)), ["lib", "only"]), false,
                     Dirs(Compiled(n)))
  {
    hide Dirs, Job.Hash, Job.DepsIndex, Job.Resolve, Job.Script, Job.Metadata, Usable, Pruned;
    Shape(c);
    Resolves(c);
    DepsRemoved(LabelsFor(c));
  }

  lemma Releases(c: Codecs)
    requires Usable(c)
    ensures var n := LabelsFor(c);
            TheJob(c).Step(Built(["packs", n.only], TheJob(c).Metadata(Dirs(Compiled(n)), ["lib", "only"]), false,
                                 Dirs(Compiled(n))), Trace(c)[2])
            == Finished(c)
  {
    hide Dirs, Job.Metadata, Job.Procfile, Job.Resolve, Job.Hash, Job.DepsIndex;
    NoProcfile(c);
  }

  lemma Replays(c: Codecs)
    requires Usable(c)
    ensures TheJob(c).Replay(Dirs(Ready(LabelsFor(c))), Trace(c)) == Finished(c)
  {
    hide Job.Replay, Job.Step, Finished, Dirs, LabelsFor, Usable;
    var job, start, t := TheJob(c), Dirs(Ready(LabelsFor(c))), Trace(c);
    Starts(c);
    job.ReplaySnoc(start, [], t[0]);
    job.ReplaySnoc(start, [t[0]], t[1]);
    job.ReplaySnoc(start, [t[0], t[1]], t[2]);
    assert [] + [t[0]] == [t[0]] && [t[0]] + [t[1]] == [t[0], t[1]] && [t[0], t[1]] + [t[2]] == t;
    SuppliesLib(c);
    Compiles(c);
    Releases(c);
  }

  // ----- Packaging

  const CONTENTS: Path := ["contents"]
  const INFO: Path := CONTENTS + ["staging_info.yml"]
  const TMP: Path := CONTENTS + ["tmp"]
  const LOGS: Path := CONTENTS + ["logs"]
  const APP: Path := CONTENTS + ["app"]

  lemma BuiltAt(n: Labels, q: Path)
    ensures q in {[], CONTENTS, ["app"], ["cache"]} ==> q in Compiled(n)
    ensures q in {["result"], ["droplet"], ["archive"], TMP, LOGS, INFO} || APP <= q || ["app"] < q ==>
              q !in Compiled(n)
  {
    if APP <= q {
      assert q[0] == "contents" && q[1] == "app";
    }
    if ["app"] < q {
      assert q[0] == "app";
    }
    assert INFO[1] == "staging_info.yml" && TMP[1] == "tmp" && LOGS[1] == "logs";
  }

  /** The file system with the staging info and the result in it, and then the empty directories. */
  function Written(n: Labels, info: Bytes, result: Bytes): FS {
    Dirs(Compiled(n))[INFO := File(info)][["result"] := File(result)]
  }

  lemma SkeletonAt(n: Labels, info: Bytes, result: Bytes, q: Path)
    ensures At(MkAll(Written(n, info, result), [TMP, LOGS]), q)
            == if q == INFO then Some(File(info)) else if q == ["result"] then Some(File(result))
               else if q == TMP || q == LOGS || q in Compiled(n) then Some(Dir) else None
  {
    hide MkAll, Dirs, Compiled;
    MkAllAt(Written(n, info, result), [TMP, LOGS], q);
    if q <= TMP {
      Above(TMP, q);
    }
    if q <= LOGS {
      Above(LOGS, q);
    }
    BuiltAt(n, []);
    BuiltAt(n, CONTENTS);
    BuiltAt(n, q);
    assert [TMP, LOGS][0] <= TMP && [TMP, LOGS][1] <= LOGS;
    assert At(Dirs(Compiled(n)), q).Some? <==> q in Compiled(n);
  }

  lemma CanSkeleton(n: Labels, info: Bytes, result: Bytes)
    ensures CanWrite(Dirs(Compiled(n)), INFO) && CanWrite(Dirs(Compiled(n))[INFO := File(info)], ["result"])
    ensures CanMkAll(Written(n, info, result), [TMP, LOGS])
  {
    hide Dirs, Compiled, Mkdirs, CanMkdirs;
    BuiltAt(n, []);
    BuiltAt(n, CONTENTS);
    BuiltAt(n, INFO);
    BuiltAt(n, ["result"]);
    assert Parent(INFO) == CONTENTS && Parent(["result"]) == [];
    var fs := Written(n, info, result);
    CanMake(n, info, result, TMP, fs);
    MkdirsAt(fs, TMP);
    CanMake(n, info, result, LOGS, Mkdirs(fs, TMP));
    MkAllSnoc(fs, [], TMP);
    MkAllSnoc(fs, [TMP], LOGS);
    assert [] + [TMP] == [TMP] && [TMP] + [LOGS] == [TMP, LOGS];
  }

  lemma CanMake(n: Labels, info: Bytes, result: Bytes, p: Path, fs: FS)
    requires p == TMP || p == LOGS
    requires forall q :: At(fs, q) == At(Written(n, info, result), q) || At(fs, q) == Some(Dir)
    ensures CanMkdirs(fs, p)
  {
    hide Dirs, Compiled;
    forall q | q in Prefixes(p) && q in fs
      ensures fs[q].Dir?
    {
      Above(p, q);
      BuiltAt(n, q);
      assert q == [] || q == CONTENTS || q == p;
      assert INFO[1] == "staging_info.yml" && TMP[1] == "tmp" && LOGS[1] == "logs";
      assert q != INFO && q != ["result"];
      assert At(Written(n, info, result), q) == At(Dirs(Compiled(n)), q);
      assert At(fs, q) == Some(fs[q]);
    }
  }

  /** The build directory is empty, so copying it makes one directory. */
  lemma CopiesApp(n: Labels, info: Bytes, result: Bytes)
    ensures var fs := MkAll(Written(n, info, result), [TMP, LOGS]);
            CanCopy(fs, ["app"], APP) && Copied(fs, ["app"], APP) == fs[APP := Dir]
  {
    hide Dirs, MkAll, Written, Snapshot, Placed, Compiled;
    var fs := MkAll(Written(n, info, result), [TMP, LOGS]);
    SnapshotAt(fs, ["app"]);
    forall r
      ensures At(Snapshot(fs, ["app"]), r) == if r == [] then Some(Dir) else None
    {
      var q: Path := ["app"] + r;
      SkeletonAt(n, info, result, q);
      BuiltAt(n, q);
      assert q[0] == "app" && (r != [] ==> ["app"] < q) && (r == [] ==> q == ["app"]);
    }
    SameAt(Snapshot(fs, ["app"]), map[[] := Dir]);
    SkeletonAt(n, info, result, ["app"]);
    SkeletonAt(n, info, result, CONTENTS);
    SkeletonAt(n, info, result, APP);
    BuiltAt(n, ["app"]);
    BuiltAt(n, CONTENTS);
    BuiltAt(n, APP);
    assert INFO[1] == "staging_info.yml" && TMP[1] == "tmp" && LOGS[1] == "logs" && APP[1] == "app";
    assert APP + [] == APP && Parent(APP) == CONTENTS;
    PlacedAt(fs, APP, map[[] := Dir]);
    forall q
      ensures At(Placed(fs, APP, map[[] := Dir]), q) == At(fs[APP := Dir], q)
    {
      assert APP <= q && q[|APP|..] == [] ==> q == APP;
    }
    SameAt(Placed(fs, APP, map[[] := Dir]), fs[APP := Dir]);
  }

  /** Both archives go to the root directory. */
  lemma Archives(n: Labels, info: Bytes, result: Bytes, droplet: Bytes)
    ensures var fs := MkAll(Written(n, info, result), [TMP, LOGS])[APP := Dir];
            var packed := fs[["droplet"] := File(droplet)];
            && CanTar(fs, CONTENTS, ["droplet"]) && CanMkdirs(packed, [])
            && CanTar(Mkdirs(packed, []), ["cache"], ["archive"])
  {
    hide Dirs, MkAll, Written, Compiled, Mkdirs;
    var skeleton := MkAll(Written(n, info, result), [TMP, LOGS]);
    var fs := skeleton[APP := Dir];
    SkeletonAt(n, info, result, []);
    SkeletonAt(n, info, result, CONTENTS);
    SkeletonAt(n, info, result, ["cache"]);
    SkeletonAt(n, info, result, ["droplet"]);
    SkeletonAt(n, info, result, ["archive"]);
    BuiltAt(n, []);
    BuiltAt(n, CONTENTS);
    BuiltAt(n, ["cache"]);
    BuiltAt(n, ["droplet"]);
    BuiltAt(n, ["archive"]);
    MkdirsAt(fs[["droplet"] := File(droplet)], []);
    assert At(fs[["droplet"] := File(droplet)], []) == Some(Dir);
    assert Parent(["droplet"]) == [] && Parent(["archive"]) == [];
  }

  lemma Packages(c: Codecs)
    requires Usable(c)
    ensures TheJob(c).CanPackage(Finished(c))
  {
    hide Dirs, LabelsFor, Compiled, Snapshot, CanMkAll, CanCopy, MkAll, Mkdirs, Copied, CanTar, CanWrite, CanMkdirs;
    hide Job.Info, Job.Result, Job.Metadata;
    var job, rel, n := TheJob(c), Finished(c), LabelsFor(c);
    var info, result := c.encodeInfo(job.Info(rel)), c.encodeResult(job.Result(rel));
    assert job.InfoPath() == INFO && Parent(["archive"]) == [];
    CanSkeleton(n, info, result);
    CopiesApp(n, info, result);
    Archives(n, info, result, c.tar(job.Droplet(rel)));
  }

  // ----- The assumptions together

  function TheBuild(c: Codecs): Build {
    Build(TheJob(c), Dirs(Before(LabelsFor(c))), Dirs(Ready(LabelsFor(c))), Trace(c))
  }

  /** Whatever the formats are, on this machine what the theorems assume of a build holds, its scripts
      are the machine's, and it completes. */
  lemma ABuildCompletes(c: Codecs)
    requires Usable(c)
    ensures Done(TheBuild(c)) && Quiet(Machine(c)) && ConfinedScripts(Machine(c))
    ensures forall i :: 0 <= i < |Trace(c)| ==> Genuine(Machine(c), Trace(c)[i])
  {
    hide Dirs, LabelsFor, SetUp, Rooted, Job.CanPackage, Job.Replay, SaneLog10, MayTouch, Finished;
    BeginsSetUp(c);
    BeginsRooted(LabelsFor(c));
    Replays(c);
    Packages(c);
    Finishes(c);
    forall i | 0 <= i < |Trace(c)|
      ensures Genuine(Machine(c), Trace(c)[i])
    {
      var e := Trace(c)[i];
      assert Machine(c).script(0, e.inv, e.before) == Outcome(e.ok, e.output, e.after);
    }
  }

  lemma Finishes(c: Codecs)
    requires Usable(c)
    ensures Finished(c).Released?
  {
  }

  /** The build hands on the cache it was given. */
  lemma SameCache(n: Labels, r: Path)
    ensures At(Dirs(Compiled(n)), ["cache"] + r) == At(Dirs(Before(n)), ["cache"] + r)
  {
    hide Dirs;
    assert (["cache"] + r)[0] == "cache";
  }

  lemma CacheGoesRound(c: Codecs, r: Path)
    requires Usable(c) && Done(TheBuild(c))
    ensures At(RoundOf(TheBuild(c)).out, r) == At(CacheBefore(TheBuild(c)), r)
                                            == At(Dirs(Before(LabelsFor(c))), ["cache"] + r)
  {
    hide Dirs, LabelsFor, SetUp, Rooted, Job.CanPackage, Job.Replay, SaneLog10, Job.OutputCache, Snapshot;
    Separated();
    Replays(c);
    SnapshotAt(Dirs(Before(LabelsFor(c))), ["cache"]);
    CacheArchived(TheJob(c), Finished(c), r);
    SameCache(LabelsFor(c), r);
  }

  /** The supply buildpack's cache directory is in the cache, with what it holds. */
  lemma GemsLeftAlone(c: Codecs)
    requires Usable(c) && Done(TheBuild(c))
    ensures var b, h := TheBuild(c), TheJob(c).Hash("lib");
            && LeftAlone(RoundOf(b), h, ["gems"]) && At(RoundOf(b).out, [h] + ["gems"]) == Some(Dir)
            && b.job.Hash("lib") == h && NoCollision(b.job, "lib") && "lib" in b.job.Supplies()
  {
    hide Dirs, SetUp, Rooted, Job.CanPackage, Job.Replay, SaneLog10, Job.OutputCache, Snapshot, Job.Hash, Job.DepsIndex;
    var n, b := LabelsFor(c), TheBuild(c);
    var r := [n.lib] + ["gems"];
    Shape(c);
    CacheGoesRound(c, r);
    SnapshotAt(b.start, ["cache"]);
    assert ["cache"] + r == ["cache", n.lib, "gems"];
  }

  /** Chains of completed builds exist at every length, and what the supply buildpack has in its
      cache directory survives them. */
  lemma BuildsChain(c: Codecs, n: nat) returns (builds: seq<Build>)
    requires Usable(c) && n > 0
    ensures Chain(builds) && |builds| == n
    ensures var h := TheJob(c).Hash("lib");
            At(RoundOf(builds[n - 1]).out, [h, "gems"]) == At(RoundOf(builds[0]).out, [h, "gems"]) == Some(Dir)
  {
    hide Dirs, Done, RoundOf, CacheBefore, TheBuild, Job.Hash;
    builds := seq(n, _ => TheBuild(c));
    ABuildCompletes(c);
    forall r
      ensures At(RoundOf(TheBuild(c)).out, r) == At(CacheBefore(TheBuild(c)), r)
    {
      CacheGoesRound(c, r);
    }
    var h := TheJob(c).Hash("lib");
    GemsLeftAlone(c);
    CacheSurvives(builds, 0, n - 1, "lib", h, ["gems"]);
    assert [h] + ["gems"] == [h, "gems"];
  }
}
