/** From process to process: what the downloader provides is what the executor builds from, and the
    cache one build hands on is the cache the next one starts with. */
module Pipeline {
  import opened Prelude
  import opened Decimal
  import opened FileSystem
  import opened Configuration
  import opened World
  import opened Protocol
  import opened Frames
  import opened Unzip
  import opened Checksum
  import opened PackageInstalling
  import opened Buildpacks
  import opened InstalledBuildpacks
  import opened Lookups
  import opened CacheChain
  import opened Droplets
  import opened Downloader
  import opened Executor

  // ----- From the downloader's end to the build's start

  /** The build directory holds the entries of the zip that was downloaded, and nothing else. */
  ghost predicate AppUnzipped(env: Env, zip: Bytes, buildDir: Path, fs: FS) {
    && env.codecs.unzip(zip).Some? && At(fs, buildDir) == Some(Dir)
    && Landed(buildDir, env.codecs.unzip(zip).value, fs)
    && forall q :: buildDir < q ==> At(fs, q) == Laid(buildDir, env.codecs.unzip(zip).value, map[], q)
  }

  lemma AppFromBits(env: Env, downloadDir: Path, fs0: FS, buildDir: Path, fs1: FS, zip: Bytes)
    requires BitsExtracted(env, downloadDir, fs0, buildDir, fs1)
    requires At(fs0, downloadDir + [APP_BITS]) == Some(File(zip)) && env.TempApart(downloadDir + [APP_BITS])
    ensures AppUnzipped(env, zip, buildDir, fs1)
  {
    hide AppliedAll, CanApplyAll, LastFile, NeedsDir;
    var made, q := fs0[buildDir := Dir], downloadDir + [APP_BITS];
    var tick :| buildDir == env.TempPath(tick);
    assert Apart(env.TempPath(tick), q);
    assert At(made, q) == Some(File(zip));
    var entries := Entries(env, made, q).value;
    assert env.codecs.unzip(zip) == Some(entries);
    DirsStay(made, buildDir, entries, TEN_GB, buildDir);
    AllLanded(made, buildDir, entries, TEN_GB);
    forall p | buildDir < p
      ensures At(fs1, p) == Laid(buildDir, entries, map[], p)
    {
      ExtractedAt(made, buildDir, entries, TEN_GB, p);
      assert p !in fs0;
    }
  }

  /** The executor builds the app that was downloaded, from the buildpacks that were installed. */
  lemma BuildsWhatWasProvided<S(!new)>(env: Env, setup: Setup<S>, fs: FS, next: Env, downloadDir: Path, a: Account)
    requires AppBitsThere(env, setup, fs) && setup.workspaceDir == downloadDir && env.codecs == next.codecs
    requires BitsExtracted(next, downloadDir, fs, a.job.config.places.buildDir, a.fs0)
    requires next.TempApart(setup.AppBits()) && next.TempApart(setup.buildpacksDir) && TameZips(next.codecs)
    ensures exists tick :: GoodResponse<S>(None, env.get(tick, setup.appBitsURL)) &&
              AppUnzipped(next, Flatten(env.get(tick, setup.appBitsURL).value.body.chunks),
                          a.job.config.places.buildDir, a.fs0)
    ensures SameFrom(setup.buildpacksDir, fs, a.fs0)
  {
    hide BitsExtracted, AppUnzipped, GoodBody, Flatten, Env.TempApart;
    var tick :| GoodResponse<S>(None, env.get(tick, setup.appBitsURL)) &&
      At(fs, setup.AppBits()) == Some(File(Flatten(env.get(tick, setup.appBitsURL).value.body.chunks)));
    AppFromBits(next, downloadDir, fs, a.job.config.places.buildDir, a.fs0,
                Flatten(env.get(tick, setup.appBitsURL).value.body.chunks));
    forall q | setup.buildpacksDir <= q
      ensures At(a.fs0, q) == At(fs, q)
    {
      TempApartWithin(next, setup.buildpacksDir, q);
      ExtractionKeeps(next, downloadDir, fs, a.job.config.places.buildDir, a.fs0, q);
    }
  }

  /** Where the executor looks for a buildpack is where the downloader put it: in the directory named by
      the md5 sum of its name, the entries of the zip that was downloaded, or what a clone left. */
  lemma BuildpacksHandedOver<S(!new)>(env: Env, setup: Setup<S>, fs0: FS, fs: FS, downloadDir: Path, a: Account,
                                      i: nat)
    requires BuildpacksThere(env, setup, fs0, fs) && a.job.env.codecs == env.codecs
    requires var bps := env.codecs.buildpacks(setup.buildpacksJSON).value; i < |bps| && DistinctSums(env, bps)
    requires a.job.config.places.buildpacksDir == setup.buildpacksDir
    requires BitsExtracted(a.job.env, downloadDir, fs, a.job.config.places.buildDir, a.fs0)
    requires a.job.env.TempApart(setup.buildpacksDir) && TameZips(env.codecs)
    ensures var bp := env.codecs.buildpacks(setup.buildpacksJSON).value[i];
            var home := a.job.config.places.buildpacksDir + [a.job.Hash(bp.name)];
            InPlace(env, 10_737_418_240, Task(bp.url, if env.hasGit then env.parseUrl(bp.url) else None, home),
                    fs0, a.fs0)
  {
    hide InPlace, BitsExtracted, Env.TempApart, DistinctSums, TameZips;
    var bps := env.codecs.buildpacks(setup.buildpacksJSON).value;
    var task := TaskAt(env, setup.buildpacksDir, bps, i);
    assert setup.buildpacksDir <= task.dest;
    forall q | task.dest <= q
      ensures At(a.fs0, q) == At(fs, q)
    {
      PrefixTrans(setup.buildpacksDir, task.dest, q);
      TempApartWithin(a.job.env, setup.buildpacksDir, q);
      ExtractionKeeps(a.job.env, downloadDir, fs, a.job.config.places.buildDir, a.fs0, q);
    }
    InPlaceStill(env, ZIP_LIMIT, task, fs0, fs0, fs, a.fs0);
    HashIs(a.job, bps[i].name);
  }

  /** The zip has an entry in `bin`. */
  ghost predicate HasBin(entries: seq<ZipEntry>) {
    exists i :: 0 <= i < |entries| && Plain(entries[i].name) && entries[i].name != [] && entries[i].name[0] == "bin"
  }

  /** Everything in the zip is in one top-level directory, and something is in that one's `bin`. */
  ghost predicate Nests(entries: seq<ZipEntry>, n: string) {
    && n != "bin"
    && (forall i :: 0 <= i < |entries| ==>
          && Plain(entries[i].name) && entries[i].name != [] && entries[i].name[0] == n
          && (entries[i].isDir || |entries[i].name| > 1))
    && exists i :: 0 <= i < |entries| && |entries[i].name| > 1 && entries[i].name[1] == "bin"
  }

  /** The executor finds a buildpack that was extracted: in the directory itself if the zip has an entry
      in `bin`, and in the one nested in it if the zip has one top-level directory that holds `bin`. */
  ghost predicate Found(job: Job, fs: FS, name: string, home: Path, entries: seq<ZipEntry>, fs0: FS) {
    && (HasBin(entries) ==> job.Resolve(fs, name) == Some(home))
    && (forall n :: Nests(entries, n) && (forall q :: home < q ==> At(fs0, q) == None) ==>
          job.Resolve(fs, name) == Some(home + [n]))
  }

  lemma ResolvesInstalled(job: Job, env: Env, limit: int, zip: Bytes, fs0: FS, fs: FS, name: string)
    requires var home := job.config.places.buildpacksDir + [job.Hash(name)];
             Filled(env, limit, home, zip, fs0, fs) && forall q :: home <= q ==> !job.env.unreadable(q)
    ensures var home := job.config.places.buildpacksDir + [job.Hash(name)];
            Found(job, fs, name, home, env.codecs.unzip(zip).value, fs0)
  {
    hide Job.Resolve, Job.Hash, Laid, Landed, WithinLimit, HasBin, Nests;
    var home, entries := job.config.places.buildpacksDir + [job.Hash(name)], env.codecs.unzip(zip).value;
    forall q | home < q
      ensures At(fs, q) == Laid(home, entries, fs0, q)
    {
    }
    if HasBin(entries) {
      FoundDirectly(job, fs, name, home, entries, fs0);
    }
    forall n | Nests(entries, n) && (forall q :: home < q ==> At(fs0, q) == None)
      ensures job.Resolve(fs, name) == Some(home + [n])
    {
      FoundNested(job, fs, name, home, entries, fs0, n);
    }
  }

  lemma FoundDirectly(job: Job, fs: FS, name: string, home: Path, entries: seq<ZipEntry>, fs0: FS)
    requires home == job.config.places.buildpacksDir + [job.Hash(name)] && HasBin(entries)
    requires forall q :: home < q ==> At(fs, q) == Laid(home, entries, fs0, q)
    requires forall q :: home <= q ==> !job.env.unreadable(q)
    ensures job.Resolve(fs, name) == Some(home)
  {
    hide Job.Resolve, Job.Hash, Laid, Plain, OnlyEntry;
    ResolveIs(job, fs, name);
    var i :| 0 <= i < |entries| && Plain(entries[i].name) && entries[i].name != [] && entries[i].name[0] == "bin";
    assert ["bin"] <= entries[i].name;
    Reached(home, entries, i, ["bin"], fs0);
    assert home < home + ["bin"];
  }

  lemma FoundNested(job: Job, fs: FS, name: string, home: Path, entries: seq<ZipEntry>, fs0: FS, n: string)
    requires home == job.config.places.buildpacksDir + [job.Hash(name)] && Nests(entries, n)
    requires At(fs, home) == Some(Dir) && forall q :: home < q ==> At(fs, q) == Laid(home, entries, fs0, q)
    requires forall q :: home < q ==> At(fs0, q) == None
    requires forall q :: home <= q ==> !job.env.unreadable(q)
    ensures job.Resolve(fs, name) == Some(home + [n])
  {
    hide Job.Resolve, Job.Hash, Laid, Plain;
    ResolveIs(job, fs, name);
    var i :| 0 <= i < |entries| && |entries[i].name| > 1 && entries[i].name[1] == "bin";
    assert [n] <= entries[i].name && [n, "bin"] <= entries[i].name;
    Reached(home, entries, i, [n], fs0);
    Reached(home, entries, i, [n, "bin"], fs0);
    assert home + [n] + ["bin"] == home + [n, "bin"];
    forall m | m != n
      ensures At(fs, home + [m]) == None
    {
      assert home < home + [m];
      NothingElse(home, entries, n, m, fs0);
    }
    assert home < home + [n] && home < home + [n, "bin"];
    assert OnlyEntry(fs, home, n);
  }

  /** Setting up a build does not touch the buildpacks, if none of the outputs is kept among them. */
  lemma BuildpacksKept(a: Account, downloadDir: Path, fs: FS, places: Places)
    requires Founded(a) && a.ready && Spaced(a.job.env, places)
    requires a.job.config.places == places.(buildDir := a.job.config.places.buildDir)
    requires BitsExtracted(a.job.env, downloadDir, fs, a.job.config.places.buildDir, a.fs0)
    requires Apart(places.buildpacksDir, places.outputDroplet) && Apart(places.buildpacksDir, places.outputMetadata)
    ensures SameFrom(places.buildpacksDir, a.fs0, a.start)
  {
    hide Job.CanFurnish, Job.Prepared, BitsExtracted, Spaced, Job.NeededCache, Job.OuterDirs, NotAbove;
    SpacedSeparate(a, downloadDir, fs, places);
    forall q | places.buildpacksDir <= q
      ensures At(a.start, q) == At(a.fs0, q)
    {
      BuildpacksBeneath(a.job, q);
    }
  }

  lemma BuildpacksBeneath(job: Job, q: Path)
    requires Separate(job.config.places, job.contentsDir) && job.config.places.buildpacksDir <= q
    requires Apart(job.config.places.buildpacksDir, job.config.places.outputDroplet)
    requires Apart(job.config.places.buildpacksDir, job.config.places.outputMetadata)
    ensures Apart(job.contentsDir, q) && NotAbove(job.OuterDirs(), q) && !(job.config.places.cacheDir < q)
  {
    hide Job.Hash;
    var c, dirs := job.config.places, job.OuterDirs();
    ApartAbove(c.buildpacksDir, q, job.contentsDir);
    ApartAbove(c.buildpacksDir, q, c.cacheDir);
    ApartAbove(c.buildpacksDir, q, c.outputDroplet);
    ApartAbove(c.buildpacksDir, q, c.outputMetadata);
    forall i | 0 <= i < |dirs|
      ensures !(q <= dirs[i])
    {
      var d := if i == 0 then c.outputDroplet else if i == 1 then c.outputMetadata else c.cacheDir;
      if i >= 2 {
        assert dirs[i] == if i == 2 then job.FinalCache() else job.CachePath(job.Supplies()[i - 3]);
        ApartNotAbove(d, dirs[i], q);
      } else {
        assert dirs[i] == Parent(d);
        PrefixOfParent(q, d);
      }
    }
  }

  /** The directory is what some clone of this repository left. */
  ghost predicate FromClone(env: Env, url: string, home: Path, fs: FS) {
    && env.hasGit && env.parseUrl(url).Some?
    && exists tick, shallow, before, output, left ::
         env.git(tick, CloneArgs(shallow, env.parseUrl(url).value, home), before) == Outcome(true, output, left) &&
         SameFrom(home, left, fs)
  }

  /** A zip was downloaded from there, and the buildpack in it is found. */
  ghost predicate FoundFromZip(env: Env, url: string, job: Job, fs: FS, name: string, home: Path, fs0: FS) {
    exists tick, internal, zip ::
      && env.fetch(tick, internal, url) == Some(zip) && env.codecs.unzip(zip).Some?
      && Found(job, fs, name, home, env.codecs.unzip(zip).value, fs0)
  }

  lemma InPlaceMeans(env: Env, limit: int, url: string, job: Job, fs: FS, name: string, home: Path, fs0: FS)
    requires home == job.config.places.buildpacksDir + [job.Hash(name)]
    requires InPlace(env, limit, Task(url, if env.hasGit then env.parseUrl(url) else None, home), fs0, fs)
    requires forall q :: home <= q ==> !job.env.unreadable(q)
    ensures FromClone(env, url, home, fs) || FoundFromZip(env, url, job, fs, name, home, fs0)
  {
    hide SameFrom, Found, CloneArgs, Job.Hash;
    if tick, internal, zip :| env.fetch(tick, internal, url) == Some(zip) && Filled(env, limit, home, zip, fs0, fs) {
      ResolvesInstalled(job, env, limit, zip, fs0, fs, name);
    }
  }

  lemma SameSelf(dir: Path, fs: FS)
    ensures SameFrom(dir, fs, fs)
  {
  }

  /** So a buildpack that was downloaded and extracted is found when the build starts. */
  lemma BuildpackFound<S(!new)>(env: Env, setup: Setup<S>, fs0: FS, fs: FS, downloadDir: Path, a: Account,
                                places: Places, i: nat)
    requires BuildpacksThere(env, setup, fs0, fs) && a.job.env.codecs == env.codecs
    requires var bps := env.codecs.buildpacks(setup.buildpacksJSON).value; i < |bps| && DistinctSums(env, bps)
    requires Founded(a) && a.ready && Spaced(a.job.env, places) && places.buildpacksDir == setup.buildpacksDir
    requires a.job.config.places == places.(buildDir := a.job.config.places.buildDir)
    requires BitsExtracted(a.job.env, downloadDir, fs, a.job.config.places.buildDir, a.fs0) && TameZips(env.codecs)
    requires Apart(places.buildpacksDir, places.outputDroplet) && Apart(places.buildpacksDir, places.outputMetadata)
    requires forall q :: places.buildpacksDir <= q ==> !a.job.env.unreadable(q)
    ensures var bp := env.codecs.buildpacks(setup.buildpacksJSON).value[i];
            var home := places.buildpacksDir + [a.job.Hash(bp.name)];
            FromClone(env, bp.url, home, a.start) || FoundFromZip(env, bp.url, a.job, a.start, bp.name, home, fs0)
  {
    hide InPlace, BitsExtracted, DistinctSums, TameZips, Founded, FromClone, FoundFromZip, SameFrom, Job.Hash;
    var bp := env.codecs.buildpacks(setup.buildpacksJSON).value[i];
    var home := places.buildpacksDir + [a.job.Hash(bp.name)];
    var task := Task(bp.url, if env.hasGit then env.parseUrl(bp.url) else None, home);
    BuildpacksHandedOver(env, setup, fs0, fs, downloadDir, a, i);
    BuildpacksKept(a, downloadDir, fs, places);
    SameWithin(places.buildpacksDir, home, a.fs0, a.start);
    SameSelf(home, fs0);
    InPlaceStill(env, 10_737_418_240, task, fs0, fs0, a.fs0, a.start);
    forall q | home <= q
      ensures !a.job.env.unreadable(q)
    {
      PrefixTrans(places.buildpacksDir, home, q);
    }
    InPlaceMeans(env, 10_737_418_240, bp.url, a.job, a.start, bp.name, home, fs0);
  }

  /** What is above a plainly named entry, or at it, is there. */
  lemma Reached(home: Path, entries: seq<ZipEntry>, i: nat, part: Path, fs0: FS)
    requires i < |entries| && Plain(entries[i].name) && part <= entries[i].name && part != []
    ensures Laid(home, entries, fs0, home + part).Some?
  {
    hide Join, Plain, LastFile;
    var name, q := entries[i].name, home + part;
    PlainJoin(home, name);
    if !entries[i].isDir && part == name {
      LastFileSome(home, entries, i, q);
    } else {
      assert q <= if entries[i].isDir then Join(home, name) else Parent(Join(home, name));
      assert NeedsDir(home, entries, q);
    }
  }

  lemma {:induction false} LastFileSome(target: Path, entries: seq<ZipEntry>, i: nat, q: Path)
    requires i < |entries| && !entries[i].isDir && Join(target, entries[i].name) == q
    ensures LastFile(target, entries, q).Some?
  {
    hide Join;
    if i < |entries| - 1 {
      LastFileSome(target, entries[..|entries| - 1], i, q);
    }
  }

  lemma NothingElse(home: Path, entries: seq<ZipEntry>, n: string, m: string, fs0: FS)
    requires Nests(entries, n) && m != n && At(fs0, home + [m]) == None
    ensures Laid(home, entries, fs0, home + [m]) == None
  {
    hide Join, Plain, LastFile;
    var q := home + [m];
    forall i | 0 <= i < |entries|
      ensures !(q <= Join(home, entries[i].name)) && !(q <= Parent(Join(home, entries[i].name)))
    {
      PlainJoin(home, entries[i].name);
      assert (home + entries[i].name)[|home|] == n && q[|home|] == m;
      assert Parent(home + entries[i].name) <= home + entries[i].name;
    }
    NoLastFile(home, entries, q);
  }

  lemma {:induction false} NoLastFile(target: Path, entries: seq<ZipEntry>, q: Path)
    requires forall i :: 0 <= i < |entries| ==> !(q <= Join(target, entries[i].name))
    ensures LastFile(target, entries, q) == None
  {
    hide Join;
    if entries != [] {
      assert forall i :: 0 <= i < |entries| - 1 ==> entries[..|entries| - 1][i] == entries[i];
      NoLastFile(target, entries[..|entries| - 1], q);
    }
  }

  // ----- From one build's end to the next one's start

  /** Whatever acceptable body the cache URI serves is this file. */
  ghost predicate Serves<S(!new)>(env: Env, setup: Setup<S>, file: Option<Entry>) {
    forall tick :: setup.algo.Some? &&
                   GoodResponse(Some((setup.algo.value, setup.checkSum)), env.get(tick, setup.cacheURI)) ==>
      file == Some(File(Flatten(env.get(tick, setup.cacheURI).value.body.chunks)))
  }

  /** On an empty cache volume, restoring the archive a build handed on gives that archive's content,
      and app.zip beside it. */
  lemma RestoredIsUnpacked(env: Env, cacheDir: Path, prev: Tree, fs0: FS, fs: FS)
    requires Restored(env, cacheDir, env.codecs.tar(prev), fs0, fs) && RoundTrips(env.codecs)
    requires forall r :: r != [] ==> At(fs0, cacheDir + r) == None
    ensures Unpacked(prev, Snapshot(fs, cacheDir))
  {
    hide Snapshot;
    SnapshotAt(fs, cacheDir);
    assert env.codecs.untar(env.codecs.tar(prev)) == Some(prev);
    forall n, q | n != "app.zip"
      ensures At(Snapshot(fs, cacheDir), [n] + q) == At(prev, [n] + q)
    {
      var r: Path := [n] + q;
      assert r[0] == n && [APP_BITS][0] == "app.zip";
    }
  }

  /** The next build starts with the cache that was handed on: the archive is downloaded to an empty
      cache volume, verified and unpacked, and the executor leaves it alone until the build starts. */
  lemma CacheHandedOn<S(!new)>(env: Env, setup: Setup<S>, fs0: FS, fs1: FS, prev: Tree,
                               next: Env, downloadDir: Path, a: Account)
    requires CacheThere(env, setup, fs0, fs1) && setup.cacheURI != ""
    requires Serves(env, setup, Some(File(env.codecs.tar(prev))))
    requires RoundTrips(env.codecs) && forall r :: r != [] ==> At(fs0, setup.cacheDir + r) == None
    requires BitsExtracted(next, downloadDir, fs1, a.job.config.places.buildDir, a.fs0)
    requires a.job.config.places.cacheDir == setup.cacheDir && next.TempApart(setup.cacheDir) && TameZips(next.codecs)
    ensures Unpacked(prev, Snapshot(a.fs0, a.job.config.places.cacheDir))
  {
    hide BitsExtracted, Snapshot, GoodBody, Restored, RoundTrips, Env.TempApart, Flatten;
    var tick :| setup.algo.Some? &&
      GoodResponse(Some((setup.algo.value, setup.checkSum)), env.get(tick, setup.cacheURI)) &&
      Restored(env, setup.cacheDir, Flatten(env.get(tick, setup.cacheURI).value.body.chunks), fs0, fs1);
    RestoredIsUnpacked(env, setup.cacheDir, prev, fs0, fs1);
    SnapshotAt(fs1, setup.cacheDir);
    SnapshotAt(a.fs0, setup.cacheDir);
    forall r: Path
      ensures At(Snapshot(a.fs0, setup.cacheDir), r) == At(Snapshot(fs1, setup.cacheDir), r)
    {
      TempApartWithin(next, setup.cacheDir, setup.cacheDir + r);
      ExtractionKeeps(next, downloadDir, fs1, a.job.config.places.buildDir, a.fs0, setup.cacheDir + r);
    }
  }

  lemma RootedMkdirs(fs: FS, p: Path)
    requires Rooted(fs)
    ensures Rooted(Mkdirs(fs, p))
  {
    hide Mkdirs;
    MkdirsAt(fs, p);
    forall q, i | q in Mkdirs(fs, p) && 0 <= i <= |q|
      ensures q[..i] in Mkdirs(fs, p)
    {
      assert At(Mkdirs(fs, p), q).Some?;
      if q !in fs {
        assert q[..i] <= p;
      }
      assert At(Mkdirs(fs, p), q[..i]).Some?;
    }
  }

  lemma RootedWith(fs: FS, p: Path, e: Entry)
    requires Rooted(fs) && (p == [] || p[..|p| - 1] in fs)
    ensures Rooted(fs[p := e])
  {
    forall q, i | q in fs[p := e] && 0 <= i <= |q|
      ensures q[..i] in fs[p := e]
    {
      if q == p {
        assert p[..|p|] == p;
        assert i < |p| ==> p[..i] == p[..|p| - 1][..i];
      }
    }
  }

  lemma {:induction false} RootedApplied(fs: FS, target: Path, entries: seq<ZipEntry>)
    requires Rooted(fs)
    ensures Rooted(AppliedAll(fs, target, entries))
  {
    hide Rooted, Mkdirs;
    if entries != [] {
      var e := entries[|entries| - 1];
      var front := AppliedAll(fs, target, entries[..|entries| - 1]);
      RootedApplied(fs, target, entries[..|entries| - 1]);
      RootedMkdirs(front, if e.isDir then Join(target, e.name) else Parent(Join(target, e.name)));
      if !e.isDir {
        var p := Join(target, e.name);
        MkdirsAt(front, Parent(p));
        assert At(Mkdirs(front, Parent(p)), Parent(p)).Some?;
        RootedWith(Mkdirs(front, Parent(p)), p, File(e.bytes));
      }
    }
  }

  lemma RootedStart(env: Env, downloadDir: Path, fs0: FS, buildDir: Path, fs1: FS)
    requires BitsExtracted(env, downloadDir, fs0, buildDir, fs1) && Rooted(fs0)
    ensures Rooted(fs1)
  {
    hide Rooted, Entries, AppliedAll, CanApplyAll, Fresh;
    assert buildDir[..|buildDir| - 1] == env.tempDir;
    RootedWith(fs0, buildDir, Dir);
    RootedApplied(fs0[buildDir := Dir], buildDir, Entries(env, fs0[buildDir := Dir], downloadDir + ["app.zip"]).value);
  }

  lemma ChainGrows(builds: seq<Build>, b: Build)
    requires Chain(builds) && builds != [] && Done(b)
    requires Unpacked(RoundOf(builds[|builds| - 1]).out, CacheBefore(b))
    ensures Chain(builds + [b])
  {
    hide Done, RoundOf, Unpacked, CacheBefore;
    assert forall i :: 0 <= i < |builds| ==> (builds + [b])[i] == builds[i];
  }

  lemma ArchiveLeft(b: Build, fs: FS)
    requires Done(b) && OutputsReadable(b.job, b.job.Replay(b.start, b.trace), fs)
    ensures At(fs, b.job.config.places.outputCache) == Some(File(b.job.env.codecs.tar(RoundOf(b).out)))
  {
    hide Job.Replay, Completed, Job.OutputCache, Job.Droplet, Rooted;
  }

  /** One turn of the whole pipeline. If the cache archive that the last build's process left is what
      the downloader is served, and downloader and executor both exit with 0, the chain has one more
      build. */
  lemma NextBuild<S(!new)>(builds: seq<Build>, left: FS, env: Env, setup: Setup<S>, fs0: FS, steps: seq<Step>, fs1: FS,
                           downloadDir: Path, places: Places, json: string, a: Account)
    requires Chain(builds) && builds != []
    requires Provisioning(env, setup, Mkdirs(fs0, setup.cacheDir), steps, true, fs1)
    requires PlacesApart(env, setup) && Contained(env) && RoundTrips(env.codecs)
    requires var last := builds[|builds| - 1];
             && OutputsReadable(last.job, last.job.Replay(last.start, last.trace), left)
             && Serves(env, setup, At(left, last.job.config.places.outputCache))
             && last.job.env.codecs == env.codecs && setup.cacheURI != ""
    requires forall r :: r != [] ==> At(fs0, setup.cacheDir + r) == None
    requires ExitTells(a, 0) && Configured(a.job.env.codecs, json, a.job.config)
    requires a.job.config.places == places.(buildDir := a.job.config.places.buildDir)
    requires places.cacheDir == setup.cacheDir
    requires BitsExtracted(a.job.env, downloadDir, fs1, a.job.config.places.buildDir, a.fs0)
    requires Spaced(a.job.env, places) && ConfinedScripts(a.job.env) && SaneLog10(a.job.env.codecs.log10)
    requires Rooted(fs1) && TameZips(a.job.env.codecs)
    ensures Chain(builds + [Build(a.job, a.fs0, a.start, a.trace)])
  {
    hide Provisioning, PlacesApart, Contained, RoundTrips, Serves, ExitTells, Configured, BitsExtracted;
    hide OutputsReadable, ConfinedScripts, Completed, Rooted, RoundOf, CacheThere, AppBitsThere, BuildpacksThere;
    hide Mkdirs, Unpacked;
    var b := Build(a.job, a.fs0, a.start, a.trace);
    ArchiveLeft(builds[|builds| - 1], left);
    ExitZeroProvides(env, setup, fs0, steps, fs1);
    CacheHandedOn(env, setup, fs0, fs1, RoundOf(builds[|builds| - 1]).out, a.job.env, downloadDir, a);
    ExitZeroCompleted(a, downloadDir, fs1, places, json);
    RootedStart(a.job.env, downloadDir, fs1, a.job.config.places.buildDir, a.fs0);
    ChainGrows(builds, b);
  }
}
