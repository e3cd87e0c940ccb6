/** cmd/downloader/downloader.go: installs buildpacks, app bits and the cache, and unpacks the
    cache. */
module Downloader {
  import opened Prelude
  import opened FileSystem
  import opened World
  import opened Unzip
  import opened Checksum
  import opened PackageInstalling
  import opened Buildpacks
  import opened InstalledBuildpacks

  const ZIP_LIMIT := 10 * 1024 * 1024 * 1024

  datatype Kind = BuildpacksKind | AppBitsKind | CacheKind

  /** One installer that was run, and the file systems before and after it. */
  datatype Step = Step(kind: Kind, before: FS, ok: bool, after: FS)

  datatype Setup<!S(!new)> = Setup(
    buildpacksDir: Path,
    buildpacksJSON: string,
    appBitsURL: string,
    workspaceDir: Path,
    cacheDir: Path,
    cacheURI: string,
    algo: Option<Algorithm<S>>,
    checkSum: string) {

    /** The configuration names a checksum algorithm if it needs one. */
    predicate Supported() {
      cacheURI != "" ==> algo.Some?
    }

    function AppBits(): Path {
      workspaceDir + [APP_BITS]
    }

    function CacheZip(): Path {
      cacheDir + [APP_BITS]
    }

    /** The installers, in the order they are run. */
    function Kinds(): seq<Kind> {
      [BuildpacksKind, AppBitsKind] + if cacheURI != "" then [CacheKind] else []
    }
  }

  /** A body that ends cleanly and, if there is a checksum to check, has it. */
  ghost predicate GoodBody<S(!new)>(check: Option<(Algorithm<S>, string)>, body: Stream) {
    && body.endsCleanly
    && (check.Some? ==>
          var algo := check.value.0;
          LowerHex(check.value.1, algo.sum(algo.update(algo.init, Flatten(body.chunks)))))
  }

  ghost predicate GoodResponse<S(!new)>(check: Option<(Algorithm<S>, string)>, r: Option<Response>) {
    r.Some? && r.value.status == 200 && GoodBody(check, r.value.body)
  }

  /** The file holds the whole of a good response, or something else if there was none. */
  ghost predicate Downloaded<S(!new)>(env: Env, url: string, dir: Path, check: Option<(Algorithm<S>, string)>,
                                      before: FS, ok: bool, after: FS)
  {
    var path := dir + [APP_BITS];
    if url == "" || dir == [] then !ok && after == before
    else if ok then
      CanWrite(before, path) && exists tick ::
        GoodResponse(check, env.get(tick, url)) &&
        after == before[path := File(Flatten(env.get(tick, url).value.body.chunks))]
    else
      && (after == before ||
          (CanWrite(before, path) && exists tick :: after == before[path := LeftBy(env.get(tick, url))]))
      && (Quiet(env) ==> !CanWrite(before, path) || exists tick :: !GoodResponse(check, env.get(tick, url)))
  }

  /** The installer of this kind did this. */
  ghost predicate Ran<S(!new)>(env: Env, setup: Setup<S>, s: Step) {
    match s.kind
    case BuildpacksKind => exists done ::
      Managed(env, ZIP_LIMIT, setup.buildpacksDir, setup.buildpacksJSON, s.before, done, s.ok, s.after)
    case AppBitsKind => Downloaded<S>(env, setup.appBitsURL, setup.workspaceDir, None, s.before, s.ok, s.after)
    case CacheKind =>
      && setup.algo.Some?
      && Downloaded(env, setup.cacheURI, setup.cacheDir, Some((setup.algo.value, setup.checkSum)), s.before, s.ok,
                    s.after)
  }

  /** Installers in order, each starting where the one before it ended, until one fails. */
  ghost predicate Steps<S(!new)>(env: Env, setup: Setup<S>, fs0: FS, steps: seq<Step>) {
    && |steps| <= |setup.Kinds()|
    && (forall i :: 0 <= i < |steps| ==>
          && steps[i].kind == setup.Kinds()[i] && steps[i].before == AfterSteps(fs0, steps, i)
          && Ran(env, setup, steps[i]) && (steps[i].ok || i == |steps| - 1))
    && (|steps| < |setup.Kinds()| ==> steps != [] && !steps[|steps| - 1].ok)
  }

  function AfterSteps(fs0: FS, steps: seq<Step>, n: nat): FS
    requires n <= |steps|
  {
    if n == 0 then fs0 else steps[n - 1].after
  }

  /** `tar -xzf app.zip` in the cache directory. */
  ghost predicate Untarred(env: Env, cacheDir: Path, before: FS, ok: bool, after: FS) {
    var archive := ReadFile(env, before, cacheDir + [APP_BITS]);
    && (ok ==> archive.Contents? && env.codecs.untar(archive.bytes).Some? &&
               after == Placed(before, cacheDir, env.codecs.untar(archive.bytes).value))
    && (!ok ==> after == before ||
                (archive.Contents? && env.codecs.untar(archive.bytes).Some? &&
                 exists part :: after == Placed(before, cacheDir, Part(env.codecs.untar(archive.bytes).value, part))))
    && (Quiet(env) && env.hasTar ==> (ok <==> archive.Contents? && env.codecs.untar(archive.bytes).Some?))
  }

  /** What the process did once it had its clients: the installers, and after all of them worked the
      cache is unpacked. */
  ghost predicate Provisioning<S(!new)>(env: Env, setup: Setup<S>, fs0: FS, steps: seq<Step>, ok: bool, fs1: FS) {
    && Steps(env, setup, fs0, steps)
    && var end := AfterSteps(fs0, steps, |steps|);
       if steps != [] && !steps[|steps| - 1].ok then !ok && fs1 == end
       else if setup.cacheURI == "" then ok && fs1 == end
       else Untarred(env, setup.cacheDir, end, ok, fs1)
  }

  /** `main`: the first installer that fails ends the process with one report; a failure to unpack
      the cache is not reported. */
  method RunDownloader<S(!new)>(world: World, responderOk: bool, clientOk: bool, setup: Setup<S>, sizes: nat -> nat)
    returns (exitCode: int, reports: nat, ghost steps: seq<Step>)
    requires setup.algo.Some? ==> Incremental(setup.algo.value)
    modifies world
    ensures world.log == old(world.log)
    ensures exitCode == 0 || exitCode == 1
    ensures steps == [] ==> exitCode == 1 && reports <= if responderOk && !clientOk then 1 else 0
    ensures steps == [] ==>
              world.fs == old(world.fs) || exists q :: q <= setup.cacheDir && world.fs == Mkdirs(old(world.fs), q)
    ensures steps == [] && responderOk && Quiet(world.env) && CanMkdirs(old(world.fs), setup.cacheDir) ==>
              if !clientOk then reports == 1 else !setup.Supported() && reports == 0
    ensures steps != [] ==>
              && responderOk && clientOk && setup.Supported() && CanMkdirs(old(world.fs), setup.cacheDir)
              && Provisioning(world.env, setup, Mkdirs(old(world.fs), setup.cacheDir), steps, exitCode == 0, world.fs)
              && reports == (if steps[|steps| - 1].ok then 0 else 1)
              && steps[0].kind == BuildpacksKind && (|steps| > 1 ==> steps[1].kind == AppBitsKind)
              && (|steps| > 2 ==> |steps| == 3 && steps[2].kind == CacheKind && setup.cacheURI != "")
  {
    hide Ran, CanMkdirs, Mkdirs, Untarred, Incremental, Parent, Quiet;
    exitCode, reports, steps := 1, 0, [];
    var made := world.MkdirAll(setup.cacheDir);
    if !made || !responderOk {
      return;
    }
    if !clientOk {
      reports := 1;
      return;
    }
    ghost var fs0 := world.fs;
    var installers := [BuildpacksKind, AppBitsKind];
    if setup.cacheURI != "" {
      if setup.algo.None? {
        return;
      }
      installers := installers + [CacheKind];
    }
    AllKinds(setup, installers);
    for i := 0 to |installers|
      invariant world.log == old(world.log)
      invariant |steps| == i && reports == 0 && world.fs == AfterSteps(fs0, steps, i)
      invariant i > 0 ==> steps[i - 1].ok
      invariant forall k :: 0 <= k < i ==>
                  && steps[k].kind == installers[k] && steps[k].before == AfterSteps(fs0, steps, k)
                  && Ran(world.env, setup, steps[k]) && steps[k].ok
    {
      ghost var before := world.fs;
      var ok := RunInstaller(world, installers[i], setup, sizes);
      steps := steps + [Step(installers[i], before, ok, world.fs)];
      if !ok {
        reports := 1;
        return;
      }
    }
    if setup.cacheURI != "" {
      var restored := UntarCache(world, setup.cacheDir);
      if !restored {
        return;
      }
    }
    exitCode := 0;
  }

  lemma AllKinds<S(!new)>(setup: Setup<S>, kinds: seq<Kind>)
    requires kinds == [BuildpacksKind, AppBitsKind] + if setup.cacheURI != "" then [CacheKind] else []
    ensures kinds == setup.Kinds()
  {
  }

  method RunInstaller<S(!new)>(world: World, kind: Kind, setup: Setup<S>, sizes: nat -> nat) returns (ok: bool)
    requires kind == CacheKind ==> setup.algo.Some?
    requires setup.algo.Some? ==> Incremental(setup.algo.value)
    modifies world
    ensures world.log == old(world.log)
    ensures Ran(world.env, setup, Step(kind, old(world.fs), ok, world.fs))
  {
    hide Managed, Downloaded, Incremental;
    match kind {
      case BuildpacksKind =>
        var manager := new BuildpackManager(setup.buildpacksDir, setup.buildpacksJSON);
        var err, done := manager.Install(world);
        ok := err.None?;
      case AppBitsKind =>
        ok := InstallPackage<S>(world, setup.appBitsURL, setup.workspaceDir, None, sizes);
      case CacheKind =>
        ok := InstallPackage(world, setup.cacheURI, setup.cacheDir, Some((setup.algo.value, setup.checkSum)), sizes);
    }
  }

  /** A package manager, with a verifying reader if there is a checksum to check. */
  method InstallPackage<S(!new)>(world: World, url: string, dir: Path, check: Option<(Algorithm<S>, string)>,
                                 sizes: nat -> nat)
    returns (ok: bool)
    requires check.Some? ==> Incremental(check.value.0)
    modifies world
    ensures world.log == old(world.log)
    ensures Downloaded(world.env, url, dir, check, old(world.fs), ok, world.fs)
  {
    hide Incremental, Flatten, LowerHex, CanWrite;
    var verify := None;
    if check.Some? {
      var hash := new Hash(check.value.0);
      verify := Some((hash, check.value.1));
    }
    var installer := new PackageInstaller(url, dir, verify);
    ghost var before, tick := world.fs, world.clock + 1;
    assert forall body :: installer.Accepts(body) == GoodBody(check, body);
    label start:
    var err := installer.Install(world, sizes);
    ok := err.None?;
    if ok {
      ghost var t, body :|
        && world.env.get(t, url) == Some(Response(200, body)) && old@start(installer.Accepts(body))
        && world.fs == before[dir + [APP_BITS] := File(Flatten(body.chunks))];
      assert GoodResponse(check, world.env.get(t, url));
    } else if url != "" && dir != [] && Quiet(world.env) && CanWrite(before, dir + [APP_BITS]) {
      assert !GoodResponse(check, world.env.get(tick, url));
    }
  }

  method UntarCache(world: World, cacheDir: Path) returns (ok: bool)
    modifies world
    ensures world.log == old(world.log)
    ensures Untarred(world.env, cacheDir, old(world.fs), ok, world.fs)
    ensures !world.env.hasTar ==> !ok && world.fs == old(world.fs)
  {
    hide ReadFile, Placed;
    if !world.env.hasTar {
      return false;
    }
    ok := world.Untar(cacheDir + [APP_BITS], cacheDir);
  }

  // ----- What is there when the process exits with 0

  /** The places do not contain one another, and no temporary directory is in or above them. */
  ghost predicate PlacesApart<S(!new)>(env: Env, setup: Setup<S>) {
    && Apart(setup.buildpacksDir, setup.cacheDir) && Apart(setup.AppBits(), setup.cacheDir)
    && Apart(setup.buildpacksDir, setup.AppBits())
    && env.TempApart(setup.buildpacksDir) && env.TempApart(setup.cacheDir)
  }

  ghost predicate AppBitsThere<S(!new)>(env: Env, setup: Setup<S>, fs: FS) {
    exists tick ::
      GoodResponse<S>(None, env.get(tick, setup.appBitsURL)) &&
      At(fs, setup.AppBits()) == Some(File(Flatten(env.get(tick, setup.appBitsURL).value.body.chunks)))
  }

  ghost predicate BuildpacksThere<S(!new)>(env: Env, setup: Setup<S>, fs0: FS, fs: FS) {
    var decoded := env.codecs.buildpacks(setup.buildpacksJSON);
    && decoded.Some?
    && At(fs, setup.buildpacksDir + ["config.json"]) == Some(File(env.codecs.encodeBuildpacks(decoded.value)))
    && (DistinctSums(env, decoded.value) ==>
          forall i :: 0 <= i < |decoded.value| ==>
            InPlace(env, ZIP_LIMIT, TaskAt(env, setup.buildpacksDir, decoded.value, i), fs0, fs))
  }

  /** The archive's content, over the archive itself, over what was there. */
  ghost predicate Restored(env: Env, cacheDir: Path, bytes: Bytes, fs0: FS, fs: FS) {
    && env.codecs.untar(bytes).Some?
    && var tree := env.codecs.untar(bytes).value;
       forall r :: r != [] ==>
         At(fs, cacheDir + r) == if r in tree then Some(tree[r])
                                 else if r == [APP_BITS] then Some(File(bytes))
                                 else At(fs0, cacheDir + r)
  }

  ghost predicate CacheThere<S(!new)>(env: Env, setup: Setup<S>, fs0: FS, fs: FS) {
    if setup.cacheURI == "" then forall r :: r != [] ==> At(fs, setup.cacheDir + r) == At(fs0, setup.cacheDir + r)
    else exists tick ::
      setup.algo.Some? && GoodResponse(Some((setup.algo.value, setup.checkSum)), env.get(tick, setup.cacheURI)) &&
      Restored(env, setup.cacheDir, Flatten(env.get(tick, setup.cacheURI).value.body.chunks), fs0, fs)
  }

  /** What comes after the buildpacks changes only app.zip in the workspace and the cache. */
  lemma LaterKeep<S(!new)>(env: Env, setup: Setup<S>, fs0: FS, steps: seq<Step>, fs1: FS, q: Path)
    requires Provisioning(env, setup, fs0, steps, true, fs1) && !(setup.cacheDir <= q)
    ensures |steps| >= 2 && steps[0].ok && steps[1].ok
    ensures At(fs1, q) == At(steps[1].after, q)
    ensures q != setup.AppBits() ==> At(fs1, q) == At(steps[0].after, q)
  {
    hide GoodResponse, ReadFile, Placed, Managed, CanWrite;
    var end := AfterSteps(fs0, steps, |steps|);
    assert setup.Kinds()[1] == AppBitsKind && steps[1].ok && Ran(env, setup, steps[1]);
    if setup.cacheURI != "" {
      assert setup.Kinds()[2] == CacheKind && Ran(env, setup, steps[2]);
      PlacedAt(end, setup.cacheDir, env.codecs.untar(ReadFile(env, end, setup.CacheZip()).bytes).value);
    }
  }

  lemma AppBitsStay<S(!new)>(env: Env, setup: Setup<S>, fs0: FS, steps: seq<Step>, fs1: FS)
    requires Provisioning(env, setup, fs0, steps, true, fs1) && PlacesApart(env, setup)
    ensures AppBitsThere(env, setup, fs1)
  {
    hide GoodResponse, Env.TempApart, Managed, Untarred, Flatten;
    LaterKeep(env, setup, fs0, steps, fs1, setup.AppBits());
    assert setup.Kinds()[1] == AppBitsKind && Ran(env, setup, steps[1]);
  }

  lemma BuildpacksStay<S(!new)>(env: Env, setup: Setup<S>, fs0: FS, steps: seq<Step>, fs1: FS)
    requires Provisioning(env, setup, Mkdirs(fs0, setup.cacheDir), steps, true, fs1)
    requires PlacesApart(env, setup) && Contained(env)
    ensures BuildpacksThere(env, setup, fs0, fs1)
  {
    hide Managed, Env.TempApart, Untarred, Downloaded, Contained, InPlace, Mkdirs, DistinctSums, SameFrom, LowerHex;
    var made, dir := Mkdirs(fs0, setup.cacheDir), setup.buildpacksDir;
    LaterKeep(env, setup, made, steps, fs1, dir);
    assert setup.Kinds()[0] == BuildpacksKind && Ran(env, setup, steps[0]);
    var done :| Managed(env, ZIP_LIMIT, dir, setup.buildpacksJSON, made, done, true, steps[0].after);
    AllInPlace(env, ZIP_LIMIT, dir, setup.buildpacksJSON, made, done, steps[0].after);
    var bps := env.codecs.buildpacks(setup.buildpacksJSON).value;
    MkdirsAt(fs0, setup.cacheDir);
    SameAround(env, setup, fs0, steps, fs1);
    if DistinctSums(env, bps) {
      forall i | 0 <= i < |bps|
        ensures InPlace(env, ZIP_LIMIT, TaskAt(env, dir, bps, i), fs0, fs1)
      {
        assert dir <= TaskAt(env, dir, bps, i).dest;
        SameWithin(dir, TaskAt(env, dir, bps, i).dest, fs0, made);
        SameWithin(dir, TaskAt(env, dir, bps, i).dest, steps[0].after, fs1);
        InPlaceStill(env, ZIP_LIMIT, TaskAt(env, dir, bps, i), fs0, made, steps[0].after, fs1);
      }
    }
    assert dir <= dir + ["config.json"];
    SameAtPath(dir, steps[0].after, fs1, dir + ["config.json"]);
  }

  lemma SameAtPath(dir: Path, a: FS, b: FS, q: Path)
    requires SameFrom(dir, a, b) && dir <= q
    ensures At(b, q) == At(a, q)
  {
  }

  /** The buildpacks directory is touched neither before nor after its installer. */
  lemma SameAround<S(!new)>(env: Env, setup: Setup<S>, fs0: FS, steps: seq<Step>, fs1: FS)
    requires Provisioning(env, setup, Mkdirs(fs0, setup.cacheDir), steps, true, fs1) && PlacesApart(env, setup)
    ensures SameFrom(setup.buildpacksDir, fs0, Mkdirs(fs0, setup.cacheDir)) && steps != []
    ensures SameFrom(setup.buildpacksDir, AfterSteps(fs0, steps, 1), fs1)
  {
    hide Provisioning, Mkdirs, Env.TempApart;
    MkdirsAt(fs0, setup.cacheDir);
    LaterKeep(env, setup, Mkdirs(fs0, setup.cacheDir), steps, fs1, setup.buildpacksDir);
    forall q | setup.buildpacksDir <= q
      ensures At(fs1, q) == At(steps[0].after, q) && At(Mkdirs(fs0, setup.cacheDir), q) == At(fs0, q)
    {
      WithinDir(setup, setup.buildpacksDir, q);
      LaterKeep(env, setup, Mkdirs(fs0, setup.cacheDir), steps, fs1, q);
    }
  }

  lemma WithinDir<S(!new)>(setup: Setup<S>, dir: Path, q: Path)
    requires Apart(dir, setup.cacheDir) && Apart(dir, setup.AppBits()) && dir <= q
    ensures !(setup.cacheDir <= q) && !(q <= setup.cacheDir) && q != setup.AppBits()
  {
    ApartAbove(dir, q, setup.cacheDir);
  }

  lemma SameWithin(dir: Path, p: Path, a: FS, b: FS)
    requires SameFrom(dir, a, b) && dir <= p
    ensures SameFrom(p, a, b)
  {
    forall q | p <= q
      ensures At(b, q) == At(a, q)
    {
      PrefixTrans(dir, p, q);
    }
  }

  /** Nothing touches the cache directory before the cache installer. */
  lemma CacheUntouched<S(!new)>(env: Env, setup: Setup<S>, fs0: FS, steps: seq<Step>, q: Path)
    requires Steps(env, setup, fs0, steps) && |steps| >= 2
    requires PlacesApart(env, setup) && Contained(env) && setup.cacheDir <= q
    ensures At(steps[1].after, q) == At(fs0, q)
  {
    hide Managed, GoodResponse, Env.TempApart, Contained, Flatten;
    assert Ran(env, setup, steps[0]) && setup.Kinds()[0] == BuildpacksKind;
    assert Ran(env, setup, steps[1]) && setup.Kinds()[1] == AppBitsKind;
    var done :| Managed(env, ZIP_LIMIT, setup.buildpacksDir, setup.buildpacksJSON, steps[0].before, done, steps[0].ok,
                        steps[0].after);
    TempApartWithin(env, setup.cacheDir, q);
    ApartAbove(setup.cacheDir, q, setup.buildpacksDir);
    ApartAbove(setup.cacheDir, q, setup.AppBits());
    ManagerKeeps(env, ZIP_LIMIT, setup.buildpacksDir, setup.buildpacksJSON, steps[0].before, done, steps[0].ok,
                 steps[0].after, q);
  }

  lemma CacheStays<S(!new)>(env: Env, setup: Setup<S>, fs0: FS, steps: seq<Step>, fs1: FS)
    requires Provisioning(env, setup, Mkdirs(fs0, setup.cacheDir), steps, true, fs1)
    requires PlacesApart(env, setup) && Contained(env)
    ensures CacheThere(env, setup, fs0, fs1)
  {
    hide Managed, Env.TempApart, Contained, Flatten, Mkdirs, GoodBody, Placed, Untarred, Restored;
    var made, cacheDir := Mkdirs(fs0, setup.cacheDir), setup.cacheDir;
    MkdirsAt(fs0, cacheDir);
    forall r | r != []
      ensures At(steps[1].after, cacheDir + r) == At(fs0, cacheDir + r)
    {
      CacheUntouched(env, setup, made, steps, cacheDir + r);
    }
    if setup.cacheURI != "" {
      assert Ran(env, setup, steps[2]) && setup.Kinds()[2] == CacheKind;
      var tick :| GoodResponse(Some((setup.algo.value, setup.checkSum)), env.get(tick, setup.cacheURI)) &&
        steps[2].after == steps[1].after[setup.cacheDir + [APP_BITS] :=
                                         File(Flatten(env.get(tick, setup.cacheURI).value.body.chunks))];
      var bytes := Flatten(env.get(tick, setup.cacheURI).value.body.chunks);
      assert steps[2].after == steps[1].after[cacheDir + [APP_BITS] := File(bytes)];
      UntarRestores(env, cacheDir, bytes, fs0, steps[1].after, steps[2].after, fs1);
    }
  }

  lemma UntarRestores(env: Env, cacheDir: Path, bytes: Bytes, fs0: FS, before: FS, stored: FS, fs1: FS)
    requires forall r :: r != [] ==> At(before, cacheDir + r) == At(fs0, cacheDir + r)
    requires stored == before[cacheDir + [APP_BITS] := File(bytes)]
    requires Untarred(env, cacheDir, stored, true, fs1)
    ensures Restored(env, cacheDir, bytes, fs0, fs1)
  {
    hide Placed;
    assert ReadFile(env, stored, cacheDir + [APP_BITS]) == Contents(bytes);
    var tree := env.codecs.untar(bytes).value;
    PlacedAt(stored, cacheDir, tree);
    forall r | r != []
      ensures At(fs1, cacheDir + r) == if r in tree then Some(tree[r])
                                       else if r == [APP_BITS] then Some(File(bytes))
                                       else At(fs0, cacheDir + r)
    {
      assert (cacheDir + r)[|cacheDir|..] == r;
      assert cacheDir + r == cacheDir + [APP_BITS] <==> r == [APP_BITS] by {
        assert (cacheDir + [APP_BITS])[|cacheDir|..] == [APP_BITS];
      }
    }
  }

  /** A process that exits with 0 leaves the app bits, every buildpack and the cache where the next
      process looks for them. */
  lemma ExitZeroProvides<S(!new)>(env: Env, setup: Setup<S>, fs0: FS, steps: seq<Step>, fs1: FS)
    requires Provisioning(env, setup, Mkdirs(fs0, setup.cacheDir), steps, true, fs1)
    requires PlacesApart(env, setup) && Contained(env)
    ensures AppBitsThere(env, setup, fs1)
    ensures BuildpacksThere(env, setup, fs0, fs1)
    ensures CacheThere(env, setup, fs0, fs1)
  {
    hide Provisioning, PlacesApart, Contained, AppBitsThere, BuildpacksThere, CacheThere;
    AppBitsStay(env, setup, Mkdirs(fs0, setup.cacheDir), steps, fs1);
    BuildpacksStay(env, setup, fs0, steps, fs1);
    CacheStays(env, setup, fs0, steps, fs1);
  }
}
