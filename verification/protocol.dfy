/** What one staging build is allowed to do, as a transition system over the buildpack scripts it
    runs. Each event carries the file systems before and after the script, so a trace accounts for
    the whole build between cache cleaning and packaging. */
module Protocol {
  import opened Prelude
  import opened FileSystem
  import opened Models
  import opened Errors
  import opened Configuration
  import opened World

  datatype Phase =
    | Supplying(next: nat, fs: FS)
    | Detecting(next: nat, fs: FS)
    | Chosen(bp: Path, meta: seq<BuildpackMetadata>, fs: FS)
    | FinalSupplied(bp: Path, meta: seq<BuildpackMetadata>, fs: FS)
    | Built(bp: Path, meta: seq<BuildpackMetadata>, finalized: bool, fs: FS)
    | Released(bp: Path, meta: seq<BuildpackMetadata>, finalized: bool, built: FS,
               types: ProcessTypes, fs: FS)
    | Stopped(code: int, fs: FS)
    | Wrong

  /** One build: its environment, its configuration and the contents directory it made. */
  datatype Job = Job(env: Env, config: Settings, contentsDir: Path) {

    function Supplies(): seq<string> {
      config.SupplyBuildpacks()
    }

    /** The final buildpack's index: k supply buildpacks come before it. */
    function K(): (k: nat)
      ensures k == if config.skipDetect && config.order != [] then |config.order| - 1 else 0
    {
      |Supplies()|
    }

    function Hash(name: string): (h: string)
      ensures |h| == 32
    {
      HexLength(env.codecs.md5(name));
      Hex(env.codecs.md5(name))
    }

    function CachePath(name: string): Path {
      config.places.cacheDir + [Hash(name)]
    }

    function FinalCache(): Path {
      config.places.cacheDir + ["final"]
    }

    function DepsDir(): Path {
      contentsDir + ["deps"]
    }

    function ProfileDir(): Path {
      contentsDir + ["profile.d"]
    }

    function DepsIndex(i: nat): string {
      config.DepsIndex(i, env.codecs.log10)
    }

    function DepsSubDir(i: nat): Path {
      DepsDir() + [DepsIndex(i)]
    }

    /** The directory of a buildpack: the one named by its hash, or the only entry nested in it,
        whichever has a `bin` entry. */
    function Resolve(fs: FS, name: string): Option<Path> {
      var base := config.places.buildpacksDir + [Hash(name)];
      if Stat(env, fs, base + ["bin"]) == Found then Some(base)
      else
        var names := ReadDir(env, fs, base);
        if names.Some? && |names.value| == 1 then
          var nested := base + [Only(names.value)];
          if Stat(env, fs, nested + ["bin"]) == Found then Some(nested) else None
        else None
    }

    function Script(fs: FS, bp: Path, name: string): StatResult {
      Stat(env, fs, bp + ["bin", name])
    }

    /** Name and version from a `config.yml`, empty when there is none to read. */
    function ReadConfigYml(fs: FS, dir: Path): (string, string) {
      match ReadFile(env, fs, dir + ["config.yml"])
      case Contents(bytes) =>
        var parsed := env.codecs.configYml(bytes);
        if parsed.Some? then parsed.value else ("", "")
      case _ => ("", "")
    }

    function Meta(fs: FS, key: string, i: nat): BuildpackMetadata {
      var named := ReadConfigYml(fs, DepsSubDir(i));
      BuildpackMetadata(key, named.0, named.1)
    }

    function Metadata(fs: FS, keys: seq<string>): (metas: seq<BuildpackMetadata>)
      ensures |metas| == |keys|
    {
      seq(|keys|, i requires 0 <= i < |keys| => Meta(fs, keys[i], i))
    }

    /** The metadata of a detected buildpack: its name defaults to what detect printed. */
    function DetectedMeta(fs: FS, key: string, output: string): BuildpackMetadata {
      var meta := Meta(fs, key, 0);
      if meta.name == "" then meta.(name := TrimRight(output)) else meta
    }

    /** None is an unreadable or malformed Procfile; a missing one is empty. */
    function Procfile(fs: FS): Option<map<string, string>> {
      match ReadFile(env, fs, config.places.buildDir + ["Procfile"])
      case Contents(bytes) => env.codecs.procfile(bytes)
      case NoSuchFile => Some(map[])
      case Unreadable => None
    }

    function Merge(release: ProcessTypes, procfile: map<string, string>): ProcessTypes {
      if procfile == map[] then release else Types(release.Entries() + procfile)
    }

    predicate Suppliable(fs: FS, name: string) {
      Resolve(fs, name).Some? && Script(fs, Resolve(fs, name).value, "supply") == Found
    }

    predicate AllSuppliable(fs: FS) {
      forall name :: name in Supplies() ==> Suppliable(fs, name)
    }

    predicate Detectable(fs: FS, name: string) {
      Resolve(fs, name).Some? && Script(fs, Resolve(fs, name).value, "detect") == Found
    }

    function NextDetectable(fs: FS, i: nat): (j: nat)
      requires i <= |config.order|
      ensures i <= j <= |config.order|
      ensures forall n :: i <= n < j ==> !Detectable(fs, config.order[n])
      ensures j < |config.order| ==> Detectable(fs, config.order[j])
      decreases |config.order| - i
    {
      if i == |config.order| || Detectable(fs, config.order[i]) then i else NextDetectable(fs, i + 1)
    }

    function SupplyCall(bp: Path, cache: Path, i: nat): Invocation {
      Supply(bp, config.places.buildDir, cache, DepsDir(), DepsIndex(i))
    }

    function FinalizeCall(bp: Path): Invocation {
      Finalize(bp, config.places.buildDir, FinalCache(), DepsDir(), DepsIndex(K()), ProfileDir())
    }

    function CompileCall(bp: Path): Invocation {
      Compile(bp, config.places.buildDir, FinalCache())
    }

    function Start(fs: FS): Phase {
      if !config.skipDetect then Detecting(0, fs)
      else if AllSuppliable(fs) then Supplying(0, fs)
      else Stopped(SUPPLY_FAIL_CODE, fs)
    }

    /** After the last supply script the final buildpack is resolved, without running anything. */
    function Settle(s: Phase): Phase {
      if s.Supplying? && s.next == K() && K() < |config.order| then
        var final := Resolve(s.fs, config.order[K()]);
        if final.Some? then Chosen(final.value, Metadata(s.fs, config.order), s.fs) else s
      else s
    }

    /** The event must be exactly this call in this state. */
    function Expect(e: Event, inv: Invocation, before: FS, next: Phase, code: int): Phase {
      if e.inv != inv || e.before != before then Wrong
      else if e.ok then next
      else Stopped(code, e.after)
    }

    /** In skip-detect mode the metadata is read again once the build is finished. */
    function AfterBuild(bp: Path, meta: seq<BuildpackMetadata>, finalized: bool, fs: FS): Phase {
      Built(bp, if config.skipDetect then Metadata(fs, config.order) else meta, finalized, fs)
    }

    function StepSupplying(i: nat, fs: FS, e: Event): Phase {
      if i < K() && Resolve(fs, config.order[i]).Some? then
        Expect(e, SupplyCall(Resolve(fs, config.order[i]).value, CachePath(config.order[i]), i), fs,
               Supplying(i + 1, e.after), SUPPLY_FAIL_CODE)
      else Wrong
    }

    function StepDetecting(i: nat, fs: FS, e: Event): Phase {
      if i <= |config.order| && NextDetectable(fs, i) < |config.order| then
        var j := NextDetectable(fs, i);
        var bp := Resolve(fs, config.order[j]).value;
        if e.inv != Detect(bp, config.places.buildDir) || e.before != fs then Wrong
        else if e.ok then Chosen(bp, [DetectedMeta(e.after, config.order[j], e.output)], e.after)
        else Detecting(j + 1, e.after)
      else Wrong
    }

    /** A chosen buildpack without a finalize script loses its deps directory and compiles. */
    function StepChosen(bp: Path, meta: seq<BuildpackMetadata>, fs: FS, e: Event): Phase {
      var finalize, supply := Script(fs, bp, "finalize"), Script(fs, bp, "supply");
      if finalize == Missing then
        Expect(e, CompileCall(bp), Pruned(fs, DepsSubDir(K())),
               AfterBuild(bp, meta, false, e.after), COMPILE_FAIL_CODE)
      else if finalize == Found && supply == Found then
        Expect(e, SupplyCall(bp, FinalCache(), K()), fs,
               FinalSupplied(bp, meta, e.after), SUPPLY_FAIL_CODE)
      else if finalize == Found && supply == Missing then
        StepFinalize(bp, meta, fs, e)
      else Wrong
    }

    function StepFinalize(bp: Path, meta: seq<BuildpackMetadata>, fs: FS, e: Event): Phase {
      Expect(e, FinalizeCall(bp), fs, AfterBuild(bp, meta, true, e.after), FINALIZE_FAIL_CODE)
    }

    function StepBuilt(bp: Path, meta: seq<BuildpackMetadata>, finalized: bool, fs: FS, e: Event): Phase {
      if Procfile(fs).None? then Wrong
      else
        var parsed := env.codecs.release(e.output);
        Expect(e, Release(bp, config.places.buildDir), fs,
               if parsed.None? then Stopped(RELEASE_FAIL_CODE, e.after)
               else Released(bp, meta, finalized, fs, Merge(parsed.value, Procfile(fs).value), e.after),
               RELEASE_FAIL_CODE)
    }

    function Step(s: Phase, e: Event): Phase {
      match Settle(s)
      case Supplying(i, fs) => StepSupplying(i, fs, e)
      case Detecting(i, fs) => StepDetecting(i, fs, e)
      case Chosen(bp, meta, fs) => StepChosen(bp, meta, fs, e)
      case FinalSupplied(bp, meta, fs) => StepFinalize(bp, meta, fs, e)
      case Built(bp, meta, finalized, fs) => StepBuilt(bp, meta, finalized, fs, e)
      case _ => Wrong
    }

    /** The phase a trace leads to, from the file system after cache cleaning. */
    function Replay(start: FS, trace: seq<Event>): Phase {
      if trace == [] then Start(start)
      else Step(Replay(start, trace[..|trace| - 1]), trace[|trace| - 1])
    }

    lemma ReplaySnoc(start: FS, trace: seq<Event>, e: Event)
      ensures Replay(start, trace + [e]) == Step(Replay(start, trace), e)
    {
      assert (trace + [e])[..|trace|] == trace;
    }

    /** Where the build stands when it gives up with an exit code, or with a plain error. */
    ghost predicate Explains(code: Option<int>, phase: Phase) {
      var s := Settle(phase);
      match code
      case None => s.Released?
      case Some(c) =>
        if c == DETECT_FAIL_CODE then
          s.Detecting? && s.next <= |config.order| && NextDetectable(s.fs, s.next) == |config.order|
        else if c == SUPPLY_FAIL_CODE then
          || (s.Stopped? && s.code == c)
          || (s.Supplying? && s.next < |config.order| && Resolve(s.fs, config.order[s.next]).None?)
          || (s.Chosen? && Script(s.fs, s.bp, "finalize") == Found && Script(s.fs, s.bp, "supply") == Broken)
        else if c == FINALIZE_FAIL_CODE then
          (s.Stopped? && s.code == c) || (s.Chosen? && Script(s.fs, s.bp, "finalize") == Broken)
        else if c == COMPILE_FAIL_CODE then
          (s.Stopped? && s.code == c) || (s.Chosen? && Script(s.fs, s.bp, "finalize") == Missing && !Quiet(env))
        else if c == RELEASE_FAIL_CODE then
          (s.Stopped? && s.code == c) || (s.Built? && Procfile(s.fs).None?)
        else false
    }

    /** The file system in which a build gives up in a phase: the phase's own, unless the deps directory
        of a buildpack that compiles could not be removed. */
    ghost predicate LeavesAt(phase: Phase, fs: FS) {
      var s := Settle(phase);
      && s != Wrong
      && (fs == s.fs ||
          (s.Chosen? && Script(s.fs, s.bp, "finalize") == Missing && !Quiet(env) &&
           forall q :: !(DepsSubDir(K()) <= q) ==> At(fs, q) == At(s.fs, q)))
    }

    /** Packaging changes only the contents directory and those above it, the outputs and what is above
        the last one. */
    ghost predicate PackagesOnly(before: FS, after: FS) {
      forall q :: Apart(contentsDir, q) && q != config.places.outputMetadata && q != config.places.outputDroplet &&
                  q != config.places.outputCache && !(q <= Parent(config.places.outputCache)) ==>
        At(after, q) == At(before, q)
    }

    /** Setting up changes only the contents directory and those above it, what is above the directories
        made outside it, and what is in the cache but in none of the needed directories. */
    ghost predicate FurnishesOnly(before: FS, after: FS) {
      var cacheDir := config.places.cacheDir;
      forall q :: (contentsDir == [] || Apart(contentsDir, q)) && NotAbove(OuterDirs(), q)
                  && (cacheDir < q ==> q[..|cacheDir| + 1] in NeededCache()) ==>
        At(after, q) == At(before, q)
    }

    /** The directories made before the cache is cleaned: those that exist independently of the
        contents directory, and those inside it. */
    function OuterDirs(): seq<Path> {
      [Parent(config.places.outputDroplet), Parent(config.places.outputMetadata), FinalCache()]
      + CachePaths(Supplies())
    }

    function CachePaths(names: seq<string>): (ps: seq<Path>)
      ensures |ps| == |names| && forall i :: 0 <= i < |ps| ==> ps[i] == CachePath(names[i])
    {
      seq(|names|, i requires 0 <= i < |names| => CachePath(names[i]))
    }

    function DepsDirs(n: nat): (ps: seq<Path>)
      ensures |ps| == n && forall i :: 0 <= i < |ps| ==> ps[i] == DepsSubDir(i)
    {
      seq(n, i requires 0 <= i < n => DepsSubDir(i))
    }

    function InnerDirs(): seq<Path> {
      DepsDirs(K() + 1) + [ProfileDir()]
    }

    function NeededCache(): set<Path> {
      {FinalCache()} + set name | name in Supplies() :: CachePath(name)
    }

    /** Nothing in the file system keeps the directories from being made. */
    ghost predicate CanMake(fs: FS) {
      && CanMkAll(fs, OuterDirs())
      && CanTempDir(env, MkAll(fs, OuterDirs()), contentsDir)
      && CanMkAll(MkAll(fs, OuterDirs())[contentsDir := Dir], InnerDirs())
    }

    /** Nor the cache from being listed. */
    ghost predicate CanFurnish(fs: FS) {
      && CanMake(fs)
      && ReadDir(env, Furnished(fs), config.places.cacheDir).Some?
    }

    /** The file system after `makeDirectories`. */
    function Furnished(fs: FS): FS {
      MkAll(MkAll(fs, OuterDirs())[contentsDir := Dir], InnerDirs())
    }

    /** The file system after `cleanCacheDir` as well: where the scripts start. */
    function Prepared(fs: FS): FS {
      Swept(Furnished(fs), config.places.cacheDir, NeededCache())
    }

    function LastMeta(meta: seq<BuildpackMetadata>): BuildpackMetadata {
      if meta == [] then BuildpackMetadata("", "", "") else meta[|meta| - 1]
    }

    function Info(rel: Phase): StagingInfo
      requires rel.Released?
    {
      StagingInfo(LastMeta(rel.meta).name, rel.types.Lookup("web"))
    }

    function Result(rel: Phase): StagingResult<seq<BuildpackMetadata>>
      requires rel.Released?
    {
      NewStagingResult(rel.types, LastMeta(rel.meta).key, LastMeta(rel.meta).name, rel.meta)
    }

    function InfoPath(): Path {
      contentsDir + ["staging_info.yml"]
    }

    function WithInfo(rel: Phase): FS
      requires rel.Released?
    {
      rel.fs[InfoPath() := File(env.codecs.encodeInfo(Info(rel)))]
    }

    function WithResult(rel: Phase): FS
      requires rel.Released?
    {
      WithInfo(rel)[config.places.outputMetadata := File(env.codecs.encodeResult(Result(rel)))]
    }

    function WithSkeleton(rel: Phase): FS
      requires rel.Released?
    {
      MkAll(WithResult(rel), [contentsDir + ["tmp"], contentsDir + ["logs"]])
    }

    function WithApp(rel: Phase): FS
      requires rel.Released?
    {
      Copied(WithSkeleton(rel), config.places.buildDir, contentsDir + ["app"])
    }

    /** What goes into the droplet archive. */
    function Droplet(rel: Phase): Tree
      requires rel.Released?
    {
      Snapshot(WithApp(rel), contentsDir)
    }

    function WithDroplet(rel: Phase): FS
      requires rel.Released?
    {
      Mkdirs(WithApp(rel)[config.places.outputDroplet := File(env.codecs.tar(Droplet(rel)))],
             Parent(config.places.outputCache))
    }

    /** What goes into the output cache archive. */
    function OutputCache(rel: Phase): Tree
      requires rel.Released?
    {
      Snapshot(WithDroplet(rel), config.places.cacheDir)
    }

    /** Nothing in the file system keeps the results from being written. */
    ghost predicate CanPackage(rel: Phase)
      requires rel.Released?
    {
      && env.hasTar
      && CanWrite(rel.fs, InfoPath())
      && CanWrite(WithInfo(rel), config.places.outputMetadata)
      && CanMkAll(WithResult(rel), [contentsDir + ["tmp"], contentsDir + ["logs"]])
      && CanCopy(WithSkeleton(rel), config.places.buildDir, contentsDir + ["app"])
      && CanTar(WithApp(rel), contentsDir, config.places.outputDroplet)
      && CanMkdirs(WithApp(rel)[config.places.outputDroplet := File(env.codecs.tar(Droplet(rel)))],
                   Parent(config.places.outputCache))
      && CanTar(WithDroplet(rel), config.places.cacheDir, config.places.outputCache)
    }

    /** The file system a successful build leaves, given the phase its scripts reached. */
    function Packaged(rel: Phase): FS
      requires rel.Released?
    {
      WithDroplet(rel)[config.places.outputCache := File(env.codecs.tar(OutputCache(rel)))]
    }
  }

  /** Name and version are those of the `config.yml` in this directory, if it is a file that can be read
      and parsed, and empty otherwise. */
  ghost predicate Recorded(env: Env, fs: FS, dir: Path, meta: BuildpackMetadata) {
    var p := dir + ["config.yml"];
    var entry := At(fs, p);
    if !env.unreadable(p) && entry.Some? && entry.value.File? && env.codecs.configYml(entry.value.bytes).Some?
    then (meta.name, meta.version) == env.codecs.configYml(entry.value.bytes).value
    else meta.name == "" && meta.version == ""
  }

  lemma MetaRecorded(job: Job, fs: FS, key: string, i: nat)
    ensures job.Meta(fs, key, i).key == key && Recorded(job.env, fs, job.DepsSubDir(i), job.Meta(fs, key, i))
  {
    hide Job.DepsSubDir;
  }

  predicate NotAbove(ps: seq<Path>, q: Path) {
    forall i :: 0 <= i < |ps| ==> !(q <= ps[i])
  }

  /** The element of a one-element set. */
  function Only(names: set<string>): (n: string)
    requires |names| == 1
    ensures names == {n}
  {
    var n :| n in names;
    OnlyOne(names, n);
    n
  }

  lemma OnlyOne(names: set<string>, n: string)
    requires |names| == 1 && n in names
    ensures names == {n}
  {
    assert |names - {n}| == 0;
    assert names == (names - {n}) + {n};
  }
}
