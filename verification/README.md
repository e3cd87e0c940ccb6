# A verified model of eirini-staging

eirini-staging builds droplets: a downloader fetches buildpacks, app bits and the previous build
cache, an executor runs buildpack scripts in a fixed protocol and packages what they produce, and an
uploader reports the result. This project models those steps in Dafny and proves what they promise,
for every configuration, file system, script behaviour and pattern of failing system calls.

## How the model is built

* `world.dfy` is the machine. A file system is a map from component-list paths to entries. What the
  program cannot see into is an oracle in `Env`: buildpack scripts, git, HTTP responses, codecs, md5,
  temporary names and system-call faults. Oracles that may answer differently each time are indexed by
  a clock, so nothing is assumed about two calls giving the same answer. Reads that fail with
  something other than "does not exist" are those beneath a file, or of a path marked unreadable.
  The machine also logs every buildpack script that is run on it.
* `protocol.dfy` states what a build may do as a transition system. An event is one script run, with
  its arguments, its outcome and the file systems before and after it; `Replay` follows a trace of
  events from the state after cache cleaning, and any event that is not exactly the expected call in
  exactly the expected state leads to `Wrong`.
* `runner.dfy` is builder/runner.go as a class whose methods work on the machine. `Run` is proved
  to follow the protocol: on success its trace replays to `Released` and the file system is exactly
  `Packaged`; on failure the phase reached explains the error code. Its body is split in three:
  `Prepare` up to cache cleaning, `RunScripts` up to release, and `Package`.
* `traces.dfy`, `detection.dfy`, `metadata.dfy`, `layout.dfy`, `droplet.dfy`, `cache.dfy` and
  `results.dfy` prove the properties of all runs from the protocol. `executor.dfy` carries them to the
  process, its exit code and the file system it leaves.
* `lookups.dfy` says what the lookups the protocol is written with come to, in terms of the entries of
  the file system: which script is found, which directory a buildpack resolves to, what is read.
* `buildpacks.dfy` treats the installation of a buildpack in the same way: a deed is one call to the
  machine with the file systems before and after it, `Stages` follows the deeds and leads to `Astray`
  for any that is out of order, and the methods account for every change between entry and exit.
  `installed.dfy` proves from that what is called, what is left alone and what is in place at the end.
* `downloader.dfy` accounts for the whole download process in that way, and `pipeline.dfy` joins the
  processes: what the downloader provides is what the executor builds from, and the archive one build
  leaves is the cache the next one starts with.
* `scenario.dfy` shows that what the theorems about builds assume can be met together: for any formats
  with a sane logarithm and a release parser that accepts the empty text, round-tripping ones
  included, it gives a machine and a build with a supply buildpack that completes, chains of such
  builds of every length, and in them an entry of the buildpack's cache directory that survives.
* The other modules model one source file each.

## Assumptions

They are named predicates, and appear as hypotheses only where a property needs them.

* `Frames.ConfinedScripts`: a script changes only what lies strictly beneath the directories it is
  given. Supply and finalize are given the whole deps directory; they are taken to keep to their own
  index in it.
* `World.ConfinedGit`: git changes nothing apart from the destinations it is given and the paths above
  or beneath them.
* `Unzip.TameZips`: no name in a downloaded zip climbs out of the directory it is extracted to. With
  `ConfinedGit` it makes up `InstalledBuildpacks.Contained`.
* `World.Env.TempApart`, in `Executor.Spaced` and `Downloader.PlacesApart`: no temporary directory
  is above or beneath the places a process is given, which do not contain one another.
* `InstalledBuildpacks.DistinctSums`: no two buildpacks to install have names with one md5 sum.
* `Frames.Separate`: the build, cache, buildpacks, contents and output locations do not contain one
  another.
* `Decimal.SaneLog10`: `n <= 10^(log10(n)+1)` for the truncated logarithm. The exact logarithm meets
  it, and so does a floating-point one that lands just below an integer at a power of ten.
* `CacheChain.NoCollision`: no two buildpack names in use have the same md5 sum.
* `World.RoundTrips`: what is encoded or archived is decoded or unpacked as it was.
* `Checksum.Incremental`: hashing in pieces is hashing the whole.
* `World.Quiet`: no system call fails without a reason in the file system. Used only to say when an
  operation must succeed.
* `FileSystem.Rooted`: whatever is above an entry exists. Used for cache cleaning, which lists names.
* `Pipeline.Serves`: the cache URI serves the archive that the previous build's process left.

Two results a reader might not expect:

* The vendored github.com/pkg/errors v0.8.1 has no Unwrap method, so an error wrapped with it hides
  its exit code from `errors.As`. The exact codes reach `main` because every descriptive error leaves
  `Run` unwrapped, which `Run` states.
* With two buildpacks of the same name and different keys, the report gives the second one the first
  one's key (`KeyModifier.SharedName`). Every buildpack gets its own key exactly when buildpacks that
  share a name share a key (`Results.OwnKeysReported`).

## Model

| member | source | states |
|---|---|---|
| `Running.Runner.Run` | builder/runner.go:40-99 | The scripts run on the machine are exactly the trace, whatever the outcome. A successful run replays to Released and leaves exactly the packaged file system; a failing one stopped in a phase that explains its code, with the file system as that phase has it; plain errors come only before the scripts, when only setting up has changed anything, or after all of them, when only packaging has; a descriptive error is never wrapped; with an unsuppliable buildpack no script has run and the file system is as it was after cleaning; with no faults and no obstacles it succeeds |
| `Running.Runner.Prepare` | builder/runner.go:40-52 | Directories made and cache cleaned, in a temporary contents directory, or a plain error before any script; either way nothing else has changed, the kept cache directories included |
| `Running.Runner.RunScripts` | builder/runner.go:54-75 | The scripts take the build to Released with the metadata and process types returned, or end in a descriptive error that the phase explains and in the file system that phase has |
| `Running.Runner.Package` | builder/runner.go:77-98 | Staging info, result, droplet and cache archive are written in that order, each from the state the step before left; a failure has changed nothing else and runs no script |
| `Running.Runner.CleanUp` | builder/runner.go:101-106 | Only the contents directory is removed, and nothing if none was made |
| `Running.Runner.SupplyOrDetect` | builder/runner.go:108-114 | Either way a buildpack is chosen with its metadata, or the error code is explained |
| `Running.Runner.CreateArtifacts` | builder/runner.go:116-140 | result.json, the empty directories, the app copy and the droplet archive, in that order |
| `Running.Runner.CreateCache` | builder/runner.go:142-151 | The cache archive is a snapshot of the cache directory at that moment |
| `Running.Runner.BuildpacksMetadata` | builder/runner.go:153-171 | Entry i has key i, and the name and version in config.yml of deps index i if that is a file that can be read and parsed, and empty ones otherwise |
| `Running.Runner.MakeDirectories` | builder/runner.go:173-212 | The file system after all directories are made, the contents directory being fresh; possible directories are made when nothing fails |
| `Running.Runner.MakeOuterDirs` | builder/runner.go:174-190 | Output parents, `final` and one cache directory per supply buildpack |
| `Running.Runner.MakeInnerDirs` | builder/runner.go:198-209 | One deps directory per index, and profile.d |
| `Running.Runner.CleanCacheDir` | builder/runner.go:214-239 | Exactly the listed directories that are not needed are gone, in whatever order they are visited |
| `Running.Runner.ValidateSupplyBuildpacks` | builder/runner.go:317-338 | Fails exactly when some supply buildpack has no path or no supply script; the first such one decides which message |
| `Running.Runner.RunSupplyBuildpacks` | builder/runner.go:287-315 | Supplies run in order to the choice of the final buildpack; nothing has run if validation fails |
| `Running.Runner.RunFinalize` | builder/runner.go:340-360 | Finalize or compile, by the presence of the finalize script; a failure has code 223, 225 or 227, is explained by the phase and leaves the file system of that phase |
| `Running.Runner.HandleFinalize` | builder/runner.go:362-372 | The buildpack's own supply if it has one, and then finalize |
| `Running.Runner.HandleNoFinalize` | builder/runner.go:374-391 | The last deps directory is removed before compile; a failure has code 223 |
| `Running.Runner.HandleSupply` | builder/runner.go:393-406 | Runs the final buildpack's supply script exactly when it has one |
| `Running.Runner.DetectBuildpack` | builder/runner.go:408-436 | Chooses a buildpack with its metadata, or fails with 222 when no candidate is left |
| `Running.Runner.DetectedMetadata` | builder/runner.go:425-431 | One entry, named by config.yml or else by what detect printed |
| `Running.Runner.ReleaseDroplet` | builder/runner.go:460-494 | The Procfile is read before the release script runs, and a failure of either, or of parsing, is code 224 |
| `Running.MergeProcessTypes` | builder/runner.go:478-486 | The release entries overridden by the Procfile, for every iteration order; a nil map is kept or replaced, never written to |
| `Running.Runner.WriteStagingInfoYML` | builder/runner.go:559-576 | Name of the last buildpack and the start command |
| `Running.Runner.SaveInfo` | builder/runner.go:496-516 | Key and name of the last buildpack, empty without any, with all metadata and process types |
| `Running.MetadataNonEmpty` | builder/runner.go:569 | The last metadata entry exists whenever it is read |
| `Models.TrimRight` | builder/runner.go:428 | Exactly the trailing CR and LF characters are dropped |
| `Configuration.Config.InitBuildpacks` | builder/config.go:20-38 | The names are appended in order, detection is skipped exactly if every buildpack says so, and indexing the final buildpack stays in range |
| `Configuration.SupplyAndFinal` | builder/config.go:44-51 | Supply buildpacks and the final one are the whole order |
| `Configuration.DepsIndexOrder` | builder/config.go:53-59 | The k+1 deps indices have one width, are distinct, and sort as text as their numbers do |
| `Configuration.DepsIndexText` | builder/config.go:44-59 | The deps index of buildpack i is i in decimal, at the common width; with an exact logarithm that is as many digits as the number of buildpacks has |
| `Decimal.PadOrder` | builder/config.go:56-58 | At one width, text order and equality of zero-padded numbers are those of the numbers |
| `Decimal.UniformWidth` | builder/config.go:55-58 | All indices up to k print at one width exactly when k is below the power of ten of that width |
| `Decimal.LogsAreSane` | builder/config.go:55 | The exact logarithm and one just short at powers of ten both give enough digits |
| `Layout.DepsDirsMade` | builder/runner.go:198-204 | Exactly k+1 separate deps directories are made, for every list length |
| `Layout.OutputDirsMade` | builder/runner.go:173-190 | The directories of the droplet and the result are made |
| `Prelude.HexInjective` | builder/helpers.go:20-22 | Distinct md5 sums have distinct directory names |
| `Prelude.HexText` | checksum/verifying_reader.go:20-43 | The text printed for bytes, and no other text, has two lower-case hexadecimal digits for each byte, the high one first |
| `Prelude.HexLength` | builder/helpers.go:20-22 | A digest prints as two characters per byte |
| `Traces.TraceLanguage` | builder/runner.go:40-99 | A build that reaches a release ran exactly: all supplies in order with their own cache and index, or failing detects and one that succeeds; then compile, or finalize after an optional own supply; then release; all for the chosen buildpack |
| `Traces.TraceFits` | builder/runner.go:287-436 | The trace of every build, also a failing one, fits the phase it reached |
| `Traces.FailingPrefix` | builder/runner.go:287-436 | Every trace is the front of a complete one once a failure of its last script is taken back |
| `Traces.OnlyLastFails` | builder/runner.go:287-436 | Apart from detects that were passed over, only the last script can have failed |
| `Traces.CompileOrFinalize` | builder/runner.go:349-357 | Compile and finalize never both run |
| `Traces.ExitCodes` | builder/descriptive_error.go:19-59 | 222: only detect scripts ran and all failed; 225: no compile, finalize or release; 223 and 227: no release; 224: finalize or compile succeeded; a plain error after cleaning: release succeeded |
| `Traces.LastScriptCode` | builder/descriptive_error.go:19-59 | The code goes by the last script: 222, 223, 224, 225 or 227 by its kind if it failed, and what can go wrong after it if it did not |
| `Traces.CallArguments` | builder/runner.go:287-406 | Every script is given its build, cache and deps directories and its deps index, by name |
| `Errors.FailErrors` | builder/descriptive_error.go:9-59 | The number and text of each failure, and which wrappers let the number through |
| `Lookups.ScriptIs` | builder/helpers.go:12-18 | A script is found where something is at bin/<name>, and missing where nothing is and only directories are above |
| `Lookups.UsableIs` | builder/runner.go:317-338 | A buildpack can supply if its directory is found and holds bin/supply, and detect if it holds bin/detect |
| `Lookups.ChosenRuns` | builder/runner.go:340-406 | Compile runs exactly if there is no bin/finalize; otherwise bin/supply first, if there is one |
| `Lookups.ResolveIs` | builder/runner.go:241-268 | The directory named by the lower-case md5 sum if it holds bin, or the only entry in it if that does |
| `Lookups.ProcfileIs` | builder/runner.go:438-458 | The commands are those of a Procfile that parses, or none if there is no Procfile |
| `Frames.Chained` | builder/runner.go:292-390 | Each script starts in the state the one before left, but for the deps directory removed before compile |
| `Frames.Steady` | builder/runner.go:287-406 | A path no script in between may touch is unchanged across any stretch of the trace |
| `Detection.DetectFirstMatch` | builder/runner.go:408-436 | The chosen buildpack is the least index that qualifies: every earlier candidate ran and failed; its metadata is one entry with its key, the trimmed detect output and no version |
| `Detection.NoneDetected` | builder/runner.go:435 | 222 exactly when the detect script of every candidate ran and failed |
| `Executor.ExitsUndetected` | builder/runner.go:241-262 | The process exits with 222 exactly if the detect script of every buildpack that has one was run and failed |
| `Executor.ExplainsOne` | builder/descriptive_error.go:19-59 | A phase explains one exit code |
| `MetadataAlignment.MetadataReread` | builder/runner.go:66-69 | In skip-detect mode the final metadata is read after the build scripts and before release |
| `MetadataAlignment.Aligned` | builder/runner.go:153-171 | Entry i of the final metadata has the key of buildpack i, and the name and version in the config.yml of the deps directory that script i was given, empty if that cannot be read or parsed |
| `MetadataAlignment.LastAligned` | builder/runner.go:374-391 | The last entry has the name and version in the config.yml of the directory finalize was given, and none if the buildpack was compiled |
| `MetadataAlignment.OwnMetadata` | builder/runner.go:66-69 | The entry of a supply buildpack has the name and version in the config.yml its own script left, whatever later scripts did |
| `Layout.PreparedInside` | builder/runner.go:192-209 | Before the first script the contents directory holds just the directories made in it |
| `Layout.DepsNames` | builder/runner.go:379-382 | At the end deps holds the indices 0 to k, or 0 to k-1 if the final buildpack was compiled |
| `Layout.LastDeps` | builder/runner.go:379-382 | The last deps directory stays with finalize, and is gone with its content without |
| `Droplets.DropletLayout` | builder/runner.go:116-140 | The droplet's top level is exactly app, deps, profile.d, tmp, logs and staging_info.yml; app is the build directory as release left it, deps as the build left it, tmp and logs are empty |
| `Droplets.OutputsInPlace` | builder/runner.go:134-148 | All three outputs are at their locations when the build ends |
| `CacheChain.CachePruned` | builder/runner.go:214-239 | After cleaning, the cache's top level is exactly `final` and the hash directories of the supply buildpacks, with their old content, for any prior content |
| `CacheChain.KeptApart` | builder/helpers.go:20-22 | Hash directories are neither `final` nor app.zip |
| `CacheChain.BuildIsRound` | builder/runner.go:142-151 | A completed build hands on exactly the kept top-level names, gives its scripts the old content of those, and nothing else |
| `CacheChain.KeptIffListed` | builder/runner.go:219-221 | A hash directory is kept exactly if its buildpack is among the supply buildpacks |
| `CacheChain.SurvivesIff` | builder/runner.go:214-239 | Over any number of rounds an entry survives exactly if every later round keeps its directory |
| `CacheChain.CacheSurvives` | builder/runner.go:142-239 | Over any chain of builds a buildpack's cached files survive exactly while every build lists it, and no build hands on app.zip |
| `Results.TypesMerged` | builder/runner.go:460-494 | Process types are the release output overridden by the Procfile as it was before that script |
| `Results.StagingInfoAgrees` | builder/runner.go:71-91 | Start command and buildpack name in the droplet's staging_info.yml are those of result.json |
| `Results.KeysListed` | builder/runner.go:153-171 | Metadata is never empty and names only configured buildpacks, all of them in order in skip-detect mode |
| `Results.NeverMisses` | staging_result_modifier.go:15-85 | Rewriting the keys of a produced result with the JSON it was configured from never fails, each key is that of the first entry with the name, and the buildpack key is the last entry's |
| `Results.EndToEnd` | responder.go:65-97 | The report made from result.json is that rewritten result |
| `KeyModifier.BuildpacksKeyModifier.Modify` | staging_result_modifier.go:15-30 | Only keys change; the shared slice is rewritten up to the first unknown name and the caller's own record not at all; success exactly if every name is known |
| `KeyModifier.BuildpacksKeyModifier.ModifyBuildpackKey` | staging_result_modifier.go:32-41 | The buildpack key alone is replaced, or an error if the name is unknown |
| `KeyModifier.BuildpacksKeyModifier.ModifyBuildpacks` | staging_result_modifier.go:43-54 | On a miss at index i exactly the entries before i have been rewritten |
| `KeyModifier.BuildpacksKeyModifier.GetBuildpackKey` | staging_result_modifier.go:77-85 | The loop finds the first entry with the name |
| `KeyModifier.FirstKey` | staging_result_modifier.go:77-85 | The key of the first buildpack with the name, none exactly if there is no such buildpack |
| `Results.OwnKeysReported` | staging_result_modifier.go:43-85 | In skip-detect mode the report gives every buildpack its own key exactly when buildpacks that share a name share a key |
| `KeyModifier.SharedName` | staging_result_modifier.go:43-85 | A result with a repeated name for which the second buildpack and the result are given the first one's key |
| `KeyModifier.CreateSuccessResponse` | responder.go:65-97 | The response carries the rewritten result read from the file and the completion callback as annotation, or there is none |
| `Checksum.Source.Read` | checksum/verifying_reader.go:21 | What a reader delivers and what is pending make up what was pending; an end is reported only at the end, and again on every later read |
| `Checksum.VerifyingReader.Read` | checksum/verifying_reader.go:20-35 | Exactly the delivered bytes are hashed, and at the end the checksum must be their digest in lower-case hexadecimal, however often that is asked for |
| `PackageInstalling.Copy` | package_installer.go:73-76 | For every chunking and every sequence of buffer sizes the whole body is written, and the copy succeeds exactly if the body ends cleanly and, if it is verified, the checksum is the digest of all of it in lower-case hexadecimal |
| `PackageInstalling.PackageInstaller.Install` | package_installer.go:36-49 | Only the target file changes; success means a 200 response with an acceptable body, all of which is in the file; both directions when no call faults |
| `PackageInstalling.PackageInstaller.Download` | package_installer.go:51-79 | The file is created before the request: a failed request or status leaves it empty, a rejected body leaves it whole; success needs an acceptable body |
| `Unzip.Unzipper.Extract` | unzip.go:16-44 | Success exactly if every file is strictly within the limit and can be placed, and then the entries are applied in order, plainly named ones under their names; a failure stops at an entry that cannot be placed or meets a fault, with the entries before it extracted and, of its own, at most directories and the beginning of the file up to the limit |
| `Unzip.Unzipper.ExtractFile` | unzip.go:46-74 | One file, its parents made first, strictly shorter than the limit; a failure leaves at most directories and the beginning of the file up to the limit |
| `Unzip.Unzipper.CopyN` | unzip.go:58-70 | At most the limit is written, exactly the limit if the data goes on, and that is told apart from the end of the data and from a failed write |
| `Unzip.ExtractedAt` | unzip.go:27-41 | After extraction every path holds the last file extracted to it, directories that were needed exist, and all else is unchanged |
| `Unzip.AllLanded` | unzip.go:27-41 | A plainly named directory is there and a plainly named file has its content, unless a later entry is a file at the same path |
| `Unzip.PlainJoin` | unzip.go:28 | A name without dots or empty components is appended to the target as it is |
| `Unzip.DotsCancel` | unzip.go:28 | Anywhere in a name going down and up again cancels and a dot counts for nothing; from the target the name leads up, and from the root it does not |
| `Unzip.NothingOverLimit` | unzip.go:61-70 | Whether an extraction works or fails, no file it changed is longer than the limit |
| `Unzip.StaysInTarget` | unzip.go:27-41 | An entry is extracted to somewhere in the target exactly if its name does not climb out of it, for names without the target's own last component |
| `Buildpacks.GitClone` | git_buildpack.go:10-45 | A shallow clone, and if it fails one that is not after the destination was removed; each is what git did to the file system it was run on |
| `Buildpacks.PerformGitClone` | git_buildpack.go:47-56 | The arguments git is given |
| `Buildpacks.CloneWords` | git_buildpack.go:10-56 | The words of the two commands, with the branch if there is one |
| `Buildpacks.BuildpackManager.Install` | buildpack_manager.go:59-76 | Buildpacks are installed in order, each on the file system the one before it left, until one fails; config.json is written to what the last one left, and nothing happens after a failure |
| `Buildpacks.BuildpackManager.InstallOne` | buildpack_manager.go:78-95 | The calls that lead from the file system on entry to the one on exit follow the installation protocol to its end, which is the result |
| `Buildpacks.BuildpackManager.InstallFromArchive` | buildpack_manager.go:97-133 | The part of the protocol up to the removal of the zip; only a failed extraction counts as not a zip file |
| `Buildpacks.BuildpackManager.Unpack` | buildpack_manager.go:112-132 | What was downloaded is written, the directory made, the zip extracted and removed again, each from what the step before left |
| `Buildpacks.BuildpackManager.WriteBuildpackJSON` | buildpack_manager.go:135-147 | config.json holds the buildpacks; a failed write changes that file at most and, without a fault, happens only where it cannot be written |
| `InstalledBuildpacks.GitIsTheFallback` | buildpack_manager.go:78-95 | Git is tried exactly if one of the two clients served bytes, file and directory could be made, the extraction failed, the URL parses and git is there; twice at most; installed exactly if the extraction or the last clone worked |
| `InstalledBuildpacks.InstallationKeeps` | buildpack_manager.go:78-133 | If no entry name climbs out, installing a buildpack changes nothing but its own directory, those above it and temporary ones |
| `InstalledBuildpacks.ContentsKept` | buildpack_manager.go:97-133 | After an extraction that worked the directory holds the downloaded entries, later over earlier ones, over what was there |
| `InstalledBuildpacks.ConfigComesLast` | buildpack_manager.go:67-76 | config.json is what it was unless every buildpack was installed, and lists them on success |
| `InstalledBuildpacks.EachInPlace` | buildpack_manager.go:67-76 | An installed buildpack is in its directory whatever was installed before and after it |
| `InstalledBuildpacks.AllInPlace` | buildpack_manager.go:59-76 | After success every buildpack is in its directory, as the downloaded zip or a clone has it, and config.json lists them |
| `Downloader.RunDownloader` | cmd/downloader/downloader.go:20-70 | Installers run in order, each on what the one before it left and doing what its kind does, up to the first failure, which is reported once; none runs with an unsupported checksum algorithm; after the last the cache archive is unpacked; 0 exactly if all of that worked |
| `Downloader.InstallPackage` | cmd/downloader/downloader.go:45-55 | app.zip holds a good body of the URL, verified if there is a checksum, or the installer fails for a reason |
| `Downloader.UntarCache` | cmd/downloader/downloader.go:72-85 | The stored archive is unpacked over the cache directory; that fails only for a reason and leaves at most part of its content |
| `Downloader.CacheUntouched` | cmd/downloader/downloader.go:45-66 | Nothing changes the cache directory before its installer |
| `Downloader.ExitZeroProvides` | cmd/downloader/downloader.go:45-70 | Exit code 0 leaves the app bits, every buildpack and the restored cache where the executor looks for them |
| `Pipeline.RestoredIsUnpacked` | cmd/downloader/downloader.go:50-85 | On an empty volume restoring the handed-on archive gives its content, with app.zip beside it |
| `Pipeline.CacheHandedOn` | cmd/downloader/downloader.go:50-85 | The next build starts with the cache that was handed on |
| `Executor.RunExecutor` | cmd/executor/executor.go:22-81 | The scripts run on the machine are exactly those of the account. 0 exactly for a completed build, with no report; the code of a descriptive error otherwise, or 1; one report for every failure once there is a responder; the build starts from what extracting the app bits made of the file system on entry; what it left is changed only by removing the contents and build directories; the outputs survive that and the report on them is not refused |
| `Executor.Execute` | cmd/executor/executor.go:83-88 | The account of the build on the file system on entry, with what it left, failed or not; from that only the contents directory is removed |
| `Executor.ExtractBits` | cmd/executor/executor.go:90-104 | The app bits are extracted in full, plainly named entries under their names and every file shorter than 10737418240 bytes, to a new temporary directory in the file system on entry; without a fault exactly if that is possible |
| `Executor.ExitCodeStory` | cmd/executor/executor.go:69-80 | What the exit code of the process says about the scripts that ran: only detects for 222, no compile, finalize or release for 225, no finalize or release for 223, no compile or release for 227, one of the two for 224 |
| `Executor.ExitCodeOfLastScript` | cmd/executor/executor.go:69-80 | The number the process exits with, by the last script of its build |
| `Executor.FailureLeavesOutputs` | cmd/executor/executor.go:69-80 | A build that ends with one of its own exit codes leaves droplet, cache archive and result file as they were |
| `Executor.ExitZeroCompleted` | cmd/executor/executor.go:69-80 | Exit code 0 accounts for a completed build on what the process was given, to which the layout, metadata and cache results apply |
| `Pipeline.BuildsWhatWasProvided` | cmd/executor/executor.go:90-104 | The executor's build directory holds exactly the entries of the app bits that were downloaded, and its buildpacks are those that were installed |
| `Pipeline.BuildpacksHandedOver` | buildpack_manager.go:78-95 | Each buildpack the downloader installed is in the directory in which the executor looks for it, named by the md5 sum |
| `Pipeline.ResolvesInstalled` | builder/runner.go:241-268 | An extracted buildpack is found: in that directory if its zip has an entry in bin, in the nested one if the zip has one top-level directory that holds bin |
| `Pipeline.BuildpackFound` | builder/runner.go:241-268 | A downloaded buildpack is still found when the first script of the build is run |
| `Pipeline.NextBuild` | cmd/executor/executor.go:22-81 | If the archive the last build left is served to a downloader and both processes exit with 0, the chain of builds has one more |
| `Scenario.ABuildCompletes` | builder/runner.go:40-99 | What the theorems assume of machine, places, scripts and logarithm can be met together, by a build that runs supply, compile and release to the end and can be packaged |
| `Scenario.BuildsChain` | cmd/downloader/downloader.go:50-85 | Chains of completed builds, each starting from the cache the one before it handed on, exist at every length, and a supply buildpack's cached entry survives them |

## Left out

- HTTP, TLS, certificates and the completion callback: a download is an oracle's response.
- The uploader process, apart from the response it prepares.
- JSON, YAML, tar, zip, md5 and sha256 themselves: decoders are oracles, digests uninterpreted.
- File modes, symbolic links, ownership, logging, environment variables and flags.
- Raw path strings: paths are component lists. Only names in zip files may hold `.`, `..` and empty
  components (`Unzip.Join`); those of rooted names are taken to be dropped by the decoder. An empty
  directory setting is the empty list.
- Error texts, apart from the fixed messages of descriptive errors.
- A configuration changed after the runner was made: the runner takes its value at construction.
- Transient read failures: a path is readable or not for a whole build.
- Running.Runner.Run: a failing `cp` or `tar` may leave any part of its output; which part is not said.
- PackageInstalling.Copy: writing to the file does not fail, as the disk is not modelled.
- Buildpacks.GitClone: what git writes is an oracle; nothing is assumed of it but `World.ConfinedGit`.
- InstalledBuildpacks.AllInPlace: of a buildpack that was cloned it says that a clone left it so, not on
  which file system that clone was run; the account of `InstallOne` says that.
