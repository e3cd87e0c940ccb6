/** The results of a build as others read them: staging_info.yml in the droplet, result.json, and
    the report to the cloud controller. */
module Results {
  import opened Prelude
  import opened FileSystem
  import opened Models
  import opened Configuration
  import opened World
  import opened Protocol
  import opened Frames
  import opened Layout
  import opened Droplets
  import opened KeyModifier
  import opened Running
  import opened Lookups

  // ----- Process types

  lemma StepTypes(job: Job, s: Phase, e: Event)
    requires job.Step(s, e).Released?
    ensures s.Built? && job.env.codecs.release(e.output).Some? && job.Procfile(s.fs).Some?
    ensures job.Step(s, e).built == s.fs && job.Step(s, e).meta == s.meta
    ensures job.Step(s, e).types == job.Merge(job.env.codecs.release(e.output).value, job.Procfile(s.fs).value)
  {
    hide Stat, Job.Resolve, Job.Hash, Job.Metadata, Job.DetectedMeta, Job.DepsIndex, Job.Procfile, Job.Merge;
  }

  /** The process types are those the release script printed, overridden by the Procfile as it was
      before that script ran. */
  lemma TypesMerged(job: Job, start: FS, t: seq<Event>)
    requires job.Replay(start, t).Released?
    ensures t != [] && job.env.codecs.release(t[|t| - 1].output).Some? && job.Procfile(t[|t| - 1].before).Some?
    ensures var s, e := job.Replay(start, t), t[|t| - 1];
            var release, procfile := job.env.codecs.release(e.output).value, job.Procfile(e.before).value;
            && Commands(job.env, e.before, job.config.places.buildDir + ["Procfile"], procfile)
            && forall k :: s.types.Lookup(k) == if k in procfile then procfile[k] else release.Lookup(k)
  {
    hide Job.Step, Job.Procfile, Commands;
    var front, e := t[..|t| - 1], t[|t| - 1];
    StepTypes(job, job.Replay(start, front), e);
    StepState(job, job.Replay(start, front), e);
    NotCompile(job, job.Replay(start, front), e);
    ProcfileIs(job, e.before, job.Procfile(e.before).value);
  }

  lemma NotCompile(job: Job, s: Phase, e: Event)
    requires job.Step(s, e).Released?
    ensures !e.inv.Compile?
  {
    hide Stat, Job.Resolve, Job.Hash, Job.Metadata, Job.DetectedMeta, Job.DepsIndex, Job.Procfile, Job.Merge;
  }

  /** The start command and buildpack name in the droplet's staging_info.yml are those of
      result.json. */
  lemma StagingInfoAgrees(job: Job, fs0: FS, start: FS, t: seq<Event>)
    requires Completed(job, fs0, start, t) && RoundTrips(job.env.codecs)
    ensures var rel, codecs := job.Replay(start, t), job.env.codecs;
            var out := job.Packaged(rel);
            exists tree, info, infoBytes, result, resultBytes, dropletBytes ::
              && At(out, job.config.places.outputDroplet) == Some(File(dropletBytes))
              && codecs.untar(dropletBytes) == Some(tree)
              && At(tree, ["staging_info.yml"]) == Some(File(infoBytes))
              && codecs.decodeInfo(infoBytes) == Some(info)
              && At(out, job.config.places.outputMetadata) == Some(File(resultBytes))
              && codecs.decodeResult(resultBytes) == Some(result)
              && info.startCommand == result.processTypes.Lookup("web")
              && info.detectedBuildpack == result.detectedBuildpack
              && rel.meta != []
              && var last := rel.meta[|rel.meta| - 1];
                 result == StagingResult(last.key, last.name, rel.meta, rel.types, "", "buildpack")
  {
    hide Job.Replay, Job.Droplet, Job.OutputCache, Job.Packaged, SetUp, Job.CanPackage, AllConfined;
    var rel, codecs := job.Replay(start, t), job.env.codecs;
    assert Separate(job.config.places, job.contentsDir) by { SetUpSeparate(job, fs0, start); }
    MetadataNonEmpty(job, start, t);
    OutputsInPlace(job, rel);
    InfoArchived(job, fs0, start, t);
    var tree, info, result := job.Droplet(rel), job.Info(rel), job.Result(rel);
    assert codecs.untar(codecs.tar(tree)) == Some(tree);
    assert codecs.decodeInfo(codecs.encodeInfo(info)) == Some(info);
    assert codecs.decodeResult(codecs.encodeResult(result)) == Some(result);
  }

  lemma SetUpSeparate(job: Job, fs0: FS, start: FS)
    requires SetUp(job, fs0, start)
    ensures Separate(job.config.places, job.contentsDir)
  {
  }

  // ----- Keys

  /** Metadata names only buildpacks of the configured order, and there is some. */
  ghost predicate Listed(job: Job, s: Phase) {
    && (s.Supplying? ==> job.config.skipDetect) && (s.Detecting? ==> !job.config.skipDetect)
    && ((s.Chosen? || s.FinalSupplied? || s.Built? || s.Released?) ==>
      && s.meta != []
      && (forall i :: 0 <= i < |s.meta| ==> s.meta[i].key in job.config.order)
      && (job.config.skipDetect ==> |s.meta| == |job.config.order| &&
                                    forall i :: 0 <= i < |s.meta| ==> s.meta[i].key == job.config.order[i]))
  }

  lemma MetadataListed(job: Job, fs: FS)
    ensures var metas := job.Metadata(fs, job.config.order);
            forall i :: 0 <= i < |metas| ==> metas[i].key == job.config.order[i] && metas[i].key in job.config.order
  {
    hide Job.ReadConfigYml, Job.DepsIndex;
  }

  lemma ListedStep(job: Job, s: Phase, e: Event)
    requires Listed(job, s) && job.config.InRange() && job.Step(s, e) != Wrong
    ensures Listed(job, job.Step(s, e))
  {
    hide Stat, Job.Resolve, Job.Hash, Job.Metadata, Job.Meta, Job.DepsIndex, Job.Procfile, Job.Merge, Job.Script;
    hide Job.SupplyCall, Job.FinalizeCall, Job.CompileCall, Job.DepsSubDir, Pruned;
    MetadataListed(job, s.fs);
    MetadataListed(job, e.after);
    if s.Detecting? {
      DetectedListed(job, s, e);
    }
  }

  lemma DetectedListed(job: Job, s: Phase, e: Event)
    requires s.Detecting?
    ensures var s' := job.Step(s, e); s'.Chosen? ==> |s'.meta| == 1 && s'.meta[0].key in job.config.order
  {
    hide Stat, Job.Resolve, Job.Hash, Job.ReadConfigYml, Job.DepsIndex, Job.Script;
  }

  lemma {:induction false} KeysListed(job: Job, start: FS, t: seq<Event>)
    requires job.config.InRange() && job.Replay(start, t) != Wrong
    ensures Listed(job, job.Replay(start, t))
  {
    hide Job.Step, Listed;
    if t == [] {
      assert Listed(job, job.Start(start)) by { ListedStart(job, start); }
    } else {
      var front := t[..|t| - 1];
      StepState(job, job.Replay(start, front), t[|t| - 1]);
      KeysListed(job, start, front);
      ListedStep(job, job.Replay(start, front), t[|t| - 1]);
    }
  }

  lemma ListedStart(job: Job, start: FS)
    ensures Listed(job, job.Start(start))
  {
    hide Job.AllSuppliable;
  }

  /** When the order comes from the buildpacks JSON, rewriting the keys of the result never misses:
      every key becomes that of the first entry with its name, the result's buildpack key that of
      the last metadata entry, and nothing else changes. */
  lemma NeverMisses(job: Job, start: FS, t: seq<Event>, buildpacks: seq<Buildpack>)
    requires job.config.order == NamesOf(buildpacks) && job.config.InRange()
    requires job.Replay(start, t).Released?
    ensures var rel := job.Replay(start, t);
            var result := job.Result(rel);
            && Modified(result, buildpacks).Some?
            && var out := Modified(result, buildpacks).value;
            && |out.buildpacks| == |rel.meta| > 0
            && out.buildpackKey == out.buildpacks[|rel.meta| - 1].key
            && out == result.(buildpackKey := out.buildpackKey, buildpacks := out.buildpacks)
            && (forall i :: 0 <= i < |rel.meta| ==>
                  && FirstKey(rel.meta[i].key, buildpacks) == Some(out.buildpacks[i].key)
                  && out.buildpacks[i] == rel.meta[i].(key := out.buildpacks[i].key))
            && (job.config.skipDetect ==> |rel.meta| == |buildpacks| &&
                                          forall i :: 0 <= i < |buildpacks| ==> rel.meta[i].key == buildpacks[i].name)
  {
    hide Job.Replay, FirstKey;
    var rel := job.Replay(start, t);
    KeysListed(job, start, t);
    forall i | 0 <= i < |rel.meta|
      ensures FirstKey(rel.meta[i].key, buildpacks).Some?
    {
      assert rel.meta[i].key in NamesOf(buildpacks);
      var k :| 0 <= k < |buildpacks| && NamesOf(buildpacks)[k] == rel.meta[i].key;
      assert buildpacks[k].name == rel.meta[i].key;
    }
    assert FirstMiss(rel.meta, buildpacks, 0) == |rel.meta|;
  }

  /** In skip-detect mode the report gives each buildpack its own key exactly when buildpacks that
      share a name share a key. */
  lemma OwnKeysReported(job: Job, start: FS, t: seq<Event>, buildpacks: seq<Buildpack>)
    requires job.config.order == NamesOf(buildpacks) && job.config.InRange() && job.config.skipDetect
    requires job.Replay(start, t).Released?
    ensures var out := Modified(job.Result(job.Replay(start, t)), buildpacks);
            && out.Some? && |out.value.buildpacks| == |buildpacks|
            && ((forall i :: 0 <= i < |buildpacks| ==> out.value.buildpacks[i].key == buildpacks[i].key) <==>
                NamesHaveOneKey(buildpacks))
  {
    hide Job.Replay, FirstKey, Modified, NamesHaveOneKey, NamesOf, Job.Result;
    var rel := job.Replay(start, t);
    NeverMisses(job, start, t, buildpacks);
    OwnKeys(buildpacks);
    var out := Modified(job.Result(rel), buildpacks).value;
    assert forall i :: 0 <= i < |buildpacks| ==>
        FirstKey(buildpacks[i].name, buildpacks) == Some(out.buildpacks[i].key);
  }

  /** From the JSON the build was configured with to the report made from its result.json with the
      same JSON: the report is never refused, and carries the rewritten result. */
  lemma EndToEnd(job: Job, start: FS, t: seq<Event>, json: string, buildpacks: seq<Buildpack>)
    requires job.env.codecs.buildpacks(json) == Some(buildpacks) && job.config.order == NamesOf(buildpacks)
    requires job.config.InRange() && job.Replay(start, t).Released?
    requires Separate(job.config.places, job.contentsDir) && RoundTrips(job.env.codecs)
    requires !job.env.unreadable(job.config.places.outputMetadata)
    ensures var rel := job.Replay(start, t);
            && Modified(job.Result(rel), buildpacks).Some?
            && Reported(job.env, job.Packaged(rel), job.config.places.outputMetadata, json)
               == Modified(job.Result(rel), buildpacks)
  {
    hide Job.Replay, Job.Packaged, Modified, Job.Result, Job.Droplet, Job.OutputCache, NamesOf;
    var rel := job.Replay(start, t);
    NeverMisses(job, start, t, buildpacks);
    OutputsInPlace(job, rel);
    assert job.env.codecs.decodeResult(job.env.codecs.encodeResult(job.Result(rel))) == Some(job.Result(rel));
  }
}
