/** staging_result_modifier.go and the success path of responder.go: the buildpack names in a
    staging result are replaced by the keys the cloud controller knows them by. */
module KeyModifier {
  import opened Prelude
  import opened FileSystem
  import opened Models
  import opened Errors
  import opened World

  /** A staging result in memory: the record is a value, its buildpacks a shared slice. */
  type SharedResult = StagingResult<array<BuildpackMetadata>>
  type FileResult = StagingResult<seq<BuildpackMetadata>>

  /** The key of the first buildpack with this name. */
  function FirstKey(name: string, buildpacks: seq<Buildpack>): (key: Option<string>)
    ensures key.None? <==> forall i :: 0 <= i < |buildpacks| ==> buildpacks[i].name != name
    ensures key.Some? ==>
              exists i :: && 0 <= i < |buildpacks| && buildpacks[i].name == name
                          && key.value == buildpacks[i].key
                          && forall j :: 0 <= j < i ==> buildpacks[j].name != name
  {
    if buildpacks == [] then None
    else if buildpacks[0].name == name then Some(buildpacks[0].key)
    else
      var rest := FirstKey(name, buildpacks[1..]);
      assert forall i :: 0 < i < |buildpacks| ==> buildpacks[i] == buildpacks[1..][i - 1];
      assert rest.Some? ==>
          exists i :: && 0 <= i < |buildpacks| && buildpacks[i].name == name
                      && rest.value == buildpacks[i].key
                      && forall j :: 0 <= j < i ==> buildpacks[j].name != name by {
        if rest.Some? {
          var i :| && 0 <= i < |buildpacks| - 1 && buildpacks[1..][i].name == name
                   && rest.value == buildpacks[1..][i].key
                   && forall j :: 0 <= j < i ==> buildpacks[1..][j].name != name;
          assert buildpacks[i + 1] == buildpacks[1..][i];
        }
      }
      rest
  }

  /** The first index from i whose key is not among the buildpacks, or the length. */
  function FirstMiss(metas: seq<BuildpackMetadata>, buildpacks: seq<Buildpack>, i: nat): (n: nat)
    requires i <= |metas|
    ensures i <= n <= |metas|
    ensures forall k :: i <= k < n ==> FirstKey(metas[k].key, buildpacks).Some?
    ensures n < |metas| ==> FirstKey(metas[n].key, buildpacks).None?
    decreases |metas| - i
  {
    if i == |metas| || FirstKey(metas[i].key, buildpacks).None? then i
    else FirstMiss(metas, buildpacks, i + 1)
  }

  function Rekeyed(meta: BuildpackMetadata, buildpacks: seq<Buildpack>): BuildpackMetadata {
    var key := FirstKey(meta.key, buildpacks);
    if key.Some? then meta.(key := key.value) else meta
  }

  /** The first n entries rewritten, the rest as they are. */
  function RekeyedTo(metas: seq<BuildpackMetadata>, buildpacks: seq<Buildpack>, n: nat): (r: seq<BuildpackMetadata>)
    requires n <= |metas|
    ensures |r| == |metas|
  {
    seq(|metas|, i requires 0 <= i < |metas| => if i < n then Rekeyed(metas[i], buildpacks) else metas[i])
  }

  /** What Modify returns, as values: None if any name is unknown. */
  function Modified(result: FileResult, buildpacks: seq<Buildpack>): Option<FileResult> {
    var key := FirstKey(result.buildpackKey, buildpacks);
    if key.None? || FirstMiss(result.buildpacks, buildpacks, 0) < |result.buildpacks| then None
    else Some(result.(buildpackKey := key.value,
                      buildpacks := RekeyedTo(result.buildpacks, buildpacks, |result.buildpacks|)))
  }

  ghost function View(result: SharedResult): FileResult
    reads result.buildpacks
  {
    StagingResult(result.buildpackKey, result.detectedBuildpack, result.buildpacks[..],
                  result.processTypes, result.executionMetadata, result.lifecycleType)
  }

  class BuildpacksKeyModifier {
    const ccBuildpacksJSON: string

    constructor (json: string)
      ensures ccBuildpacksJSON == json
    {
      ccBuildpacksJSON := json;
    }

    /** The shared slice is rewritten in place, up to the first unknown name; the caller's record
        is not, and the returned one differs from it in the buildpack key alone. */
    method Modify(result: SharedResult, decode: string -> Option<seq<Buildpack>>)
      returns (modified: SharedResult, err: Option<Error>)
      modifies result.buildpacks
      ensures decode(ccBuildpacksJSON).None? ==>
                err.Some? && result.buildpacks[..] == old(result.buildpacks[..])
      ensures decode(ccBuildpacksJSON).Some? ==>
                var bps, metas := decode(ccBuildpacksJSON).value, old(result.buildpacks[..]);
                && (FirstKey(result.buildpackKey, bps).None? ==> err.Some? && result.buildpacks[..] == metas)
                && (FirstKey(result.buildpackKey, bps).Some? ==>
                      result.buildpacks[..] == RekeyedTo(metas, bps, FirstMiss(metas, bps, 0)))
                && (err.None? <==> Modified(old(View(result)), bps).Some?)
                && (err.None? ==>
                      modified.buildpacks == result.buildpacks &&
                      View(modified) == Modified(old(View(result)), bps).value)
    {
      modified := result;
      var provided := decode(ccBuildpacksJSON);
      if provided.None? {
        return modified, Some(Formatted("failed to unmarshal buildpacks JSON", Plain("json")));
      }
      modified, err := ModifyBuildpackKey(modified, provided.value);
      if err.Some? {
        return;
      }
      err := ModifyBuildpacks(modified, provided.value);
    }

    method ModifyBuildpackKey(result: SharedResult, buildpacks: seq<Buildpack>)
      returns (modified: SharedResult, err: Option<Error>)
      ensures err.None? <==> FirstKey(result.buildpackKey, buildpacks).Some?
      ensures err.None? ==>
                modified == result.(buildpackKey := FirstKey(result.buildpackKey, buildpacks).value)
    {
      var key := GetBuildpackKey(result.buildpackKey, buildpacks);
      if key.None? {
        return result, Some(Plain("could not find buildpack with name"));
      }
      return result.(buildpackKey := key.value), None;
    }

    method ModifyBuildpacks(result: SharedResult, buildpacks: seq<Buildpack>) returns (err: Option<Error>)
      modifies result.buildpacks
      ensures var metas := old(result.buildpacks[..]);
              && result.buildpacks[..] == RekeyedTo(metas, buildpacks, FirstMiss(metas, buildpacks, 0))
              && (err.None? <==> FirstMiss(metas, buildpacks, 0) == |metas|)
    {
      var slice := result.buildpacks;
      ghost var metas := slice[..];
      for i := 0 to slice.Length
        invariant FirstMiss(metas, buildpacks, 0) == FirstMiss(metas, buildpacks, i)
        invariant slice[..] == RekeyedTo(metas, buildpacks, i)
      {
        assert slice[i] == slice[..][i] == metas[i];
        var key := GetBuildpackKey(slice[i].key, buildpacks);
        if key.None? {
          return Some(Plain("could not find buildpack with name"));
        }
        slice[i] := slice[i].(key := key.value);
        assert slice[..] == RekeyedTo(metas, buildpacks, i + 1);
      }
      return None;
    }

    method GetBuildpackKey(name: string, buildpacks: seq<Buildpack>) returns (key: Option<string>)
      ensures key == FirstKey(name, buildpacks)
    {
      for i := 0 to |buildpacks|
        invariant FirstKey(name, buildpacks) == FirstKey(name, buildpacks[i..])
      {
        assert buildpacks[i..][1..] == buildpacks[i + 1..];
        if buildpacks[i].name == name {
          return Some(buildpacks[i].key);
        }
      }
      assert buildpacks[|buildpacks|..] == [];
      return None;
    }
  }

  /** What the staging task reports back. */
  datatype TaskResponse = TaskResponse(taskGuid: string, failed: bool, result: Bytes, annotation: string)

  /** The staging result as reported: read from result.json, with its keys rewritten. */
  function Reported(env: Env, fs: FS, path: Path, json: string): Option<FileResult> {
    match ReadFile(env, fs, path)
    case Contents(bytes) =>
      var decoded, buildpacks := env.codecs.decodeResult(bytes), env.codecs.buildpacks(json);
      if decoded.Some? && buildpacks.Some? then Modified(decoded.value, buildpacks.value) else None
    case _ => None
  }

  /** `createSuccessResponse`. */
  method CreateSuccessResponse(world: World, stagingGuid: string, completionCallback: string, path: Path, json: string)
    returns (response: Option<TaskResponse>)
    ensures Reported(world.env, world.fs, path, json).None? ==> response.None?
    ensures Reported(world.env, world.fs, path, json).Some? ==>
              response == Some(TaskResponse(stagingGuid, false,
                world.env.codecs.encodeResult(Reported(world.env, world.fs, path, json).value),
                world.env.codecs.encodeAnnotation(completionCallback)))
  {
    var codecs := world.env.codecs;
    var contents := ReadFile(world.env, world.fs, path);
    if !contents.Contents? {
      return None;
    }
    var decoded := codecs.decodeResult(contents.bytes);
    if decoded.None? {
      return None;
    }
    var metas := decoded.value.buildpacks;
    var slice := new BuildpackMetadata[|metas|](i requires 0 <= i < |metas| => metas[i]);
    assert slice[..] == metas;
    var shared := StagingResult(decoded.value.buildpackKey, decoded.value.detectedBuildpack, slice,
                                decoded.value.processTypes, decoded.value.executionMetadata,
                                decoded.value.lifecycleType);
    assert View(shared) == decoded.value;
    var modifier := new BuildpacksKeyModifier(json);
    var modified, err := modifier.Modify(shared, codecs.buildpacks);
    if err.Some? {
      return None;
    }
    var out := StagingResult(modified.buildpackKey, modified.detectedBuildpack, modified.buildpacks[..],
                             modified.processTypes, modified.executionMetadata, modified.lifecycleType);
    return Some(TaskResponse(stagingGuid, false, codecs.encodeResult(out),
                             codecs.encodeAnnotation(completionCallback)));
  }

  /** Buildpacks with the same name have the same key. */
  ghost predicate NamesHaveOneKey(buildpacks: seq<Buildpack>) {
    forall i, j :: 0 <= i < j < |buildpacks| && buildpacks[i].name == buildpacks[j].name ==>
      buildpacks[i].key == buildpacks[j].key
  }

  lemma OwnKeys(buildpacks: seq<Buildpack>)
    ensures (forall i :: 0 <= i < |buildpacks| ==>
               FirstKey(buildpacks[i].name, buildpacks) == Some(buildpacks[i].key)) <==>
            NamesHaveOneKey(buildpacks)
  {
    hide FirstKey;
    if NamesHaveOneKey(buildpacks) {
      forall i | 0 <= i < |buildpacks|
        ensures FirstKey(buildpacks[i].name, buildpacks) == Some(buildpacks[i].key)
      {
        var key := FirstKey(buildpacks[i].name, buildpacks);
        assert key.Some?;
        var k :| 0 <= k < |buildpacks| && buildpacks[k].name == buildpacks[i].name && key.value == buildpacks[k].key;
      }
    } else {
      var i, j :| 0 <= i < j < |buildpacks| && buildpacks[i].name == buildpacks[j].name &&
                  buildpacks[i].key != buildpacks[j].key;
      assert FirstKey(buildpacks[i].name, buildpacks) == FirstKey(buildpacks[j].name, buildpacks);
    }
  }

  /** With a repeated name and different keys the report gives the second buildpack, and the result as
      a whole, the first one's key. */
  lemma SharedName(result: FileResult)
    requires result.buildpackKey == "ruby" && |result.buildpacks| == 2
    requires result.buildpacks[0].key == result.buildpacks[1].key == "ruby"
    ensures var buildpacks := [Buildpack("ruby", "key-1", "", true), Buildpack("ruby", "key-2", "", true)];
            var out := Modified(result, buildpacks);
            && out.Some? && out.value.buildpackKey == "key-1"
            && out.value.buildpacks[0].key == out.value.buildpacks[1].key == "key-1" != buildpacks[1].key
  {
    var buildpacks := [Buildpack("ruby", "key-1", "", true), Buildpack("ruby", "key-2", "", true)];
    assert FirstKey("ruby", buildpacks) == Some("key-1");
    assert FirstMiss(result.buildpacks, buildpacks, 0) == 2;
  }
}
