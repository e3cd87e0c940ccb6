/** The records of builder/models.go. */
module Models {

  datatype Buildpack = Buildpack(name: string, key: string, url: string, skipDetect: bool)

  datatype BuildpackMetadata = BuildpackMetadata(key: string, name: string, version: string)

  /** A Go map that may be nil: reading a nil map is allowed, writing to it is not. */
  datatype ProcessTypes = NilTypes | Types(entries: map<string, string>) {
    function Entries(): map<string, string> {
      if NilTypes? then map[] else entries
    }

    /** `types[name]`: a missing key reads as the empty string. */
    function Lookup(name: string): string {
      if name in Entries() then Entries()[name] else ""
    }
  }

  datatype StagingInfo = StagingInfo(detectedBuildpack: string, startCommand: string)

  /** The staging result. `B` is the list of buildpacks: a sequence in a file, a shared slice
      in memory. */
  datatype StagingResult<B> = StagingResult(
    buildpackKey: string,
    detectedBuildpack: string,
    buildpacks: B,
    processTypes: ProcessTypes,
    executionMetadata: string,
    lifecycleType: string)

  function NewStagingResult<B>(types: ProcessTypes, key: string, detected: string, buildpacks: B)
    : StagingResult<B>
  {
    StagingResult(key, detected, buildpacks, types, "", "buildpack")
  }

  /** `strings.TrimRight(text, "\r\n")`. */
  function TrimRight(text: string): (r: string)
    ensures r <= text && (r != "" ==> r[|r| - 1] != '\r' && r[|r| - 1] != '\n')
    ensures forall i :: |r| <= i < |text| ==> text[i] == '\r' || text[i] == '\n'
  {
    if text != "" && (text[|text| - 1] == '\r' || text[|text| - 1] == '\n')
    then TrimRight(text[..|text| - 1]) else text
  }
}
