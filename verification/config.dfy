/** builder/config.go. */
module Configuration {
  import opened Prelude
  import opened Decimal
  import opened FileSystem
  import opened Models
  import opened Errors

  /** The directories and files a build is given. */
  datatype Places = Places(
    buildDir: Path,
    buildpacksDir: Path,
    outputDroplet: Path,
    outputCache: Path,
    outputMetadata: Path,
    cacheDir: Path)

  /** A configuration as a value: the Go methods with a value receiver. */
  datatype Settings = Settings(places: Places, order: seq<string>, skipDetect: bool) {
    function SupplyBuildpacks(): seq<string> {
      if !skipDetect || |order| == 0 then [] else order[..|order| - 1]
    }

    /** `log10` truncates the logarithm to an integer. */
    function DepsIndex(i: nat, log10: nat -> nat): string {
      ZeroPad(i, log10(|SupplyBuildpacks()| + 1) + 1)
    }

    /** Indexing the final buildpack, and the last metadata entry, stays in range. */
    predicate InRange() {
      skipDetect ==> order != []
    }
  }

  /** The deps index of each of the k+1 buildpacks has one common width; as text the indices are
      distinct and sort as the numbers do. */
  lemma DepsIndexOrder(c: Settings, log10: nat -> nat, i: nat, j: nat)
    requires SaneLog10(log10)
    requires i <= |c.SupplyBuildpacks()| && j <= |c.SupplyBuildpacks()|
    ensures |c.DepsIndex(i, log10)| == |c.DepsIndex(j, log10)|
    ensures LexLess(c.DepsIndex(i, log10), c.DepsIndex(j, log10)) <==> i < j
    ensures c.DepsIndex(i, log10) == c.DepsIndex(j, log10) <==> i == j
  {
    var n := |c.SupplyBuildpacks()| + 1;
    assert n <= Pow10(log10(n) + 1);
    PadOrder(i, j, log10(n) + 1);
  }

  /** The deps index of buildpack i is i in decimal; with an exact logarithm it has just as many digits
      as the number of buildpacks. */
  lemma DepsIndexText(c: Settings, log10: nat -> nat, i: nat)
    requires SaneLog10(log10) && i <= |c.SupplyBuildpacks()|
    ensures var text, n := c.DepsIndex(i, log10), |c.SupplyBuildpacks()| + 1;
            && Digits(text) && DecimalValue(text) == i && |text| == log10(n) + 1
            && (log10 == FloorLog10 ==> Pow10(|text| - 1) <= n < Pow10(|text|))
  {
    hide ZeroPad, Digits, DecimalValue, Pow10, FloorLog10;
    var n := |c.SupplyBuildpacks()| + 1;
    assert n <= Pow10(log10(n) + 1);
    PadText(i, log10(n) + 1);
    UniformWidth(i, log10(n) + 1);
    FloorLog10Bounds(n);
  }

  /** Together with the final buildpack, the supply buildpacks are the whole order. */
  lemma SupplyAndFinal(c: Settings)
    requires c.skipDetect && c.InRange()
    ensures |c.SupplyBuildpacks()| < |c.order|
    ensures c.SupplyBuildpacks() + [c.order[|c.SupplyBuildpacks()|]] == c.order
  {
  }

  function NamesOf(buildpacks: seq<Buildpack>): (names: seq<string>)
    ensures |names| == |buildpacks|
    ensures forall i :: 0 <= i < |names| ==> names[i] == buildpacks[i].name
  {
    seq(|buildpacks|, i requires 0 <= i < |buildpacks| => buildpacks[i].name)
  }

  predicate AllSkip(buildpacks: seq<Buildpack>) {
    forall b :: b in buildpacks ==> b.skipDetect
  }

  class Config {
    const places: Places
    var order: seq<string>
    var skipDetect: bool

    constructor (places: Places)
      ensures this.places == places && Value() == Settings(places, [], false)
    {
      this.places := places;
      order, skipDetect := [], false;
    }

    function Value(): Settings
      reads this
    {
      Settings(places, order, skipDetect)
    }

    /** `decode` parses the JSON text; None is a parse error. */
    method InitBuildpacks(json: string, decode: string -> Option<seq<Buildpack>>)
      returns (err: Option<Error>)
      modifies this
      ensures err.Some? <==> json != "" && decode(json).None?
      ensures err.Some? ==> Value() == old(Value()) && AsDescriptive(err.value).None?
      ensures json == "" || decode(json) == Some([]) ==> Value() == old(Value())
      ensures json != "" && decode(json).Some? && decode(json).value != [] ==>
                order == old(order) + NamesOf(decode(json).value) &&
                skipDetect == AllSkip(decode(json).value) &&
                (skipDetect <==> forall i :: 0 <= i < |decode(json).value| ==> decode(json).value[i].skipDetect)
      ensures old(Value().InRange()) ==> Value().InRange()
    {
      if json != "" {
        var decoded := decode(json);
        if decoded.None? {
          return Some(Formatted("failed to unmarshal buildpack JSON", Plain("json")));
        }
        var buildpacks := decoded.value;
        if |buildpacks| > 0 {
          skipDetect := true;
          for i := 0 to |buildpacks|
            invariant order == old(order) + NamesOf(buildpacks)[..i]
            invariant skipDetect == AllSkip(buildpacks[..i])
          {
            order := order + [buildpacks[i].name];
            skipDetect := skipDetect && buildpacks[i].skipDetect;
            assert buildpacks[..i + 1] == buildpacks[..i] + [buildpacks[i]];
          }
          assert buildpacks[..|buildpacks|] == buildpacks;
        }
      }
      return None;
    }
  }
}
