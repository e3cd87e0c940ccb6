/** package_installer.go: downloads a file, checking it on the way if asked to. */
module PackageInstalling {
  import opened Prelude
  import opened FileSystem
  import opened Errors
  import opened World
  import opened Checksum

  const APP_BITS := "app.zip"

  /** The response body itself, or wrapped in a verifying reader. */
  datatype BodyReader<S(!new)> = Raw(source: Source) | Verified(reader: VerifyingReader<S>) {
    function Body(): Source {
      if Raw? then source else reader.reader
    }

    ghost predicate Sound() {
      Verified? ==> Incremental(reader.hash.algo)
    }

    /** Everything a read may change, besides the buffer. */
    ghost function Footprint(): set<object> {
      {Body()} + if Verified? then {reader.hash} else {}
    }
  }

  /** What a copy must end with to succeed, for the hash state when it began. */
  ghost function CopyVerdict<S(!new)>(r: BodyReader<S>, state: Option<S>, bytes: Bytes): ReadError
    requires r.Verified? ==> state.Some?
  {
    if r.Raw? then r.source.End()
    else Verdict(r.reader.hash.algo, r.reader.hash.algo.update(state.value, bytes), r.reader.checkSum,
                 r.reader.reader.endsCleanly)
  }

  ghost function HashState<S(!new)>(r: BodyReader<S>): (s: Option<S>)
    reads r.Footprint()
    ensures r.Verified? ==> s.Some?
  {
    if r.Raw? then None else Some(r.reader.hash.state)
  }

  method ReadBody<S(!new)>(r: BodyReader<S>, p: array<Byte>) returns (n: nat, err: ReadError)
    requires p.Length > 0 && r.Sound()
    modifies r.Footprint(), p
    ensures n <= p.Length && old(r.Body().Pending()) == p[..n] + r.Body().Pending()
    ensures r.Verified? ==>
              r.reader.hash.state == r.reader.hash.algo.update(old(r.reader.hash.state), p[..n])
    ensures err == NoError ==> r.Body().Rank() < old(r.Body().Rank())
    ensures err != NoError ==> r.Body().chunks == [] && err == CopyVerdict(r, old(HashState(r)), p[..n])
  {
    match r
    case Raw(source) => n, err := source.Read(p);
    case Verified(reader) => n, err := reader.Read(p);
  }

  lemma NothingPending(source: Source)
    requires source.chunks == []
    ensures source.Pending() == []
  {
  }

  lemma VerdictMeans<S(!new)>(r: BodyReader<S>, state: Option<S>, bytes: Bytes)
    requires r.Verified? ==> state.Some?
    ensures CopyVerdict(r, state, bytes) == Eof <==>
            r.Body().endsCleanly &&
            (r.Verified? ==>
               LowerHex(r.reader.checkSum, r.reader.hash.algo.sum(r.reader.hash.algo.update(state.value, bytes))))
  {
  }

  /** The verdict on the last chunk is that on the whole. */
  lemma CarryOn<S(!new)>(r: BodyReader<S>, state: Option<S>, written: Bytes, chunk: Bytes)
    requires r.Sound() && (r.Verified? ==> state.Some?)
    ensures var now := if r.Raw? then None else Some(r.reader.hash.algo.update(state.value, written));
            CopyVerdict(r, now, chunk) == CopyVerdict(r, state, written + chunk)
    ensures r.Verified? ==>
              r.reader.hash.algo.update(r.reader.hash.algo.update(state.value, written), chunk)
              == r.reader.hash.algo.update(state.value, written + chunk)
  {
    if r.Verified? {
      Continue(r.reader.hash.algo, state.value, written, chunk);
    }
  }

  /** `io.Copy` into a file, with buffers of any sizes. Whatever the chunking and the buffers, the
      whole body is written, and the copy succeeds exactly when the body ends cleanly and, if it is
      verified, the digest of all of it is the expected one. */
  method Copy<S(!new)>(world: World, path: Path, r: BodyReader<S>, sizes: nat -> nat) returns (ok: bool)
    requires r.Sound() && At(world.fs, path) == Some(File([]))
    modifies world, r.Footprint()
    ensures world.log == old(world.log)
    ensures world.fs == old(world.fs)[path := File(old(r.Body().Pending()))]
    ensures ok <==> CopyVerdict(r, old(HashState(r)), old(r.Body().Pending())) == Eof
    ensures ok <==> r.Body().endsCleanly &&
                    (r.Verified? ==>
                       LowerHex(r.reader.checkSum, r.reader.hash.algo.sum(
                         r.reader.hash.algo.update(old(r.reader.hash.state), old(r.Body().Pending())))))
    ensures r.Body().chunks == []
  {
    hide Incremental, Flatten, LowerHex, CopyVerdict;
    ghost var whole, state := r.Body().Pending(), HashState(r);
    if r.Verified? {
      Continue(r.reader.hash.algo, state.value, [], []);
    }
    VerdictMeans(r, state, whole);
    var written: Bytes := [];
    var i := 0;
    assert world.fs == old(world.fs)[path := File(written)];
    while true
      invariant world.fs == old(world.fs)[path := File(written)]
      invariant whole == written + r.Body().Pending() && world.log == old(world.log)
      invariant r.Verified? ==> r.reader.hash.state == r.reader.hash.algo.update(state.value, written)
      decreases r.Body().Rank()
    {
      var buffer := new Byte[1 + sizes(i)](_ => 0);
      var n, err := ReadBody(r, buffer);
      ghost var before, chunk := written, buffer[..n];
      CarryOn(r, state, before, chunk);
      written := written + buffer[..n];
      world.fs := world.fs[path := File(written)];
      assert before + (chunk + r.Body().Pending()) == written + r.Body().Pending();
      if err != NoError {
        assert r.Body().Pending() == [] by { NothingPending(r.Body()); }
        assert written == whole;
        return err == Eof;
      }
      i := i + 1;
    }
  }

  /** The file is created before the request: it is empty unless the response is good, and then it
      holds the whole body, rejected or not. */
  function LeftBy(response: Option<Response>): Entry {
    File(if response.Some? && response.value.status == 200 then Flatten(response.value.body.chunks) else [])
  }

  class PackageInstaller<S(!new)> {
    const downloadURL: string
    const downloadDir: Path
    /** The hash and the checksum to verify with; none for the app bits. */
    const verify: Option<(Hash<S>, string)>

    constructor (downloadURL: string, downloadDir: Path, verify: Option<(Hash<S>, string)>)
      ensures this.downloadURL == downloadURL && this.downloadDir == downloadDir && this.verify == verify
    {
      this.downloadURL, this.downloadDir, this.verify := downloadURL, downloadDir, verify;
    }

    ghost function Hashes(): set<object> {
      if verify.Some? then {verify.value.0} else {}
    }

    /** The body is acceptable for the hash state on entry. */
    ghost predicate Accepts(body: Stream)
      reads Hashes()
    {
      body.endsCleanly &&
      (verify.Some? ==>
         var hash := verify.value.0;
         LowerHex(verify.value.1, hash.algo.sum(hash.algo.update(hash.state, Flatten(body.chunks)))))
    }

    /** The empty path stands for an empty directory setting. The file is created before the
        request is made, so a failing request leaves an empty file. */
    method Install(world: World, sizes: nat -> nat) returns (err: Option<Error>)
      requires verify.Some? ==> Incremental(verify.value.0.algo)
      modifies world, Hashes()
      ensures world.log == old(world.log)
      ensures downloadURL == "" || downloadDir == [] ==> err.Some? && world.fs == old(world.fs)
      ensures world.fs == old(world.fs) ||
              (CanWrite(old(world.fs), downloadDir + [APP_BITS]) && exists tick ::
                 world.fs == old(world.fs)[downloadDir + [APP_BITS] := LeftBy(world.env.get(tick, downloadURL))])
      ensures err.None? ==> downloadURL != "" && downloadDir != [] && CanWrite(old(world.fs), downloadDir + [APP_BITS])
      ensures err.None? ==>
                exists tick, body ::
                  && world.env.get(tick, downloadURL) == Some(Response(200, body)) && old(Accepts(body))
                  && world.fs == old(world.fs)[downloadDir + [APP_BITS] := File(Flatten(body.chunks))]
      ensures Quiet(world.env) && downloadURL != "" && downloadDir != [] ==>
                (err.None? <==>
                 && CanWrite(old(world.fs), downloadDir + [APP_BITS])
                 && world.env.get(old(world.clock) + 1, downloadURL).Some?
                 && world.env.get(old(world.clock) + 1, downloadURL).value.status == 200
                 && old(Accepts(world.env.get(world.clock + 1, downloadURL).value.body)))
    {
      if downloadURL == "" {
        return Some(Plain("empty downloadURL provided"));
      }
      if downloadDir == [] {
        return Some(Plain("empty downloadDir provided"));
      }
      var ok := Download(world, downloadURL, downloadDir + [APP_BITS], sizes);
      return if ok then None else Some(Annotated("download", Plain("failed")));
    }

    method Download(world: World, url: string, path: Path, sizes: nat -> nat) returns (ok: bool)
      requires verify.Some? ==> Incremental(verify.value.0.algo)
      modifies world, Hashes()
      ensures world.log == old(world.log)
      ensures world.fs == old(world.fs) ||
              (CanWrite(old(world.fs), path) &&
               exists tick :: world.fs == old(world.fs)[path := LeftBy(world.env.get(tick, url))])
      ensures Quiet(world.env) && CanWrite(old(world.fs), path) ==>
                world.fs == old(world.fs)[path := LeftBy(world.env.get(old(world.clock) + 1, url))]
      ensures ok ==> CanWrite(old(world.fs), path)
      ensures ok ==>
                exists tick, body ::
                  && world.env.get(tick, url) == Some(Response(200, body)) && old(Accepts(body))
                  && world.fs == old(world.fs)[path := File(Flatten(body.chunks))]
      ensures Quiet(world.env) ==>
                (ok <==>
                 && CanWrite(old(world.fs), path)
                 && world.env.get(old(world.clock) + 1, url).Some?
                 && world.env.get(old(world.clock) + 1, url).value.status == 200
                 && old(Accepts(world.env.get(world.clock + 1, url).value.body)))
    {
      var fault := world.Tick();
      if fault.Some? || !CanWrite(world.fs, path) {
        return false;
      }
      world.fs := world.fs[path := File([])];
      ghost var tick := world.clock;
      var response := world.env.get(world.clock, url);
      if response.None? || response.value.status != 200 {
        return false;
      }
      var body := response.value.body;
      assert world.env.get(tick, url) == Some(Response(200, body));
      var source := new Source(body);
      var r := Raw(source);
      if verify.Some? {
        var reader := new VerifyingReader(source, verify.value.0, verify.value.1);
        r := Verified(reader);
      }
      ok := Copy(world, path, r, sizes);
      assert world.fs == old(world.fs)[path := File(Flatten(body.chunks))];
    }
  }
}
