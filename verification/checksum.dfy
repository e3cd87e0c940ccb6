/** checksum/verifying_reader.go: a reader that hashes what it delivers and checks the digest at the
    end of the stream. */
module Checksum {
  import opened Prelude
  import opened World

  function Flatten(chunks: seq<Bytes>): Bytes {
    if chunks == [] then [] else chunks[0] + Flatten(chunks[1..])
  }

  /** `io.Reader` errors: none, io.EOF, a failing reader, a checksum mismatch. */
  datatype ReadError = NoError | Eof | ReaderError | ChecksumError

  /** A body that arrives in chunks of any size, empty ones included. */
  class Source {
    var chunks: seq<Bytes>
    const endsCleanly: bool
    const endsWithLast: bool

    constructor (stream: Stream)
      ensures chunks == stream.chunks && endsCleanly == stream.endsCleanly
    {
      chunks, endsCleanly, endsWithLast := stream.chunks, stream.endsCleanly, stream.endsWithLast;
    }

    function Pending(): Bytes
      reads this
    {
      Flatten(chunks)
    }

    function End(): ReadError {
      if endsCleanly then Eof else ReaderError
    }

    /** How much is left to do: chunks, empty ones included, and bytes. */
    function Rank(): nat
      reads this
    {
      |chunks| + |Pending()|
    }

    method Read(p: array<Byte>) returns (n: nat, err: ReadError)
      requires p.Length > 0
      modifies this, p
      ensures n <= p.Length && old(Pending()) == p[..n] + Pending()
      ensures err == NoError || (err == End() && chunks == [])
      ensures old(chunks) == [] ==> n == 0 && err == End()
      ensures err == NoError ==> Rank() < old(Rank())
    {
      if chunks == [] {
        return 0, End();
      }
      var chunk := chunks[0];
      n := if |chunk| <= p.Length then |chunk| else p.Length;
      forall i | 0 <= i < n {
        p[i] := chunk[i];
      }
      assert p[..n] == chunk[..n];
      if n == |chunk| {
        chunks := chunks[1..];
        err := if chunks == [] && endsWithLast then End() else NoError;
      } else {
        chunks := [chunk[n..]] + chunks[1..];
        assert chunk == chunk[..n] + chunk[n..];
        assert chunk[..n] + (chunk[n..] + Flatten(old(chunks)[1..])) == chunk + Flatten(old(chunks)[1..]);
        err := NoError;
      }
    }
  }

  /** A hash algorithm: an initial state, an update with more input, and the digest of a state. */
  datatype Algorithm<!S> = Algorithm(init: S, update: (S, Bytes) -> S, sum: S -> Bytes)

  /** Hashing in pieces is hashing the whole. */
  ghost predicate Incremental<S(!new)>(algo: Algorithm<S>) {
    && (forall s :: algo.update(s, []) == s)
    && (forall s, a, b :: algo.update(algo.update(s, a), b) == algo.update(s, a + b))
  }

  lemma Continue<S(!new)>(algo: Algorithm<S>, s: S, a: Bytes, b: Bytes)
    requires Incremental(algo)
    ensures algo.update(algo.update(s, a), b) == algo.update(s, a + b)
    ensures algo.update(s, []) == s
  {
  }

  class Hash<S> {
    const algo: Algorithm<S>
    var state: S

    constructor (algo: Algorithm<S>)
      ensures this.algo == algo && state == algo.init
    {
      this.algo, state := algo, algo.init;
    }

    method Write(bytes: Bytes)
      modifies this
      ensures state == algo.update(old(state), bytes)
    {
      state := algo.update(state, bytes);
    }

    /** `fmt.Sprintf("%x", hash.Sum(nil))` */
    function HexSum(): string
      reads this
    {
      Hex(algo.sum(state))
    }
  }

  /** The verdict at the end of a stream, given the hash state reached there: the checksum must be the
      digest in lower-case hexadecimal. */
  ghost function Verdict<S>(algo: Algorithm<S>, state: S, checkSum: string, endsCleanly: bool): ReadError {
    if !endsCleanly then ReaderError
    else if LowerHex(checkSum, algo.sum(state)) then Eof
    else ChecksumError
  }

  class VerifyingReader<S(!new)> {
    const reader: Source
    const hash: Hash<S>
    const checkSum: string

    constructor (reader: Source, hash: Hash<S>, checkSum: string)
      ensures this.reader == reader && this.hash == hash && this.checkSum == checkSum
    {
      this.reader, this.hash, this.checkSum := reader, hash, checkSum;
    }

    /** Exactly the delivered bytes are hashed; only the end of the stream is judged, and judged
        the same way however often it is read. */
    method Read(p: array<Byte>) returns (n: nat, err: ReadError)
      requires p.Length > 0 && Incremental(hash.algo)
      modifies reader, hash, p
      ensures n <= p.Length && old(reader.Pending()) == p[..n] + reader.Pending()
      ensures hash.state == hash.algo.update(old(hash.state), p[..n])
      ensures err == NoError ==> reader.Rank() < old(reader.Rank())
      ensures err != NoError ==>
                reader.chunks == [] && err == Verdict(hash.algo, hash.state, checkSum, reader.endsCleanly)
      ensures old(reader.chunks) == [] ==>
                n == 0 && hash.state == old(hash.state) &&
                err == Verdict(hash.algo, old(hash.state), checkSum, reader.endsCleanly)
    {
      n, err := reader.Read(p);
      if n > 0 {
        hash.Write(p[..n]);
      } else {
        assert p[..n] == [];
      }
      if err == Eof {
        HexText(hash.algo.sum(hash.state), checkSum);
        if !VerifyChecksum(hash.HexSum()) {
          return n, ChecksumError;
        }
        return n, Eof;
      }
      if err != NoError {
        return n, ReaderError;
      }
    }

    predicate VerifyChecksum(actual: string) {
      checkSum == actual
    }
  }
}
