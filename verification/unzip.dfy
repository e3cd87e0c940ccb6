/** unzip.go: extracting a zip file, entry by entry, with a size limit on each file. */
module Unzip {
  import opened Prelude
  import opened FileSystem
  import opened Errors
  import opened World

  /** `filepath.Join` of a cleaned name, component by component. */
  function Join(target: Path, name: Path): Path
    decreases |name|
  {
    if name == [] then target else Join(Into(target, name[0]), name[1..])
  }

  function Into(p: Path, component: string): Path {
    if component == ".." then Parent(p) else if component == "." || component == "" then p else p + [component]
  }

  /** Read from the left, the name goes up more often than it went down. */
  predicate Climbs(name: Path, depth: nat := 0)
    decreases |name|
  {
    name != [] &&
    if name[0] == ".." then depth == 0 || Climbs(name[1..], depth - 1)
    else Climbs(name[1..], if name[0] == "." || name[0] == "" then depth else depth + 1)
  }

  lemma {:induction false} JoinStays(target: Path, down: Path, name: Path)
    requires !Climbs(name, |down|)
    ensures target <= Join(target + down, name)
    decreases |name|
  {
    if name != [] {
      if name[0] == ".." {
        assert Parent(target + down) == target + down[..|down| - 1];
        JoinStays(target, down[..|down| - 1], name[1..]);
      } else if name[0] == "." || name[0] == "" {
        JoinStays(target, down, name[1..]);
      } else {
        assert target + down + [name[0]] == target + (down + [name[0]]);
        JoinStays(target, down + [name[0]], name[1..]);
      }
    }
  }

  lemma {:induction false} JoinOutside(target: Path, p: Path, name: Path)
    requires target != [] && target[|target| - 1] !in name && !(target <= p)
    ensures !(target <= Join(p, name))
    decreases |name|
  {
    if name != [] {
      assert name[0] in name;
      var q := Into(p, name[0]);
      assert !(target <= q) by {
        assert q == p + [name[0]] ==> q[|q| - 1] == name[0];
      }
      JoinOutside(target, q, name[1..]);
    }
  }

  lemma {:induction false} JoinLeaves(target: Path, down: Path, name: Path)
    requires target != [] && target[|target| - 1] !in name && Climbs(name, |down|)
    ensures !(target <= Join(target + down, name))
    decreases |name|
  {
    if name[0] == ".." && down == [] {
      assert target + down == target && !(target <= Parent(target));
      JoinOutside(target, Parent(target), name[1..]);
    } else if name[0] == ".." {
      assert Parent(target + down) == target + down[..|down| - 1];
      JoinLeaves(target, down[..|down| - 1], name[1..]);
    } else if name[0] == "." || name[0] == "" {
      JoinLeaves(target, down, name[1..]);
    } else {
      assert target + down + [name[0]] == target + (down + [name[0]]);
      JoinLeaves(target, down + [name[0]], name[1..]);
    }
  }

  /** An entry is extracted to somewhere in the target exactly if its name does not climb out, unless
      the name spells the target's own last component. */
  lemma StaysInTarget(target: Path, name: Path)
    requires target != [] && target[|target| - 1] !in name
    ensures target <= Join(target, name) <==> !Climbs(name)
  {
    assert target + [] == target;
    if Climbs(name) {
      JoinLeaves(target, [], name);
    } else {
      JoinStays(target, [], name);
    }
  }

  // ----- Where names lead

  /** Directories and a base name, and nothing to clean. */
  predicate Plain(name: Path) {
    forall c :: c in name ==> c != ".." && c != "." && c != ""
  }

  /** A plain name is appended as it is. */
  lemma {:induction false} PlainJoin(target: Path, name: Path)
    requires Plain(name)
    ensures Join(target, name) == target + name
    decreases |name|
  {
    if name != [] {
      assert name[0] in name && forall c :: c in name[1..] ==> c in name;
      PlainJoin(target + [name[0]], name[1..]);
      assert target + [name[0]] + name[1..] == target + name;
    }
  }

  lemma {:induction false} JoinParts(target: Path, a: Path, b: Path)
    ensures Join(target, a + b) == Join(Join(target, a), b)
    decreases |a|
  {
    if a == [] {
      assert a + b == b;
    } else {
      assert (a + b)[0] == a[0] && (a + b)[1..] == a[1..] + b;
      JoinParts(Into(target, a[0]), a[1..], b);
    }
  }

  /** Anywhere in a name, going down and up again cancels and a dot or nothing counts for nothing; from
      the target itself the name leads up, and from the root it does not. */
  lemma DotsCancel(target: Path, a: Path, c: string, b: Path)
    ensures Plain([c]) ==> Join(target, a + [c, ".."] + b) == Join(target, a + b)
    ensures c == "." || c == "" ==> Join(target, a + [c] + b) == Join(target, a + b)
    ensures Join(target + [c], [".."] + b) == Join(target, b)
    ensures Join([], [".."] + b) == Join([], b)
  {
    hide Join, Into, Parent;
    var p := Join(target, a);
    JoinParts(target, a, b);
    JoinParts(target, a, [c] + ([".."] + b));
    JoinParts(target, a, [c] + b);
    JoinOne(p, c, [".."] + b);
    JoinOne(p, c, b);
    JoinOne(p + [c], "..", b);
    JoinOne(target, c, b);
    JoinOne(target + [c], "..", b);
    JoinOne([], "..", b);
    assert a + [c, ".."] + b == a + ([c] + ([".."] + b)) && a + [c] + b == a + ([c] + b);
  }

  lemma JoinOne(p: Path, c: string, b: Path)
    ensures Join(p, [c] + b) == Join(Into(p, c), b)
    ensures Plain([c]) ==> Into(p, c) == p + [c]
    ensures c == "." || c == "" ==> Into(p, c) == p
    ensures forall d :: Into(p + [d], "..") == p
    ensures Into([], "..") == []
  {
    assert c in [c] && ([c] + b)[1..] == b;
  }

  /** No entry's name climbs out of the target. */
  ghost predicate Tame(entries: seq<ZipEntry>) {
    forall i :: 0 <= i < |entries| ==> !Climbs(entries[i].name)
  }

  /** Whatever zip is downloaded, its entries' names do not climb out. */
  ghost predicate TameZips(codecs: Codecs) {
    forall zip :: codecs.unzip(zip).Some? ==> Tame(codecs.unzip(zip).value)
  }

  lemma TameListing(env: Env, fs: FS, src: Path)
    requires TameZips(env.codecs)
    ensures Entries(env, fs, src).Some? ==> Tame(Entries(env, fs, src).value)
  {
  }

  lemma TameStays(target: Path, entries: seq<ZipEntry>, i: nat)
    requires Tame(entries) && i < |entries|
    ensures target <= Join(target, entries[i].name)
  {
    assert target + [] == target;
    JoinStays(target, [], entries[i].name);
  }

  /** The file system after one entry. */
  function Applied(fs: FS, target: Path, e: ZipEntry): FS {
    if e.isDir then Mkdirs(fs, Join(target, e.name))
    else Mkdirs(fs, Parent(Join(target, e.name)))[Join(target, e.name) := File(e.bytes)]
  }

  /** The entries in order. */
  function AppliedAll(fs: FS, target: Path, entries: seq<ZipEntry>): FS {
    if entries == [] then fs
    else Applied(AppliedAll(fs, target, entries[..|entries| - 1]), target, entries[|entries| - 1])
  }

  /** A file must be strictly shorter than the limit, and readable to its end. */
  predicate WithinLimit(e: ZipEntry, limit: int) {
    !e.isDir ==> e.opens && e.intact && |e.bytes| < limit
  }

  predicate CanApply(fs: FS, target: Path, e: ZipEntry) {
    if e.isDir then CanMkdirs(fs, Join(target, e.name))
    else CanMkdirs(fs, Parent(Join(target, e.name))) &&
         CanWrite(Mkdirs(fs, Parent(Join(target, e.name))), Join(target, e.name))
  }

  ghost predicate CanApplyAll(fs: FS, target: Path, entries: seq<ZipEntry>, limit: int) {
    forall i :: 0 <= i < |entries| ==>
      WithinLimit(entries[i], limit) && CanApply(AppliedAll(fs, target, entries[..i]), target, entries[i])
  }

  /** The entries of a readable zip file. */
  function Entries(env: Env, fs: FS, src: Path): Option<seq<ZipEntry>> {
    match ReadFile(env, fs, src)
    case Contents(bytes) => env.codecs.unzip(bytes)
    case _ => None
  }

  /** Every entry is there; or those before one that failed are, with what that one left. */
  ghost predicate Extraction(env: Env, limit: int, listing: Option<seq<ZipEntry>>, target: Path, ok: bool,
                             before: FS, after: FS)
  {
    if target == [] || listing.None? then !ok && after == before
    else if ok then CanApplyAll(before, target, listing.value, limit)
                    && after == AppliedAll(before, target, listing.value)
    else exists at | 0 <= at < |listing.value| :: StoppedAt(env, limit, listing.value, at, target, before, after)
  }

  /** The entries before this one have been extracted; this one could not be, or a system call
      failed. */
  ghost predicate StoppedAt(env: Env, limit: int, entries: seq<ZipEntry>, at: nat, target: Path,
                            before: FS, after: FS)
    requires at < |entries|
  {
    var base, e := AppliedAll(before, target, entries[..at]), entries[at];
    && CanApplyAll(before, target, entries[..at], limit)
    && (Quiet(env) ==> !(WithinLimit(e, limit) && CanApply(base, target, e)))
    && Remains(e, Join(target, e.name), limit, base, after)
  }

  /** What an entry that failed leaves: directories towards its path that were not there, and of a
      file no more than its beginning, up to the limit. */
  ghost predicate Remains(e: ZipEntry, p: Path, limit: int, before: FS, after: FS) {
    && (forall q :: !(q <= p) ==> At(after, q) == At(before, q))
    && (forall q :: q < p ==> At(after, q) == At(before, q) || (q !in before && At(after, q) == Some(Dir)))
    && (At(after, p) == At(before, p) || MadeDir(e, p, before, after) || PartWritten(e, p, limit, after))
  }

  ghost predicate MadeDir(e: ZipEntry, p: Path, before: FS, after: FS) {
    (e.isDir || p == []) && p !in before && At(after, p) == Some(Dir)
  }

  ghost predicate PartWritten(e: ZipEntry, p: Path, limit: int, after: FS) {
    !e.isDir && exists n | 0 <= n <= |e.bytes| && (n == 0 || n <= limit) :: At(after, p) == Some(File(e.bytes[..n]))
  }

  lemma MkdirRemains(e: ZipEntry, p: Path, limit: int, before: FS, after: FS)
    requires after == before || exists q :: q <= (if e.isDir then p else Parent(p)) && after == Mkdirs(before, q)
    ensures Remains(e, p, limit, before, after)
  {
    if after != before {
      var q :| q <= (if e.isDir then p else Parent(p)) && after == Mkdirs(before, q);
      MkdirsAt(before, q);
      assert Parent(p) <= p;
      PrefixTrans(q, if e.isDir then p else Parent(p), p);
      forall r | !(r <= p)
        ensures At(after, r) == At(before, r)
      {
        if r <= q {
          PrefixTrans(r, q, p);
        }
      }
      if p <= q && !e.isDir {
        assert p == [];
      }
    }
  }

  lemma WriteRemains(e: ZipEntry, p: Path, limit: int, before: FS, n: nat, after: FS)
    requires !e.isDir && n <= |e.bytes| && (n == 0 || n <= limit)
    requires after == Mkdirs(before, Parent(p))[p := File(e.bytes[..n])]
    ensures Remains(e, p, limit, before, after)
  {
    MkdirsAt(before, Parent(p));
    assert Parent(p) <= p;
    forall r | !(r <= p)
      ensures At(after, r) == At(before, r)
    {
      if r <= Parent(p) {
        PrefixTrans(r, Parent(p), p);
      }
    }
    assert At(after, p) == Some(File(e.bytes[..n]));
  }

  /** Plainly named directories are there, and plainly named files with their content, unless a later
      entry was written over them. */
  ghost predicate Landed(target: Path, entries: seq<ZipEntry>, fs: FS) {
    forall i :: 0 <= i < |entries| && Plain(entries[i].name) ==>
      var q := target + entries[i].name;
      if entries[i].isDir then At(fs, q) == Some(Dir)
      else Overwritten(target, entries, i) || At(fs, q) == Some(File(entries[i].bytes))
  }

  /** A later entry is a file at the same path. */
  ghost predicate Overwritten(target: Path, entries: seq<ZipEntry>, i: nat)
    requires i < |entries|
  {
    exists j :: i < j < |entries| && !entries[j].isDir && Join(target, entries[j].name) == target + entries[i].name
  }

  class Unzipper {
    const unzippedSizeLimit: int

    constructor (limit: int)
      ensures unzippedSizeLimit == limit
    {
      unzippedSizeLimit := limit;
    }

    /** The empty path stands for an empty target directory. */
    method Extract(world: World, src: Path, targetDir: Path) returns (err: Option<Error>)
      modifies world
      ensures Extraction(world.env, unzippedSizeLimit, Entries(world.env, old(world.fs), src), targetDir, err.None?,
                         old(world.fs), world.fs)
      ensures err.None? ==> Landed(targetDir, Entries(world.env, old(world.fs), src).value, world.fs)
      ensures err.Some? ==> AsDescriptive(err.value).None?
      ensures world.log == old(world.log)
    {
      if targetDir == [] {
        return Some(Plain("target directory cannot be empty"));
      }
      var listing := Entries(world.env, world.fs, src);
      if listing.None? {
        return Some(Formatted("failed to open zip reader", Plain("zip")));
      }
      var entries := listing.value;
      ghost var fs0 := world.fs;
      for i := 0 to |entries|
        invariant world.fs == AppliedAll(fs0, targetDir, entries[..i])
        invariant CanApplyAll(fs0, targetDir, entries[..i], unzippedSizeLimit)
        invariant world.log == old(world.log)
      {
        var e := entries[i];
        AppliedSnoc(fs0, targetDir, entries, i, unzippedSizeLimit);
        if e.isDir {
          ghost var before := world.fs;
          var ok := world.MkdirAll(Join(targetDir, e.name));
          if !ok {
            MkdirRemains(e, Join(targetDir, e.name), unzippedSizeLimit, before, world.fs);
            assert StoppedAt(world.env, unzippedSizeLimit, entries, i, targetDir, fs0, world.fs);
            return Some(Formatted("failed to create dir", Plain("mkdir")));
          }
          continue;
        }
        err := ExtractFile(world, e, Join(targetDir, e.name));
        if err.Some? {
          assert StoppedAt(world.env, unzippedSizeLimit, entries, i, targetDir, fs0, world.fs);
          return err;
        }
      }
      assert entries[..|entries|] == entries;
      AllLanded(fs0, targetDir, entries, unzippedSizeLimit);
      return None;
    }

    method ExtractFile(world: World, src: ZipEntry, destPath: Path) returns (err: Option<Error>)
      modifies world
      ensures var made := Mkdirs(old(world.fs), Parent(destPath));
              && (err.None? ==>
                    && CanMkdirs(old(world.fs), Parent(destPath)) && CanWrite(made, destPath)
                    && src.opens && src.intact && |src.bytes| < unzippedSizeLimit
                    && world.fs == made[destPath := File(src.bytes)])
              && (Quiet(world.env) ==>
                    (err.None? <==>
                     && CanMkdirs(old(world.fs), Parent(destPath)) && CanWrite(made, destPath)
                     && src.opens && src.intact && |src.bytes| < unzippedSizeLimit))
      ensures err.Some? && !src.isDir ==> Remains(src, destPath, unzippedSizeLimit, old(world.fs), world.fs)
      ensures err.Some? ==> AsDescriptive(err.value).None?
      ensures world.log == old(world.log)
    {
      hide Remains, CanMkdirs, Mkdirs, CanWrite, Parent;
      ghost var before := world.fs;
      var ok := world.MkdirAll(Parent(destPath));
      if !src.isDir {
        MkdirRemains(src, destPath, unzippedSizeLimit, before, world.fs);
      }
      if !ok {
        return Some(Formatted("failed to create dir", Plain("mkdir")));
      }
      if !src.opens {
        return Some(Formatted("failed to open zip", Plain("zip")));
      }
      var n, status := CopyN(world, destPath, src);
      if status == CreateFailed {
        return Some(Formatted("failed to create file", Plain("create")));
      }
      if !src.isDir {
        WriteRemains(src, destPath, unzippedSizeLimit, before, n, world.fs);
      }
      if status == Corrupt || status == WriteFailed {
        return Some(Formatted("failed to write zip", Plain("read")));
      }
      if status == LimitReached {
        return Some(Plain("extracting zip stopped at the limit"));
      }
      assert src.bytes[..|src.bytes|] == src.bytes;
      var fault := world.Tick();
      return if fault.None? then None else Some(Plain("chmod"));
    }

    /** The most that is written of one entry. */
    function Cap(): nat {
      if unzippedSizeLimit < 0 then 0 else unzippedSizeLimit
    }

    /** `os.Create` and `io.CopyN`: at most the limit is written; reaching it is not the end of the
        data. A write that fails leaves the beginning of the data. */
    method CopyN(world: World, destPath: Path, src: ZipEntry) returns (n: nat, status: CopyStatus)
      modifies world
      ensures world.log == old(world.log)
      ensures n <= |src.bytes| && n <= Cap()
      ensures status == CreateFailed ==> world.fs == old(world.fs)
      ensures status != CreateFailed ==>
                CanWrite(old(world.fs), destPath) && world.fs == old(world.fs)[destPath := File(src.bytes[..n])]
      ensures status == LimitReached ==> n == Cap() && |src.bytes| >= unzippedSizeLimit
      ensures status == Ended ==> n == |src.bytes| < unzippedSizeLimit && src.intact
      ensures status == Corrupt ==> n == |src.bytes| < unzippedSizeLimit && !src.intact
      ensures Quiet(world.env) ==>
                status != WriteFailed && (status != CreateFailed <==> CanWrite(old(world.fs), destPath))
    {
      var fault := world.Tick();
      if fault.Some? || !CanWrite(world.fs, destPath) {
        return 0, CreateFailed;
      }
      n := if |src.bytes| < Cap() then |src.bytes| else Cap();
      fault := world.Tick();
      if fault.Some? {
        n := if |fault.value.partial| < n then |fault.value.partial| else n;
      }
      world.fs := world.fs[destPath := File(src.bytes[..n])];
      status := if fault.Some? then WriteFailed
                else if |src.bytes| >= unzippedSizeLimit then LimitReached
                else if src.intact then Ended else Corrupt;
    }
  }

  datatype CopyStatus = CreateFailed | WriteFailed | LimitReached | Ended | Corrupt

  lemma PrefixTrans(p: Path, q: Path, r: Path)
    requires p <= q && q <= r
    ensures p <= r
  {
  }

  lemma AppliedSnoc(fs: FS, target: Path, entries: seq<ZipEntry>, i: nat, limit: int)
    requires i < |entries|
    ensures AppliedAll(fs, target, entries[..i + 1])
         == Applied(AppliedAll(fs, target, entries[..i]), target, entries[i])
    ensures CanApplyAll(fs, target, entries[..i + 1], limit) <==>
            && CanApplyAll(fs, target, entries[..i], limit) && WithinLimit(entries[i], limit)
            && CanApply(AppliedAll(fs, target, entries[..i]), target, entries[i])
    ensures CanApplyAll(fs, target, entries, limit) ==> CanApplyAll(fs, target, entries[..i + 1], limit)
  {
    hide AppliedAll, Applied, CanApply;
    var a, b := entries[..i], entries[..i + 1];
    AppliedLast(fs, target, b);
    assert b[..i] == a;
    assert forall k :: 0 <= k < i ==> a[k] == b[k] && a[..k] == b[..k];
    assert forall k :: 0 <= k <= i ==> b[k] == entries[k] && b[..k] == entries[..k];
  }

  lemma AppliedLast(fs: FS, target: Path, entries: seq<ZipEntry>)
    requires entries != []
    ensures AppliedAll(fs, target, entries)
         == Applied(AppliedAll(fs, target, entries[..|entries| - 1]), target, entries[|entries| - 1])
  {
  }

  /** The last entry that is a file at this path, if any. */
  function LastFile(target: Path, entries: seq<ZipEntry>, q: Path): Option<ZipEntry> {
    if entries == [] then None
    else
      var e := entries[|entries| - 1];
      if !e.isDir && Join(target, e.name) == q then Some(e)
      else LastFile(target, entries[..|entries| - 1], q)
  }

  /** Some entry needs a directory at this path. */
  ghost predicate NeedsDir(target: Path, entries: seq<ZipEntry>, q: Path) {
    exists i :: 0 <= i < |entries| &&
      q <= if entries[i].isDir then Join(target, entries[i].name) else Parent(Join(target, entries[i].name))
  }

  /** After a successful extraction every path holds the last file extracted to it; a directory that
      was needed and not there has been made; everything else is as it was. */
  lemma {:induction false} ExtractedAt(fs: FS, target: Path, entries: seq<ZipEntry>, limit: int, q: Path)
    requires CanApplyAll(fs, target, entries, limit)
    ensures At(AppliedAll(fs, target, entries), q)
         == match LastFile(target, entries, q)
            case Some(e) => Some(File(e.bytes))
            case None => if q !in fs && NeedsDir(target, entries, q) then Some(Dir) else At(fs, q)
  {
    hide CanApply, CanApplyAll, NeedsDir;
    if entries != [] {
      var n := |entries| - 1;
      var front, e := entries[..n], entries[n];
      assert entries[..n + 1] == entries;
      AppliedSnoc(fs, target, entries, n, limit);
      ExtractedAt(fs, target, front, limit, q);
      NeedsSnoc(target, entries, q);
      var before := AppliedAll(fs, target, front);
      AppliedAt(before, target, e, q);
      if LastFile(target, front, q).Some? && (e.isDir || Join(target, e.name) != q) {
        assert q in before;
      }
    } else {
      assert !NeedsDir(target, entries, q) by { NeedsNone(target, q); }
    }
  }

  lemma NeedsNone(target: Path, q: Path)
    ensures !NeedsDir(target, [], q)
  {
  }

  lemma NeedsSnoc(target: Path, entries: seq<ZipEntry>, q: Path)
    requires entries != []
    ensures var e := entries[|entries| - 1];
            NeedsDir(target, entries, q) <==>
            NeedsDir(target, entries[..|entries| - 1], q) ||
            q <= if e.isDir then Join(target, e.name) else Parent(Join(target, e.name))
  {
    var n := |entries| - 1;
    var front := entries[..n];
    if NeedsDir(target, front, q) {
      var i :| 0 <= i < n &&
               q <= if front[i].isDir then Join(target, front[i].name) else Parent(Join(target, front[i].name));
      assert entries[i] == front[i];
    }
    if NeedsDir(target, entries, q) {
      var i :| 0 <= i <= n &&
               q <= if entries[i].isDir then Join(target, entries[i].name) else Parent(Join(target, entries[i].name));
      assert i < n ==> entries[i] == front[i];
    }
  }

  lemma AppliedAt(fs: FS, target: Path, e: ZipEntry, q: Path)
    ensures At(Applied(fs, target, e), q)
         == if !e.isDir && Join(target, e.name) == q then Some(File(e.bytes))
            else if q !in fs && q <= (if e.isDir then Join(target, e.name) else Parent(Join(target, e.name)))
            then Some(Dir)
            else At(fs, q)
  {
    if e.isDir {
      MkdirsAt(fs, Join(target, e.name));
    } else {
      MkdirsAt(fs, Parent(Join(target, e.name)));
    }
  }

  lemma DirApplied(fs: FS, target: Path, e: ZipEntry, q: Path)
    requires CanApply(fs, target, e)
    ensures At(fs, q) == Some(Dir) ==> At(Applied(fs, target, e), q) == Some(Dir)
    ensures e.isDir && q == Join(target, e.name) ==> At(Applied(fs, target, e), q) == Some(Dir)
  {
    AppliedAt(fs, target, e, q);
    MkdirsAt(fs, Parent(Join(target, e.name)));
    if e.isDir && q == Join(target, e.name) {
      assert q in Prefixes(q);
    }
  }

  /** A directory stays one, and that of an entry is there in the end. */
  lemma {:induction false} DirsStay(fs: FS, target: Path, entries: seq<ZipEntry>, limit: int, q: Path)
    requires CanApplyAll(fs, target, entries, limit)
    ensures At(fs, q) == Some(Dir) ==> At(AppliedAll(fs, target, entries), q) == Some(Dir)
    ensures (exists i :: 0 <= i < |entries| && entries[i].isDir && Join(target, entries[i].name) == q) ==>
              At(AppliedAll(fs, target, entries), q) == Some(Dir)
  {
    hide CanApply, Applied, Join;
    if entries != [] {
      var n := |entries| - 1;
      assert entries[..n + 1] == entries;
      AppliedSnoc(fs, target, entries, n, limit);
      DirsStay(fs, target, entries[..n], limit, q);
      DirApplied(AppliedAll(fs, target, entries[..n]), target, entries[n], q);
      assert forall i :: 0 <= i < n ==> entries[..n][i] == entries[i];
    }
  }

  lemma {:induction false} LastFileIs(target: Path, entries: seq<ZipEntry>, i: nat, q: Path)
    requires i < |entries| && !entries[i].isDir && Join(target, entries[i].name) == q
    requires forall j :: i < j < |entries| && !entries[j].isDir ==> Join(target, entries[j].name) != q
    ensures LastFile(target, entries, q) == Some(entries[i])
  {
    hide Join;
    var n := |entries| - 1;
    if i < n {
      LastFileIs(target, entries[..n], i, q);
    }
  }

  lemma AllLanded(fs: FS, target: Path, entries: seq<ZipEntry>, limit: int)
    requires CanApplyAll(fs, target, entries, limit)
    ensures Landed(target, entries, AppliedAll(fs, target, entries))
  {
    hide AppliedAll, CanApplyAll, Join, Plain;
    forall i | 0 <= i < |entries| && Plain(entries[i].name)
      ensures var q := target + entries[i].name;
              if entries[i].isDir then At(AppliedAll(fs, target, entries), q) == Some(Dir)
              else Overwritten(target, entries, i) ||
                   At(AppliedAll(fs, target, entries), q) == Some(File(entries[i].bytes))
    {
      var q := target + entries[i].name;
      PlainJoin(target, entries[i].name);
      if entries[i].isDir {
        DirsStay(fs, target, entries, limit, q);
      } else if !Overwritten(target, entries, i) {
        LastFileIs(target, entries, i, q);
        ExtractedAt(fs, target, entries, limit, q);
      }
    }
  }

  /** Whatever becomes of an extraction, no file it changed is longer than the limit. */
  lemma NothingOverLimit(env: Env, limit: int, listing: Option<seq<ZipEntry>>, target: Path, ok: bool,
                         before: FS, after: FS, q: Path)
    requires Extraction(env, limit, listing, target, ok, before, after)
    ensures At(after, q) == At(before, q) || At(after, q) == Some(Dir) ||
            (At(after, q).Some? && At(after, q).value.File? &&
             (|At(after, q).value.bytes| == 0 || |At(after, q).value.bytes| <= limit))
  {
    hide AppliedAll, CanApply;
    if target != [] && listing.Some? {
      var entries := listing.value;
      if ok {
        AppliedWithin(before, target, entries, limit, q);
      } else {
        var at :| 0 <= at < |entries| && StoppedAt(env, limit, entries, at, target, before, after);
        AppliedWithin(before, target, entries[..at], limit, q);
        var p := Join(target, entries[at].name);
        if q == p && PartWritten(entries[at], p, limit, after) {
          var n :| 0 <= n <= |entries[at].bytes| && (n == 0 || n <= limit) &&
                   At(after, p) == Some(File(entries[at].bytes[..n]));
        }
      }
    }
  }

  lemma AppliedWithin(fs: FS, target: Path, entries: seq<ZipEntry>, limit: int, q: Path)
    requires CanApplyAll(fs, target, entries, limit)
    ensures var e := At(AppliedAll(fs, target, entries), q);
            e == At(fs, q) || e == Some(Dir) || (e.Some? && e.value.File? && |e.value.bytes| <= limit)
  {
    hide AppliedAll, CanApply;
    ExtractedAt(fs, target, entries, limit, q);
    LastIsEntry(target, entries, q);
  }

  lemma {:induction false} LastIsEntry(target: Path, entries: seq<ZipEntry>, q: Path)
    ensures var e := LastFile(target, entries, q); e.Some? ==> e.value in entries && !e.value.isDir
  {
    if entries != [] {
      LastIsEntry(target, entries[..|entries| - 1], q);
    }
  }
}
