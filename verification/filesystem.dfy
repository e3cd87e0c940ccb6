/** An abstract file system: a map from component-list paths to entries. `At` reads one path,
    and every operation is characterised by what it does to `At`. */
module FileSystem {
  import opened Prelude

  type Path = seq<string>
  datatype Entry = Dir | File(bytes: Bytes)
  type FS = map<Path, Entry>
  /** The content of an archive: paths relative to its root. */
  type Tree = map<Path, Entry>

  function At(fs: FS, p: Path): Option<Entry> {
    if p in fs then Some(fs[p]) else None
  }

  /** `filepath.Dir`. */
  function Parent(p: Path): Path {
    if p == [] then [] else p[..|p| - 1]
  }

  /** Neither path lies at or beneath the other. */
  predicate Apart(p: Path, q: Path) {
    !(p <= q) && !(q <= p)
  }

  /** Two prefixes of one path are not apart. */
  lemma PrefixesNest(p: Path, q: Path, r: Path)
    requires p <= r && q <= r
    ensures !Apart(p, q)
  {
    if |p| <= |q| {
      assert p == q[..|p|];
    } else {
      assert q == p[..|q|];
    }
  }

  function Prefixes(p: Path): (qs: set<Path>)
    ensures forall q :: q in qs <==> q <= p
  {
    var qs := set i | 0 <= i <= |p| :: p[..i];
    assert forall q :: q <= p ==> q == p[..|q|];
    qs
  }

  /** `os.MkdirAll` needs every existing prefix to be a directory. */
  predicate CanMkdirs(fs: FS, p: Path) {
    forall q :: q in Prefixes(p) && q in fs ==> fs[q].Dir?
  }

  /** The file system after `os.MkdirAll(p)`. */
  function Mkdirs(fs: FS, p: Path): FS {
    fs + map q | q in Prefixes(p) && q !in fs :: Dir
  }

  lemma MkdirsAt(fs: FS, p: Path)
    ensures forall q :: At(Mkdirs(fs, p), q) == if q !in fs && q <= p then Some(Dir) else At(fs, q)
  {
  }

  /** File systems that agree at every path are the same. */
  lemma SameAt(a: FS, b: FS)
    requires forall q :: At(a, q) == At(b, q)
    ensures a == b
  {
    forall q
      ensures q in a <==> q in b
      ensures q in a ==> a[q] == b[q]
    {
      assert At(a, q) == At(b, q);
    }
  }

  /** `os.MkdirAll` as one `os.Mkdir` per missing prefix. */
  lemma MkdirStep(fs: FS, p: Path, i: nat)
    requires i <= |p|
    requires i > 0 ==> CanMkdirs(fs, p[..i - 1])
    requires p[..i] in fs ==> fs[p[..i]].Dir?
    ensures CanMkdirs(fs, p[..i])
    ensures Mkdirs(fs, p[..i])
         == (if i > 0 then Mkdirs(fs, p[..i - 1]) else fs)[p[..i] := Dir]
  {
    var q := p[..i];
    forall r | r in Prefixes(q)
      ensures r == q || (i > 0 && r in Prefixes(p[..i - 1]))
    {
      assert r == q[..|r|];
    }
    var a := Mkdirs(fs, q);
    var b := (if i > 0 then Mkdirs(fs, p[..i - 1]) else fs)[q := Dir];
    assert i > 0 ==> p[..i - 1] <= q;
    MkdirsAt(fs, q);
    if i > 0 {
      MkdirsAt(fs, p[..i - 1]);
    }
    forall r
      ensures At(a, r) == At(b, r)
    {
      assert r in Prefixes(q) <==> r <= q;
      assert i > 0 ==> (r in Prefixes(p[..i - 1]) <==> r <= p[..i - 1]);
    }
    SameAt(a, b);
  }

  /** A run of `os.MkdirAll` calls. */
  function MkAll(fs: FS, ps: seq<Path>): FS {
    if ps == [] then fs else Mkdirs(MkAll(fs, ps[..|ps| - 1]), ps[|ps| - 1])
  }

  ghost predicate CanMkAll(fs: FS, ps: seq<Path>) {
    ps == [] || (CanMkAll(fs, ps[..|ps| - 1]) && CanMkdirs(MkAll(fs, ps[..|ps| - 1]), ps[|ps| - 1]))
  }

  lemma MkAllSnoc(fs: FS, ps: seq<Path>, p: Path)
    ensures MkAll(fs, ps + [p]) == Mkdirs(MkAll(fs, ps), p)
    ensures CanMkAll(fs, ps + [p]) <==> CanMkAll(fs, ps) && CanMkdirs(MkAll(fs, ps), p)
  {
    assert (ps + [p])[..|ps|] == ps;
  }

  lemma {:induction false} MkAllAt(fs: FS, ps: seq<Path>, q: Path)
    ensures At(MkAll(fs, ps), q)
         == if q !in fs && (exists i :: 0 <= i < |ps| && q <= ps[i]) then Some(Dir) else At(fs, q)
  {
    if ps != [] {
      var front, last := ps[..|ps| - 1], ps[|ps| - 1];
      MkdirsAt(MkAll(fs, front), last);
      MkAllAt(fs, front, q);
      assert forall i :: 0 <= i < |front| ==> front[i] == ps[i];
      if q !in fs && exists i :: 0 <= i < |ps| && q <= ps[i] {
        var i :| 0 <= i < |ps| && q <= ps[i];
        assert i == |ps| - 1 || front[i] == ps[i];
      }
    }
  }

  lemma {:induction false} MkAllDirs(fs: FS, ps: seq<Path>, i: nat)
    requires CanMkAll(fs, ps) && i < |ps|
    ensures At(MkAll(fs, ps), ps[i]) == Some(Dir)
  {
    var front, last := ps[..|ps| - 1], ps[|ps| - 1];
    MkdirsAt(MkAll(fs, front), last);
    if i < |ps| - 1 {
      MkAllDirs(fs, front, i);
      assert front[i] == ps[i];
    } else {
      assert last in Prefixes(last);
    }
  }

  /** The file system after `os.RemoveAll(p)`. */
  function Pruned(fs: FS, p: Path): FS {
    map q | q in fs && !(p <= q) :: fs[q]
  }

  lemma PrunedAt(fs: FS, p: Path)
    ensures forall q :: At(Pruned(fs, p), q) == if p <= q then None else At(fs, q)
  {
  }

  /** The names listed by `ioutil.ReadDir(dir)`. */
  function Names(fs: FS, dir: Path): (names: set<string>)
    ensures forall n :: n in names <==> dir + [n] in fs
  {
    var names := set q | q in fs && |q| == |dir| + 1 && dir <= q :: q[|dir|];
    assert forall q: Path :: |q| == |dir| + 1 && dir <= q ==> q == dir + [q[|dir|]];
    assert forall n :: dir + [n] in fs ==> (dir + [n])[|dir|] == n;
    names
  }

  /** The directories listed in `dir` and not in `keep` are gone, with everything beneath them. */
  function Swept(fs: FS, dir: Path, keep: set<Path>): FS {
    map q | q in fs && !Sweeps(fs, dir, keep, q) :: fs[q]
  }

  lemma SweptAt(fs: FS, dir: Path, keep: set<Path>)
    ensures forall q :: At(Swept(fs, dir, keep), q)
                     == if Sweeps(fs, dir, keep, q) then None else At(fs, q)
  {
  }

  predicate Sweeps(fs: FS, dir: Path, keep: set<Path>, q: Path) {
    dir < q && q[..|dir| + 1] in fs && q[..|dir| + 1] !in keep
  }

  /** Nothing has changed but what a sweep removes. */
  ghost predicate SweepsOnly(fs: FS, dir: Path, keep: set<Path>, after: FS) {
    forall q :: !Sweeps(fs, dir, keep, q) ==> At(after, q) == At(fs, q)
  }

  lemma SweepsNone(fs: FS, dir: Path, keep: set<Path>)
    ensures SweepsOnly(fs, dir, keep, fs)
  {
  }

  /** One listed directory has been removed, or part of it. */
  lemma SweepsMore(fs: FS, dir: Path, keep: set<Path>, n: string, a: FS, b: FS)
    requires SweepsOnly(fs, dir, keep, a) && n in Names(fs, dir) && dir + [n] !in keep
    requires forall q :: !(dir + [n] <= q) ==> At(b, q) == At(a, q)
    ensures SweepsOnly(fs, dir, keep, b)
  {
    forall q
      ensures dir + [n] <= q ==> Sweeps(fs, dir, keep, q)
    {
      if dir + [n] <= q {
        assert q[..|dir| + 1] == dir + [n];
      }
    }
  }

  /** Part of a sweep: only the listed names in `done` have been looked at. */
  function SweptSoFar(fs: FS, dir: Path, keep: set<Path>, done: set<string>): FS {
    map q | q in fs && !(dir < q && q[|dir|] in done && q[..|dir| + 1] !in keep) :: fs[q]
  }

  lemma SweepStep(fs: FS, dir: Path, keep: set<Path>, done: set<string>, n: string)
    ensures SweptSoFar(fs, dir, keep, done + {n})
         == if dir + [n] in keep then SweptSoFar(fs, dir, keep, done)
            else Pruned(SweptSoFar(fs, dir, keep, done), dir + [n])
  {
    var a := SweptSoFar(fs, dir, keep, done + {n});
    var b := if dir + [n] in keep then SweptSoFar(fs, dir, keep, done)
             else Pruned(SweptSoFar(fs, dir, keep, done), dir + [n]);
    PrunedAt(SweptSoFar(fs, dir, keep, done), dir + [n]);
    forall q
      ensures At(a, q) == At(b, q)
    {
      if dir < q {
        assert q[..|dir| + 1] == dir + [q[|dir|]];
        assert dir + [n] <= q <==> q[|dir|] == n;
      }
    }
    SameAt(a, b);
  }

  lemma SweepDone(fs: FS, dir: Path, keep: set<Path>)
    ensures SweptSoFar(fs, dir, keep, {}) == fs
    ensures SweptSoFar(fs, dir, keep, Names(fs, dir)) == Swept(fs, dir, keep)
  {
    SameAt(SweptSoFar(fs, dir, keep, {}), fs);
    var a, b := SweptSoFar(fs, dir, keep, Names(fs, dir)), Swept(fs, dir, keep);
    forall q
      ensures At(a, q) == At(b, q)
    {
      if dir < q {
        assert q[..|dir| + 1] == dir + [q[|dir|]];
      }
    }
    SameAt(a, b);
  }

  /** Every entry lies in an existing directory entry's place, as in any real file system. */
  ghost predicate Rooted(fs: FS) {
    forall p, i :: p in fs && 0 <= i <= |p| ==> p[..i] in fs
  }

  /** What `tar -C dir .` puts in an archive. */
  function Snapshot(fs: FS, dir: Path): Tree {
    assert forall q: Path :: dir <= q ==> dir + q[|dir|..] == q;
    map r | r in (set q | q in fs && dir <= q :: q[|dir|..]) :: fs[dir + r]
  }

  lemma SnapshotAt(fs: FS, dir: Path)
    ensures forall q :: At(Snapshot(fs, dir), q) == At(fs, dir + q)
  {
    assert forall q: Path :: dir <= q ==> dir + q[|dir|..] == q;
    assert forall r: Path :: (dir + r)[|dir|..] == r;
  }

  /** `tree` written over whatever is at `dir`. */
  function Placed(fs: FS, dir: Path, tree: Tree): FS {
    assert forall q: Path :: (dir + q)[|dir|..] == q;
    fs + map q | q in (set r | r in tree :: dir + r) :: tree[q[|dir|..]]
  }

  lemma PlacedAt(fs: FS, dir: Path, tree: Tree)
    ensures forall q :: At(Placed(fs, dir, tree), q) ==
                        if dir <= q && q[|dir|..] in tree then Some(tree[q[|dir|..]]) else At(fs, q)
  {
    assert forall q: Path :: (dir + q)[|dir|..] == q;
    assert forall q: Path :: dir <= q ==> dir + q[|dir|..] == q;
  }

  /** Where `cp -a src dst` puts the copy: inside `dst` when that is already a directory. */
  function CopyTarget(fs: FS, src: Path, dst: Path): Path {
    if At(fs, dst) == Some(Dir) && src != [] then dst + [src[|src| - 1]] else dst
  }

  function Copied(fs: FS, src: Path, dst: Path): FS {
    Placed(fs, CopyTarget(fs, src, dst), Snapshot(fs, src))
  }
}
