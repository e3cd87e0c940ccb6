/** What the lookups of a build come to, in terms of the entries of the file system. */
module Lookups {
  import opened Prelude
  import opened FileSystem
  import opened Models
  import opened World
  import opened Protocol

  /** Something is at this path, and it can be read. */
  predicate There(env: Env, fs: FS, p: Path) {
    !env.unreadable(p) && At(fs, p).Some?
  }

  /** The directory has this entry and no other. */
  ghost predicate OnlyEntry(fs: FS, dir: Path, n: string) {
    forall m :: At(fs, dir + [m]).Some? <==> m == n
  }

  /** `hasSupply` and `hasFinalize`, and detect scripts: found where something is; missing where nothing
      is and what is above it are directories. */
  lemma ScriptIs(job: Job, fs: FS, bp: Path, name: string)
    ensures var p := bp + ["bin", name];
            && (job.Script(fs, bp, name) == Found <==> There(job.env, fs, p))
            && (job.Script(fs, bp, name) == Missing <==>
                !job.env.unreadable(p) && At(fs, p) == None &&
                forall q :: q <= p && At(fs, q).Some? ==> At(fs, q) == Some(Dir))
  {
    var p := bp + ["bin", name];
    forall q | q <= p && At(fs, q).Some?
      ensures q in Prefixes(p) && q in fs && At(fs, q) == Some(fs[q])
    {
    }
  }

  /** Which buildpacks can be used: those with a `supply`, or a `detect` script in `bin`. */
  lemma UsableIs(job: Job, fs: FS, name: string)
    ensures job.Suppliable(fs, name) <==>
            job.Resolve(fs, name).Some? && There(job.env, fs, job.Resolve(fs, name).value + ["bin", "supply"])
    ensures job.Detectable(fs, name) <==>
            job.Resolve(fs, name).Some? && There(job.env, fs, job.Resolve(fs, name).value + ["bin", "detect"])
  {
    hide Job.Resolve, Job.Script, There;
    if job.Resolve(fs, name).Some? {
      ScriptIs(job, fs, job.Resolve(fs, name).value, "supply");
      ScriptIs(job, fs, job.Resolve(fs, name).value, "detect");
    }
  }

  /** What runs next for the chosen buildpack: compile if it has no `finalize` script, and if it has,
      its `supply` script first, if there is one. */
  lemma ChosenRuns(job: Job, bp: Path, meta: seq<BuildpackMetadata>, fs: FS, e: Event)
    requires job.Step(Chosen(bp, meta, fs), e) != Wrong
    ensures e.inv.bp == bp
    ensures There(job.env, fs, bp + ["bin", "finalize"]) <==> !e.inv.Compile?
    ensures There(job.env, fs, bp + ["bin", "finalize"]) ==>
              if There(job.env, fs, bp + ["bin", "supply"]) then e.inv.Supply? else e.inv.Finalize?
  {
    hide Job.Resolve, Job.Script, There, Job.Metadata, Job.DepsIndex, Pruned, Job.Hash;
    ScriptIs(job, fs, bp, "finalize");
    ScriptIs(job, fs, bp, "supply");
  }

  /** The directory named by the md5 sum in lower-case hexadecimal, if it holds `bin`; or the only entry
      in it, if that does. */
  lemma ResolveIs(job: Job, fs: FS, name: string)
    ensures LowerHex(job.Hash(name), job.env.codecs.md5(name))
    ensures var base := job.config.places.buildpacksDir + [job.Hash(name)];
            && (There(job.env, fs, base + ["bin"]) ==> job.Resolve(fs, name) == Some(base))
            && (forall n :: !There(job.env, fs, base + ["bin"]) && OnlyEntry(fs, base, n)
                            && At(fs, base) == Some(Dir) && !job.env.unreadable(base) ==>
                  job.Resolve(fs, name)
                  == if There(job.env, fs, base + [n] + ["bin"]) then Some(base + [n]) else None)
            && (job.Resolve(fs, name).Some? ==>
                  || There(job.env, fs, base + ["bin"])
                  || (At(fs, base) == Some(Dir) && exists n :: OnlyEntry(fs, base, n)))
  {
    hide Job.Hash, Names;
    var base := job.config.places.buildpacksDir + [job.Hash(name)];
    HexText(job.env.codecs.md5(name), job.Hash(name));
    assert job.Hash(name) == Hex(job.env.codecs.md5(name)) by { HashIs(job, name); }
    forall n
      ensures OnlyEntry(fs, base, n) <==> Names(fs, base) == {n}
    {
      NamesOnly(fs, base, n);
    }
    if |Names(fs, base)| == 1 {
      var n := Only(Names(fs, base));
      assert OnlyEntry(fs, base, n);
    }
  }

  lemma HashIs(job: Job, name: string)
    ensures job.Hash(name) == Hex(job.env.codecs.md5(name))
  {
  }

  lemma NamesOnly(fs: FS, dir: Path, n: string)
    ensures OnlyEntry(fs, dir, n) <==> Names(fs, dir) == {n}
  {
    assert forall m :: At(fs, dir + [m]).Some? <==> m in Names(fs, dir);
    if OnlyEntry(fs, dir, n) {
      forall m
        ensures m in Names(fs, dir) <==> m == n
      {
      }
    }
  }

  /** The commands of the Procfile: a file that parses, or none at all. */
  ghost predicate Commands(env: Env, fs: FS, p: Path, commands: map<string, string>) {
    && !env.unreadable(p)
    && match At(fs, p)
       case Some(File(bytes)) => env.codecs.procfile(bytes) == Some(commands)
       case Some(Dir) => false
       case None => commands == map[] && forall q :: q <= p && At(fs, q).Some? ==> At(fs, q) == Some(Dir)
  }

  lemma ProcfileIs(job: Job, fs: FS, commands: map<string, string>)
    ensures job.Procfile(fs) == Some(commands) <==>
            Commands(job.env, fs, job.config.places.buildDir + ["Procfile"], commands)
  {
    var p := job.config.places.buildDir + ["Procfile"];
    forall q | q <= p && At(fs, q).Some?
      ensures q in Prefixes(p) && q in fs && At(fs, q) == Some(fs[q])
    {
    }
  }
}
