/** What installing buildpacks amounts to: which calls are made, what is left alone, and what is in
    each buildpack's directory in the end. */
module InstalledBuildpacks {
  import opened Prelude
  import opened FileSystem
  import opened Models
  import opened World
  import opened Unzip
  import opened Buildpacks

  // ----- Which calls are made

  const FETCHES := (a: Action) => a.Fetched?
  const PREPARATIONS := (a: Action) => a.WroteZip? || a.MadeDest?
  const EXTRACTIONS := (a: Action) => a.Extracted?
  const CLONES := (a: Action) => a.Cloned?

  /** The actions of one kind, in order. */
  function Picked(deeds: seq<Deed>, kind: Action -> bool): seq<Action> {
    if deeds == [] then []
    else
      var front, a := Picked(deeds[..|deeds| - 1], kind), deeds[|deeds| - 1].act;
      if kind(a) then front + [a] else front
  }

  /** The zip came from the internal client, or from the default one after that failed. */
  ghost predicate Served(fetches: seq<Action>, url: string, zip: Bytes) {
    || fetches == [Fetched(true, url, Some(zip))]
    || fetches == [Fetched(true, url, None), Fetched(false, url, Some(zip))]
  }

  /** One clone that worked; or a failed shallow one and then one that is not. */
  ghost predicate ClonedAs(clones: seq<Action>, repo: Url, dest: Path, ok: bool) {
    || (ok && clones == [Cloned(CloneArgs(true, repo, dest), true)])
    || clones == [Cloned(CloneArgs(true, repo, dest), false), Cloned(CloneArgs(false, repo, dest), ok)]
  }

  /** What was served was written to a file, the directory was made, and the file was extracted
      once, with this result. */
  ghost predicate ExtractedOnce(task: Task, deeds: seq<Deed>, ok: bool) {
    exists file, zip ::
      && Served(Picked(deeds, FETCHES), task.url, zip)
      && Picked(deeds, PREPARATIONS) == [WroteZip(file, zip, true), MadeDest(task.dest, true)]
      && Picked(deeds, EXTRACTIONS) == [Extracted(file, task.dest, ok)]
  }

  ghost predicate Untried(deeds: seq<Deed>) {
    Picked(deeds, EXTRACTIONS) == [] && Picked(deeds, CLONES) == []
  }

  /** What has been done when a stage is reached. */
  ghost predicate Story(task: Task, deeds: seq<Deed>, s: Stage, fs: FS) {
    var fetches, prepared, clones := Picked(deeds, FETCHES), Picked(deeds, PREPARATIONS), Picked(deeds, CLONES);
    match s
    case Begun => fetches == [] && prepared == [] && Untried(deeds)
    case InTemp(_) => fetches == [] && prepared == [] && Untried(deeds)
    case Refused(_) => fetches == [Fetched(true, task.url, None)] && prepared == [] && Untried(deeds)
    case Holding(_, zip) => Served(fetches, task.url, zip) && prepared == [] && Untried(deeds)
    case Stored(file, zip) =>
      && Served(fetches, task.url, zip) && prepared == [WroteZip(file, zip, true)]
      && Untried(deeds) && At(fs, file) == Some(File(zip))
    case Ready(file, zip) =>
      && Served(fetches, task.url, zip) && prepared == [WroteZip(file, zip, true), MadeDest(task.dest, true)]
      && Untried(deeds) && At(fs, file) == Some(File(zip)) && At(fs, task.dest) == Some(Dir)
    case Closing(_, ok, notZip) =>
      && clones == [] && !(ok && notZip)
      && if ok || notZip then ExtractedOnce(task, deeds, ok) else Untried(deeds)
    case Cloning => ExtractedOnce(task, deeds, false) && clones == [] && task.repo.Some?
    case Clearing => Retrying(task, deeds)
    case Recloning => Retrying(task, deeds)
    case Over(ok, notZip) => Told(task, deeds, ok, notZip)
    case Astray => true
  }

  ghost predicate Retrying(task: Task, deeds: seq<Deed>) {
    ExtractedOnce(task, deeds, false) && task.repo.Some? &&
    Picked(deeds, CLONES) == [Cloned(CloneArgs(true, task.repo.value, task.dest), false)]
  }

  ghost predicate Told(task: Task, deeds: seq<Deed>, ok: bool, notZip: bool) {
    var clones := Picked(deeds, CLONES);
    if notZip then
      ExtractedOnce(task, deeds, false) &&
      if task.repo.Some? then ClonedAs(clones, task.repo.value, task.dest, ok) else !ok && clones == []
    else clones == [] && if ok then ExtractedOnce(task, deeds, true) else Untried(deeds)
  }

  lemma {:induction false} Tells(env: Env, limit: int, task: Task, fs0: FS, deeds: seq<Deed>, fs: FS)
    requires Did(env, limit, fs0, deeds, fs)
    ensures Story(task, deeds, Stages(task, Begun, deeds), fs)
  {
    hide Story, Happened, Next, Did;
    if deeds == [] {
      StoryBegins(task, fs);
    } else {
      var front, d := deeds[..|deeds| - 1], deeds[|deeds| - 1];
      DidFront(env, limit, fs0, deeds, fs);
      Tells(env, limit, task, fs0, front, d.before);
      StoryGoesOn(env, limit, task, deeds, Stages(task, Begun, front));
    }
  }

  lemma StoryBegins(task: Task, fs: FS)
    ensures Story(task, [], Begun, fs)
  {
  }

  lemma StoryGoesOn(env: Env, limit: int, task: Task, deeds: seq<Deed>, s: Stage)
    requires deeds != [] && Happened(env, limit, deeds[|deeds| - 1])
    requires Story(task, deeds[..|deeds| - 1], s, deeds[|deeds| - 1].before)
    ensures var d := deeds[|deeds| - 1]; Story(task, deeds, Next(task, s, d.act), d.after)
  {
    hide *;
    if s.Begun? || s.InTemp? || s.Refused? || s.Holding? || s.Stored? {
      StoryPrepares(env, limit, task, deeds, s);
    } else if s.Ready? || s.Closing? {
      StoryExtracts(env, limit, task, deeds, s);
    } else {
      StoryClones(env, limit, task, deeds, s);
    }
  }

  lemma StoryPrepares(env: Env, limit: int, task: Task, deeds: seq<Deed>, s: Stage)
    requires deeds != [] && Happened(env, limit, deeds[|deeds| - 1])
    requires Story(task, deeds[..|deeds| - 1], s, deeds[|deeds| - 1].before)
    requires s.Begun? || s.InTemp? || s.Refused? || s.Holding? || s.Stored?
    ensures var d := deeds[|deeds| - 1]; Story(task, deeds, Next(task, s, d.act), d.after)
  {
    hide CanWrite, CanMkdirs, Extraction, CloneArgs, ExtractedOnce, ClonedAs, Quiet;
    var d := deeds[|deeds| - 1];
    if s.Stored? && d.act.MadeDest? && d.act.ok {
      MkdirsAt(d.before, d.act.dest);
      MadeIsDir(d.before, d.act.dest);
      assert s.file in d.before;
    }
  }

  lemma MadeIsDir(fs: FS, p: Path)
    ensures CanMkdirs(fs, p) ==> At(Mkdirs(fs, p), p) == Some(Dir)
  {
    MkdirsAt(fs, p);
    assert p in Prefixes(p);
  }

  lemma StoryExtracts(env: Env, limit: int, task: Task, deeds: seq<Deed>, s: Stage)
    requires deeds != [] && Story(task, deeds[..|deeds| - 1], s, deeds[|deeds| - 1].before)
    requires s.Ready? || s.Closing?
    ensures var d := deeds[|deeds| - 1]; Story(task, deeds, Next(task, s, d.act), d.after)
  {
    hide Happened, CloneArgs, Served, ClonedAs, PathOf;
  }

  lemma StoryClones(env: Env, limit: int, task: Task, deeds: seq<Deed>, s: Stage)
    requires deeds != [] && Story(task, deeds[..|deeds| - 1], s, deeds[|deeds| - 1].before)
    requires s.Cloning? || s.Clearing? || s.Recloning? || s.Over? || s.Astray?
    ensures var d := deeds[|deeds| - 1]; Story(task, deeds, Next(task, s, d.act), d.after)
  {
    hide Happened, CloneArgs, Served, PathOf;
  }

  /** Git is tried exactly for a buildpack whose download was served by one of the two clients, whose
      file and directory could be made and whose extraction failed, if its URL parses and there is a
      git; at most twice, and not shallow only after a shallow clone failed. It is installed exactly
      if the extraction or the last clone worked. */
  lemma GitIsTheFallback(env: Env, limit: int, task: Task, r: Installed)
    requires Installation(env, limit, task, r)
    ensures var clones := Picked(r.deeds, CLONES);
            && (clones != [] <==> ExtractedOnce(task, r.deeds, false) && task.repo.Some?)
            && (clones != [] ==> ClonedAs(clones, task.repo.value, task.dest, r.ok))
            && (r.ok <==> ExtractedOnce(task, r.deeds, true) ||
                          (clones != [] && clones[|clones| - 1].ok))
  {
    hide Did, Served, CloneArgs, Stages;
    Tells(env, limit, task, r.before, r.deeds, r.after);
  }

  // ----- What is left alone

  /** Neither git nor a zip reaches out of the directory it is given. */
  ghost predicate Contained(env: Env) {
    ConfinedGit(env) && TameZips(env.codecs)
  }

  /** Not in the buildpack's directory or above it, nor in a temporary one. */
  ghost predicate Beyond(env: Env, dest: Path, q: Path) {
    Apart(dest, q) && env.TempApart(q)
  }

  ghost predicate KeptBeyond(env: Env, dest: Path, a: FS, b: FS) {
    forall q :: Beyond(env, dest, q) ==> At(b, q) == At(a, q)
  }

  /** The downloaded file is in a temporary directory. */
  ghost predicate InTempDir(env: Env, s: Stage) {
    match s
    case InTemp(dir) => exists tick :: dir == env.TempPath(tick)
    case Refused(dir) => exists tick :: dir == env.TempPath(tick)
    case Holding(dir, _) => exists tick :: dir == env.TempPath(tick)
    case Stored(file, _) => exists tick :: env.TempPath(tick) < file
    case Ready(file, _) => exists tick :: env.TempPath(tick) < file
    case Closing(file, _, _) => exists tick :: env.TempPath(tick) < file
    case _ => true
  }

  lemma StaysInTempDir(env: Env, limit: int, task: Task, s: Stage, d: Deed)
    requires Happened(env, limit, d) && InTempDir(env, s)
    ensures InTempDir(env, Next(task, s, d.act))
  {
    hide Extraction, WriteHappened, CloneArgs;
  }

  lemma BeneathTemp(env: Env, file: Path, q: Path, tick: nat)
    requires env.TempPath(tick) <= file && env.TempApart(q)
    ensures !(file <= q)
  {
    assert Apart(env.TempPath(tick), q);
  }

  lemma {:induction false} AppliedBeneath(fs: FS, dest: Path, entries: seq<ZipEntry>, q: Path)
    requires Apart(dest, q) && Tame(entries)
    ensures At(AppliedAll(fs, dest, entries), q) == At(fs, q)
  {
    if entries != [] {
      var n := |entries| - 1;
      var front, p := entries[..n], Join(dest, entries[n].name);
      AppliedBeneath(fs, dest, front, q);
      AppliedAt(AppliedAll(fs, dest, front), dest, entries[n], q);
      TameStays(dest, entries, n);
      ApartNotAbove(dest, p, q);
      PrefixOfParent(q, p);
    }
  }

  lemma ApartNotAbove(dest: Path, p: Path, q: Path)
    requires dest <= p && Apart(dest, q)
    ensures !(q <= p)
  {
    if q <= p {
      PrefixesNest(dest, q, p);
    }
  }

  lemma PrefixOfParent(q: Path, p: Path)
    requires !(q <= p)
    ensures !(q <= Parent(p))
  {
  }

  lemma ExtractionBeneath(env: Env, limit: int, listing: Option<seq<ZipEntry>>, dest: Path, ok: bool,
                          before: FS, after: FS, q: Path)
    requires Extraction(env, limit, listing, dest, ok, before, after) && Apart(dest, q)
    requires listing.Some? ==> Tame(listing.value)
    ensures At(after, q) == At(before, q)
  {
    hide AppliedAll, CanApplyAll, WithinLimit, CanApply, MadeDir, PartWritten, Join;
    if dest != [] && listing.Some? {
      var entries := listing.value;
      AppliedBeneath(before, dest, entries, q);
      if !ok {
        var at :| 0 <= at < |entries| && StoppedAt(env, limit, entries, at, dest, before, after);
        AppliedBeneath(before, dest, entries[..at], q);
        TameStays(dest, entries, at);
        ApartNotAbove(dest, Join(dest, entries[at].name), q);
      }
    }
  }

  lemma MkdirsBeneath(fs: FS, dest: Path, p: Path, q: Path)
    requires p <= dest && Apart(dest, q)
    ensures At(Mkdirs(fs, p), q) == At(fs, q)
  {
    MkdirsAt(fs, p);
    if q <= p {
      PrefixTrans(q, p, dest);
    }
  }

  lemma DeedKeeps(env: Env, limit: int, task: Task, s: Stage, d: Deed, q: Path)
    requires Happened(env, limit, d) && InTempDir(env, s) && Next(task, s, d.act) != Astray
    requires Contained(env) && Beyond(env, task.dest, q)
    ensures At(d.after, q) == At(d.before, q)
  {
    hide Extraction, Mkdirs, Entries, ConfinedGit, TameZips, CanTempDir, CanMkdirs, CanWrite, CloneArgs, Pruned;
    match d.act
    case MadeTemp(dir, ok) =>
      var tick :| dir == env.TempPath(tick);
      assert Apart(env.TempPath(tick), q);
    case Fetched(_, _, _) =>
    case WroteZip(file, zip, ok) =>
      var tick :| s.dir == env.TempPath(tick);
      BeneathTemp(env, file, q, tick);
    case MadeDest(dest, ok) =>
      MkdirsBeneath(d.before, dest, dest, q);
      if !ok && d.after != d.before {
        var p :| p <= dest && d.after == Mkdirs(d.before, p);
        MkdirsBeneath(d.before, dest, p, q);
      }
    case Extracted(file, dest, ok) =>
      TameListing(env, d.before, file);
      ExtractionBeneath(env, limit, Entries(env, d.before, file), dest, ok, d.before, d.after, q);
    case Removed(p) =>
      if s.Closing? {
        var tick :| env.TempPath(tick) < s.file;
        BeneathTemp(env, s.file, q, tick);
      }
    case Cloned(args, ok) =>
      assert forall dest :: Dest(dest) in args ==> dest == task.dest by { OneDest(task, s.Cloning?); }
      GitKeeps(env, args, d, q, task.dest);
  }

  lemma OneDest(task: Task, shallow: bool)
    requires task.repo.Some?
    ensures forall dest :: Dest(dest) in CloneArgs(shallow, task.repo.value, task.dest) ==> dest == task.dest
  {
  }

  lemma GitKeeps(env: Env, args: seq<Arg>, d: Deed, q: Path, dest: Path)
    requires ConfinedGit(env) && d.act.Cloned? && d.act.args == args
    requires exists tick, output :: env.git(tick, args, d.before) == Outcome(d.act.ok, output, d.after)
    requires (forall p :: Dest(p) in args ==> p == dest) && Apart(dest, q)
    ensures At(d.after, q) == At(d.before, q)
  {
    var tick, output :| env.git(tick, args, d.before) == Outcome(d.act.ok, output, d.after);
    assert At(env.git(tick, args, d.before).fs, q) == At(d.before, q);
  }

  /** Installing a buildpack changes nothing but its own directory, those above it and temporary
      ones. */
  lemma {:induction false} InstallationKeeps(env: Env, limit: int, task: Task, fs0: FS, deeds: seq<Deed>, fs: FS)
    requires Did(env, limit, fs0, deeds, fs) && Stages(task, Begun, deeds) != Astray && Contained(env)
    ensures InTempDir(env, Stages(task, Begun, deeds)) && KeptBeyond(env, task.dest, fs0, fs)
  {
    hide Happened, Next, Did, InTempDir, Contained, Beyond;
    if deeds == [] {
      NoDeeds(env, limit, fs0, fs);
      assert InTempDir(env, Begun) by { BeginsTempless(env); }
    } else {
      var front, d := deeds[..|deeds| - 1], deeds[|deeds| - 1];
      DidFront(env, limit, fs0, deeds, fs);
      AstrayStays(task, Stages(task, Begun, front), d.act);
      InstallationKeeps(env, limit, task, fs0, front, d.before);
      StaysInTempDir(env, limit, task, Stages(task, Begun, front), d);
      forall q | Beyond(env, task.dest, q)
        ensures At(fs, q) == At(fs0, q)
      {
        DeedKeeps(env, limit, task, Stages(task, Begun, front), d, q);
      }
    }
  }

  lemma BeginsTempless(env: Env)
    ensures InTempDir(env, Begun)
  {
  }

  lemma AstrayStays(task: Task, s: Stage, a: Action)
    requires Next(task, s, a) != Astray
    ensures s != Astray
  {
  }

  // ----- What is in the buildpack's directory

  /** A directory, with the zip's entries, later over earlier ones, over what was there. */
  ghost predicate Filled(env: Env, limit: int, dest: Path, zip: Bytes, fs0: FS, fs: FS) {
    && env.codecs.unzip(zip).Some? && At(fs, dest) == Some(Dir)
    && var entries := env.codecs.unzip(zip).value;
       && (forall e :: e in entries ==> WithinLimit(e, limit)) && Landed(dest, entries, fs)
       && forall q :: dest < q ==> At(fs, q) == Laid(dest, entries, fs0, q)
  }

  ghost function Laid(dest: Path, entries: seq<ZipEntry>, fs0: FS, q: Path): Option<Entry> {
    match LastFile(dest, entries, q)
    case Some(e) => Some(File(e.bytes))
    case None => if q !in fs0 && NeedsDir(dest, entries, q) then Some(Dir) else At(fs0, q)
  }

  ghost predicate SameBeneath(dest: Path, a: FS, b: FS) {
    forall q :: dest < q ==> At(b, q) == At(a, q)
  }

  /** The directory is as it was until the extraction, and filled after one that worked. */
  ghost predicate Contents(env: Env, limit: int, task: Task, fs0: FS, deeds: seq<Deed>, s: Stage, fs: FS) {
    match s
    case Closing(_, ok, _) => if ok then FilledAsServed(env, limit, task, fs0, deeds, fs) else true
    case Over(ok, notZip) => ok && !notZip ==> FilledAsServed(env, limit, task, fs0, deeds, fs)
    case Cloning => true
    case Clearing => true
    case Recloning => true
    case Astray => true
    case _ => SameBeneath(task.dest, fs0, fs)
  }

  ghost predicate FilledAsServed(env: Env, limit: int, task: Task, fs0: FS, deeds: seq<Deed>, fs: FS) {
    forall zip :: Served(Picked(deeds, FETCHES), task.url, zip) ==> Filled(env, limit, task.dest, zip, fs0, fs)
  }

  lemma {:induction false} ContentsKept(env: Env, limit: int, task: Task, fs0: FS, deeds: seq<Deed>, fs: FS)
    requires Did(env, limit, fs0, deeds, fs) && env.TempApart(task.dest)
    ensures Contents(env, limit, task, fs0, deeds, Stages(task, Begun, deeds), fs)
  {
    hide Happened, Next, Did, Story, Contents, InTempDir, Env.TempApart;
    if deeds == [] {
      NoDeeds(env, limit, fs0, fs);
      ContentsBegin(env, limit, task, fs0);
    } else {
      var front, d := deeds[..|deeds| - 1], deeds[|deeds| - 1];
      DidFront(env, limit, fs0, deeds, fs);
      ContentsKept(env, limit, task, fs0, front, d.before);
      Tells(env, limit, task, fs0, front, d.before);
      TempDirs(env, limit, task, fs0, front, d.before);
      ContentsGoOn(env, limit, task, fs0, deeds, Stages(task, Begun, front));
    }
  }

  lemma ContentsBegin(env: Env, limit: int, task: Task, fs: FS)
    ensures Contents(env, limit, task, fs, [], Begun, fs)
  {
  }

  lemma {:induction false} TempDirs(env: Env, limit: int, task: Task, fs0: FS, deeds: seq<Deed>, fs: FS)
    requires Did(env, limit, fs0, deeds, fs)
    ensures InTempDir(env, Stages(task, Begun, deeds))
  {
    hide Happened, Next, Did, InTempDir;
    if deeds == [] {
      BeginsTempless(env);
    } else {
      DidFront(env, limit, fs0, deeds, fs);
      TempDirs(env, limit, task, fs0, deeds[..|deeds| - 1], deeds[|deeds| - 1].before);
      StaysInTempDir(env, limit, task, Stages(task, Begun, deeds[..|deeds| - 1]), deeds[|deeds| - 1]);
    }
  }

  lemma TempBeneath(env: Env, dest: Path, q: Path, tick: nat)
    requires env.TempApart(dest) && dest <= q
    ensures !(env.TempPath(tick) <= q)
  {
    if env.TempPath(tick) <= q {
      PrefixesNest(env.TempPath(tick), dest, q);
    }
  }

  lemma TempOutside(env: Env, dest: Path, file: Path, tick: nat, a: FS, b: FS)
    requires env.TempPath(tick) <= file && env.TempApart(dest)
    requires forall q :: !(file <= q) ==> At(b, q) == At(a, q)
    ensures SameBeneath(dest, a, b) && At(b, dest) == At(a, dest)
  {
    forall q | dest <= q
      ensures At(b, q) == At(a, q)
    {
      TempBeneath(env, dest, q, tick);
    }
  }

  /** Before the extraction nothing changes beneath the directory, and its removal of the zip does
      not either. */
  lemma DirUntouched(env: Env, limit: int, task: Task, s: Stage, d: Deed)
    requires Happened(env, limit, d) && env.TempApart(task.dest) && InTempDir(env, s)
    requires s.Begun? || s.InTemp? || s.Refused? || s.Holding? || s.Stored? || s.Closing?
    requires Next(task, s, d.act) != Astray
    ensures SameBeneath(task.dest, d.before, d.after)
    ensures s.Closing? ==> At(d.after, task.dest) == At(d.before, task.dest)
  {
    hide Mkdirs, CanWrite, CanMkdirs, CanTempDir, Env.TempApart, Env.TempPath, Pruned;
    match d.act
    case MadeTemp(dir, ok) =>
      var tick :| dir == env.TempPath(tick);
      TempOutside(env, task.dest, dir, tick, d.before, d.after);
    case Fetched(_, _, _) =>
    case WroteZip(file, _, _) =>
      var tick :| s.dir == env.TempPath(tick);
      TempOutside(env, task.dest, file, tick, d.before, d.after);
    case MadeDest(dest, ok) =>
      MkdirsAt(d.before, dest);
      if !ok && d.after != d.before {
        var p :| p <= dest && d.after == Mkdirs(d.before, p);
        MkdirsAt(d.before, p);
      }
    case Removed(file) =>
      var tick :| env.TempPath(tick) < file;
      TempOutside(env, task.dest, file, tick, d.before, d.after);
  }

  lemma ContentsGoOn(env: Env, limit: int, task: Task, fs0: FS, deeds: seq<Deed>, s: Stage)
    requires deeds != [] && Happened(env, limit, deeds[|deeds| - 1]) && env.TempApart(task.dest)
    requires InTempDir(env, s)
    requires Story(task, deeds[..|deeds| - 1], s, deeds[|deeds| - 1].before)
    requires Contents(env, limit, task, fs0, deeds[..|deeds| - 1], s, deeds[|deeds| - 1].before)
    ensures var d := deeds[|deeds| - 1]; Contents(env, limit, task, fs0, deeds, Next(task, s, d.act), d.after)
  {
    hide Filled, Extraction, Served, Entries, CloneArgs, Env.TempApart, InTempDir, SameBeneath;
    hide WriteHappened, Mkdirs, CanMkdirs, CanTempDir, Pruned;
    var d := deeds[|deeds| - 1];
    if s.Ready? {
      if Next(task, s, d.act) != Astray && d.act.ok {
        FilledBy(env, limit, task.dest, s.file, s.zip, fs0, d.before, d.after);
        OneServed(Picked(deeds, FETCHES), task.url, s.zip);
      }
    } else if !(s.Cloning? || s.Clearing? || s.Recloning? || s.Over?) && Next(task, s, d.act) != Astray {
      DirUntouched(env, limit, task, s, d);
      SameTrans(task.dest, fs0, d.before, d.after);
      forall zip | s.Closing? && Filled(env, limit, task.dest, zip, fs0, d.before)
        ensures Filled(env, limit, task.dest, zip, fs0, d.after)
      {
        FilledStill(env, limit, task.dest, zip, fs0, d.before, d.after);
      }
    }
  }

  lemma SameTrans(dest: Path, a: FS, b: FS, c: FS)
    ensures SameBeneath(dest, a, b) && SameBeneath(dest, b, c) ==> SameBeneath(dest, a, c)
  {
  }

  lemma FilledStill(env: Env, limit: int, dest: Path, zip: Bytes, fs0: FS, a: FS, b: FS)
    requires Filled(env, limit, dest, zip, fs0, a) && SameBeneath(dest, a, b) && At(b, dest) == At(a, dest)
    ensures Filled(env, limit, dest, zip, fs0, b)
  {
    hide Laid, Plain, WithinLimit;
    forall q | dest <= q
      ensures At(b, q) == At(a, q)
    {
      assert q == dest || dest < q;
    }
    LandedStill(dest, env.codecs.unzip(zip).value, a, b);
  }

  lemma LandedStill(dest: Path, entries: seq<ZipEntry>, a: FS, b: FS)
    requires Landed(dest, entries, a) && forall q :: dest <= q ==> At(b, q) == At(a, q)
    ensures Landed(dest, entries, b)
  {
    hide Plain, Overwritten;
    forall i | 0 <= i < |entries|
      ensures At(b, dest + entries[i].name) == At(a, dest + entries[i].name)
    {
      assert dest <= dest + entries[i].name;
    }
  }

  lemma OneServed(fetches: seq<Action>, url: string, zip: Bytes)
    requires Served(fetches, url, zip)
    ensures forall other :: Served(fetches, url, other) ==> other == zip
  {
  }

  lemma FilledBy(env: Env, limit: int, dest: Path, file: Path, zip: Bytes, fs0: FS, before: FS, after: FS)
    requires At(before, file) == Some(File(zip)) && At(before, dest) == Some(Dir) && SameBeneath(dest, fs0, before)
    requires Extraction(env, limit, Entries(env, before, file), dest, true, before, after)
    ensures Filled(env, limit, dest, zip, fs0, after)
  {
    hide AppliedAll, CanApply;
    var entries := Entries(env, before, file).value;
    assert env.codecs.unzip(zip) == Some(entries);
    DirsStay(before, dest, entries, limit, dest);
    AllLanded(before, dest, entries, limit);
    forall e | e in entries
      ensures WithinLimit(e, limit)
    {
      var i :| 0 <= i < |entries| && entries[i] == e;
    }
    forall q | dest < q
      ensures At(after, q) == Laid(dest, entries, fs0, q)
    {
      ExtractedAt(before, dest, entries, limit, q);
      assert At(before, q) == At(fs0, q);
    }
  }

  // ----- One buildpack, without its account

  ghost predicate SameFrom(dest: Path, a: FS, b: FS) {
    forall q :: dest <= q ==> At(b, q) == At(a, q)
  }

  /** The directory holds the entries of a zip that was downloaded, or what a clone left there. */
  ghost predicate InPlace(env: Env, limit: int, task: Task, fs0: FS, fs: FS) {
    || (exists tick, internal, zip ::
          env.fetch(tick, internal, task.url) == Some(zip) && Filled(env, limit, task.dest, zip, fs0, fs))
    || (task.repo.Some? && exists tick, shallow, before, output, left ::
          env.git(tick, CloneArgs(shallow, task.repo.value, task.dest), before) == Outcome(true, output, left) &&
          SameFrom(task.dest, left, fs))
  }

  lemma {:induction false} PickedIn(deeds: seq<Deed>, kind: Action -> bool, a: Action)
    requires a in Picked(deeds, kind)
    ensures exists i :: 0 <= i < |deeds| && deeds[i].act == a
  {
    var n := |deeds| - 1;
    if deeds[n].act != a {
      PickedIn(deeds[..n], kind, a);
      var i :| 0 <= i < n && deeds[..n][i].act == a;
      assert deeds[i].act == a;
    }
  }

  lemma ServedByMachine(env: Env, limit: int, fs0: FS, deeds: seq<Deed>, fs1: FS, url: string, zip: Bytes)
    requires Did(env, limit, fs0, deeds, fs1) && Served(Picked(deeds, FETCHES), url, zip)
    ensures exists tick, internal :: env.fetch(tick, internal, url) == Some(zip)
  {
    hide Extraction, WriteHappened;
    var fetches := Picked(deeds, FETCHES);
    var a := fetches[|fetches| - 1];
    PickedIn(deeds, FETCHES, a);
    var i :| 0 <= i < |deeds| && deeds[i].act == a;
    assert Happened(env, limit, deeds[i]);
    var tick :| env.fetch(tick, a.internal, a.url) == a.bytes;
  }

  lemma ClonedLast(env: Env, limit: int, task: Task, s: Stage, d: Deed)
    requires Happened(env, limit, d) && Next(task, s, d.act) == Over(true, true)
    ensures forall fs0 :: InPlace(env, limit, task, fs0, d.after)
  {
    hide CloneArgs, Filled;
    assert d.act.Cloned? && d.act.ok && task.repo.Some?;
    var shallow := s.Cloning?;
    var tick, output :| env.git(tick, d.act.args, d.before) == Outcome(true, output, d.after);
    assert env.git(tick, CloneArgs(shallow, task.repo.value, task.dest), d.before) == Outcome(true, output, d.after);
  }

  lemma InstalledInPlace(env: Env, limit: int, task: Task, r: Installed)
    requires Installation(env, limit, task, r) && r.ok && env.TempApart(task.dest)
    ensures InPlace(env, limit, task, r.before, r.after)
  {
    hide Did, Happened, Next, Served, CloneArgs, Filled, Env.TempApart;
    var s := Stages(task, Begun, r.deeds);
    Tells(env, limit, task, r.before, r.deeds, r.after);
    ContentsKept(env, limit, task, r.before, r.deeds, r.after);
    if s.notZip {
      assert r.deeds != [];
      DidFront(env, limit, r.before, r.deeds, r.after);
      ClonedLast(env, limit, task, Stages(task, Begun, r.deeds[..|r.deeds| - 1]), r.deeds[|r.deeds| - 1]);
    } else {
      var zip :| Served(Picked(r.deeds, FETCHES), task.url, zip);
      ServedByMachine(env, limit, r.before, r.deeds, r.after, task.url, zip);
    }
  }

  // ----- All of them

  function TaskAt(env: Env, dir: Path, buildpacks: seq<Buildpack>, i: nat): Task
    requires i < |buildpacks|
  {
    TaskOf(env, buildpacks[i], PathOf(env, dir, buildpacks[i].name))
  }

  /** No two of these buildpacks have names with one md5 sum. */
  ghost predicate DistinctSums(env: Env, buildpacks: seq<Buildpack>) {
    forall i, j :: 0 <= i < j < |buildpacks| ==>
      env.codecs.md5(buildpacks[i].name) != env.codecs.md5(buildpacks[j].name)
  }

  lemma OneKeeps(env: Env, limit: int, dir: Path, buildpacks: seq<Buildpack>, fs0: FS, done: seq<Installed>, i: nat,
                 q: Path)
    requires Installations(env, limit, dir, buildpacks, fs0, done) && i < |done| && Contained(env)
    requires Beyond(env, TaskAt(env, dir, buildpacks, i).dest, q)
    ensures At(done[i].after, q) == At(FsAt(fs0, done, i), q)
  {
    hide Beyond, TaskOf, PathOf, Contained, Did, Stages, AllOk;
    InstallationKeeps(env, limit, TaskAt(env, dir, buildpacks, i), done[i].before, done[i].deeds, done[i].after);
  }

  lemma {:induction false} StretchKeeps(env: Env, limit: int, dir: Path, buildpacks: seq<Buildpack>, fs0: FS,
                                        done: seq<Installed>, m: nat, n: nat, q: Path)
    requires Installations(env, limit, dir, buildpacks, fs0, done) && m <= n <= |done| && Contained(env)
    requires forall i :: m <= i < n ==> Beyond(env, TaskAt(env, dir, buildpacks, i).dest, q)
    ensures At(FsAt(fs0, done, n), q) == At(FsAt(fs0, done, m), q)
    decreases n
  {
    hide Beyond, TaskAt, Contained, Installation, AllOk;
    if m < n {
      StretchKeeps(env, limit, dir, buildpacks, fs0, done, m, n - 1, q);
      OneKeeps(env, limit, dir, buildpacks, fs0, done, n - 1, q);
    }
  }

  /** Paths in the buildpacks directory are in no temporary one. */
  lemma TempApartWithin(env: Env, dir: Path, q: Path)
    requires env.TempApart(dir) && dir <= q
    ensures env.TempApart(q)
  {
    forall tick
      ensures Apart(env.TempPath(tick), q)
    {
      if env.TempPath(tick) <= q {
        PrefixesNest(env.TempPath(tick), dir, q);
      }
      if q <= env.TempPath(tick) {
        PrefixTrans(dir, q, env.TempPath(tick));
      }
      assert Apart(env.TempPath(tick), dir);
    }
  }

  lemma SiblingsApart(dir: Path, a: string, b: string, q: Path)
    requires a != b && dir + [b] <= q
    ensures Apart(dir + [a], q)
  {
    assert (dir + [a])[|dir|] == a && q[|dir|] == b;
  }

  lemma ConfigBeyond(env: Env, dir: Path, name: string)
    requires env.TempApart(dir)
    ensures Beyond(env, PathOf(env, dir, name), dir + ["config.json"])
  {
    HexLength(env.codecs.md5(name));
    SiblingsApart(dir, Hex(env.codecs.md5(name)), "config.json", dir + ["config.json"]);
    TempApartWithin(env, dir, dir + ["config.json"]);
  }

  lemma OtherBeyond(env: Env, dir: Path, a: string, b: string, q: Path)
    requires env.TempApart(dir) && env.codecs.md5(a) != env.codecs.md5(b) && PathOf(env, dir, b) <= q
    ensures Beyond(env, PathOf(env, dir, a), q)
  {
    var x, y := env.codecs.md5(a), env.codecs.md5(b);
    if Hex(x) == Hex(y) {
      HexInjective(x, y);
    }
    SiblingsApart(dir, Hex(x), Hex(y), q);
    assert dir <= dir + [Hex(y)];
    PrefixTrans(dir, dir + [Hex(y)], q);
    TempApartWithin(env, dir, q);
  }

  lemma TasksBeyond(env: Env, dir: Path, buildpacks: seq<Buildpack>, i: nat, j: nat, q: Path)
    requires i < |buildpacks| && j < |buildpacks| && i != j && DistinctSums(env, buildpacks)
    requires env.TempApart(dir) && TaskAt(env, dir, buildpacks, i).dest <= q
    ensures Beyond(env, TaskAt(env, dir, buildpacks, j).dest, q)
  {
    hide Env.TempApart, Beyond, PathOf;
    OtherBeyond(env, dir, buildpacks[j].name, buildpacks[i].name, q);
  }

  /** config.json is written only after every buildpack was installed; until then it is what it
      was. */
  lemma ConfigComesLast(env: Env, limit: int, dir: Path, json: string, fs0: FS, done: seq<Installed>, ok: bool, fs1: FS)
    requires Managed(env, limit, dir, json, fs0, done, ok, fs1) && Contained(env) && env.TempApart(dir)
    ensures var config, decoded := dir + ["config.json"], env.codecs.buildpacks(json);
            && (decoded.None? || !AllOk(done) ==> !ok && At(fs1, config) == At(fs0, config))
            && (decoded.Some? && AllOk(done) ==> |done| == |decoded.value|)
            && (ok ==> At(fs1, config) == Some(File(env.codecs.encodeBuildpacks(decoded.value))))
  {
    hide Installation, Env.TempApart, Contained, Beyond;
    if env.codecs.buildpacks(json).Some? {
      var bps := env.codecs.buildpacks(json).value;
      forall i | 0 <= i < |done|
        ensures Beyond(env, TaskAt(env, dir, bps, i).dest, dir + ["config.json"])
      {
        ConfigBeyond(env, dir, bps[i].name);
      }
      StretchKeeps(env, limit, dir, bps, fs0, done, 0, |done|, dir + ["config.json"]);
    }
  }

  /** What was installed for one buildpack is there at the end, and none of its directory had been
      touched before. */
  lemma OthersKeep(env: Env, limit: int, dir: Path, buildpacks: seq<Buildpack>, fs0: FS, done: seq<Installed>, i: nat)
    requires Installations(env, limit, dir, buildpacks, fs0, done) && i < |done|
    requires Contained(env) && env.TempApart(dir) && DistinctSums(env, buildpacks)
    ensures SameFrom(TaskAt(env, dir, buildpacks, i).dest, fs0, done[i].before)
    ensures SameFrom(TaskAt(env, dir, buildpacks, i).dest, done[i].after, FsAt(fs0, done, |done|))
  {
    hide Installation, Env.TempApart, Contained, Beyond, TaskAt, DistinctSums, AllOk;
    var dest := TaskAt(env, dir, buildpacks, i).dest;
    forall q | dest <= q
      ensures At(done[i].before, q) == At(fs0, q)
      ensures At(FsAt(fs0, done, |done|), q) == At(done[i].after, q)
    {
      forall j | 0 <= j < |done| && j != i
        ensures Beyond(env, TaskAt(env, dir, buildpacks, j).dest, q)
      {
        TasksBeyond(env, dir, buildpacks, i, j, q);
      }
      StretchKeeps(env, limit, dir, buildpacks, fs0, done, 0, i, q);
      StretchKeeps(env, limit, dir, buildpacks, fs0, done, i + 1, |done|, q);
    }
  }

  lemma InPlaceStill(env: Env, limit: int, task: Task, a: FS, b: FS, c: FS, d: FS)
    requires InPlace(env, limit, task, b, c) && SameFrom(task.dest, a, b) && SameFrom(task.dest, c, d)
    ensures InPlace(env, limit, task, a, d)
  {
    hide CloneArgs;
    if tick, internal, zip :| env.fetch(tick, internal, task.url) == Some(zip)
                              && Filled(env, limit, task.dest, zip, b, c) {
      FilledMoved(env, limit, task.dest, zip, a, b, c, d);
    } else {
      var tick, shallow, before, output, left :|
        env.git(tick, CloneArgs(shallow, task.repo.value, task.dest), before) == Outcome(true, output, left) &&
        SameFrom(task.dest, left, c);
      assert SameFrom(task.dest, left, d);
    }
  }

  lemma FilledMoved(env: Env, limit: int, dest: Path, zip: Bytes, a: FS, b: FS, c: FS, d: FS)
    requires Filled(env, limit, dest, zip, b, c) && SameFrom(dest, a, b) && SameFrom(dest, c, d)
    ensures Filled(env, limit, dest, zip, a, d)
  {
    hide LastFile, NeedsDir, Landed;
    LandedStill(dest, env.codecs.unzip(zip).value, c, d);
    forall q | dest < q
      ensures At(d, q) == Laid(dest, env.codecs.unzip(zip).value, a, q)
    {
      assert At(a, q) == At(b, q) && (q in a <==> q in b);
    }
  }

  /** A buildpack that was installed is in place, whatever was installed before and after it. */
  lemma EachInPlace(env: Env, limit: int, dir: Path, buildpacks: seq<Buildpack>, fs0: FS, done: seq<Installed>, i: nat)
    requires Installations(env, limit, dir, buildpacks, fs0, done) && i < |done| && done[i].ok
    requires Contained(env) && env.TempApart(dir) && DistinctSums(env, buildpacks)
    ensures InPlace(env, limit, TaskAt(env, dir, buildpacks, i), fs0, FsAt(fs0, done, |done|))
  {
    hide Installation, Contained, InPlace, SameFrom;
    var task := TaskAt(env, dir, buildpacks, i);
    TempApartWithin(env, dir, task.dest);
    InstalledInPlace(env, limit, task, done[i]);
    OthersKeep(env, limit, dir, buildpacks, fs0, done, i);
    InPlaceStill(env, limit, task, fs0, done[i].before, done[i].after, FsAt(fs0, done, |done|));
  }

  /** The manager changes nothing apart from the buildpacks directory and temporary ones. */
  lemma ManagerKeeps(env: Env, limit: int, dir: Path, json: string, fs0: FS, done: seq<Installed>, ok: bool, fs1: FS,
                     q: Path)
    requires Managed(env, limit, dir, json, fs0, done, ok, fs1) && Contained(env)
    requires Apart(dir, q) && env.TempApart(q)
    ensures At(fs1, q) == At(fs0, q)
  {
    hide Installation, Env.TempApart, Contained;
    if env.codecs.buildpacks(json).Some? {
      var bps := env.codecs.buildpacks(json).value;
      forall name: string
        ensures Apart(dir + [name], q)
      {
        ApartAbove(dir, dir + [name], q);
      }
      StretchKeeps(env, limit, dir, bps, fs0, done, 0, |done|, q);
      assert Apart(dir + ["config.json"], q);
    }
  }

  lemma ApartAbove(p: Path, r: Path, q: Path)
    requires p <= r && Apart(p, q)
    ensures Apart(r, q)
  {
    if q <= r {
      PrefixesNest(p, q, r);
    }
    if r <= q {
      PrefixTrans(p, r, q);
    }
  }

  /** After a successful installation every buildpack of the JSON text is in its directory, and
      config.json lists them. */
  lemma AllInPlace(env: Env, limit: int, dir: Path, json: string, fs0: FS, done: seq<Installed>, fs1: FS)
    requires Managed(env, limit, dir, json, fs0, done, true, fs1)
    requires Contained(env) && env.TempApart(dir)
    ensures env.codecs.buildpacks(json).Some?
    ensures var buildpacks := env.codecs.buildpacks(json).value;
            && At(fs1, dir + ["config.json"]) == Some(File(env.codecs.encodeBuildpacks(buildpacks)))
            && (DistinctSums(env, buildpacks) ==> forall i :: 0 <= i < |buildpacks| ==>
                  InPlace(env, limit, TaskAt(env, dir, buildpacks, i), fs0, fs1))
  {
    hide Installations, Contained, InPlace, Env.TempApart;
    ConfigComesLast(env, limit, dir, json, fs0, done, true, fs1);
    var buildpacks, installed := env.codecs.buildpacks(json).value, FsAt(fs0, done, |done|);
    if DistinctSums(env, buildpacks) {
      forall i | 0 <= i < |buildpacks|
        ensures InPlace(env, limit, TaskAt(env, dir, buildpacks, i), fs0, fs1)
      {
        var task := TaskAt(env, dir, buildpacks, i);
        EachInPlace(env, limit, dir, buildpacks, fs0, done, i);
        forall q | task.dest <= q
          ensures At(fs1, q) == At(installed, q)
        {
          ConfigBeyond(env, dir, buildpacks[i].name);
        }
        InPlaceStill(env, limit, task, fs0, fs0, installed, fs1);
      }
    }
  }
}
