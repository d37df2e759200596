/** The commands of a publication around the mutable phase: promoting the immutable directories,
    finalizing and aborting. */
module EdgeCommands {
  import opened Options
  import opened Seqs
  import opened EdgeDisk
  import opened EdgeMutable
  import opened EdgeChecksums

  /** What the commands take from outside: the hash and size of contents, the release tag inside a
      driver index (None: unreadable, empty: no tag) and the order a directory is listed in. */
  datatype Env = Env(
    sha: Content -> string,
    size: Content -> nat,
    indexTag: Content -> Option<Tag>,
    list: set<Path> -> seq<Path>)

  ghost predicate Proper(e: Env) {
    forall s :: NoDup(e.list(s)) && Elems(e.list(s)) == s
  }

  ghost predicate Collisionless(e: Env) {
    forall x, y :: e.sha(x) == e.sha(y) ==> x == y
  }

  function TransactionFiles(files: map<Path, Content>, gen: Generation): set<Path> {
    set p | p in files && InTransaction(gen, p)
  }

  function StageFiles(files: map<Path, Content>, stage: Stage): set<Path> {
    set p | p in files && InStage(stage, p)
  }

  function DirectoryFiles(files: map<Path, Content>, stage: Stage, dir: Parts): set<Path> {
    set p | p in files && p.Payload? && p.stage == stage && IsBelow(dir, p.parts)
  }

  // ----- promoting the immutable directories -----

  predicate DirectoriesEqual(e: Env, left: Directory, right: Directory) {
    left.Keys == right.Keys && forall n :: n in left ==> e.size(left[n]) == e.size(right[n]) && e.sha(left[n]) == e.sha(right[n])
  }

  function StagedDirectory(files: map<Path, Content>, a: Args, kind: Kind, tag: Tag): Directory {
    Below(PayloadOf(files, a.stage), VersionDir(a.ch, kind, tag))
  }

  /** An existing directory is never written: it must already hold the same files. */
  function PromoteDirectory(w: World, a: Args, e: Env, kind: Kind, tag: Tag): World {
    var v, dir := Version(a.ch, kind, tag), VersionDir(a.ch, kind, tag);
    var source := StagedDirectory(w.disk.files, a, kind, tag);
    if source == map[] then Refuse(w)
    else if v !in w.disk.versions then Do(w, MoveDirectory(a.stage, dir, v))
    else if !DirectoriesEqual(e, source, w.disk.versions[v]) then Refuse(w)
    else RemoveTreeStrictly(w, e.list(DirectoryFiles(w.disk.files, a.stage, dir)))
  }

  /** The driver release an app-only publication keeps; None: the records disagree or are broken. */
  function InheritedDriverTag(d: Disk, a: Args, e: Env): Option<Tag> {
    var statePath, indexPath := ChannelState(a.ch), Latest(a.ch, Driver);
    if statePath in d.files && !(d.files[statePath].Doc? && d.files[statePath].doc.channel == a.ch) then None
    else
      var stateTag := if statePath in d.files then d.files[statePath].doc.driverTag else "";
      var latest := if indexPath in d.files then e.indexTag(d.files[indexPath]) else Some("");
      if latest == None then None
      else if latest.value == "" then if stateTag != "" then None else Some("")
      else if stateTag != "" && stateTag != latest.value then None
      else if Version(a.ch, Driver, latest.value) !in d.versions then None
      else latest
  }

  predicate StagedAccepted(d: Disk, a: Args, e: Env) {
    && Deployment(a.stage) in d.files && d.files[Deployment(a.stage)].Doc?
    && Sums(a.stage) in d.files && d.files[Sums(a.stage)].Text?
    && Accepts(e.sha, e.size, a, d.files[Deployment(a.stage)].doc, PayloadOf(d.files, a.stage), d.files[Sums(a.stage)].text)
  }

  predicate ProbeHolds(d: Disk, e: Env, doc: Document) {
    exists v, n :: v in d.versions && n in d.versions[v]
      && VersionDir(v.ch, v.kind, v.tag) + n == doc.probePath
      && e.size(d.versions[v][n]) == doc.probeSize && e.sha(d.versions[v][n]) == doc.probeSha
  }

  function PromoteDirectories(w: World, a: Args, e: Env): World {
    var r := PromoteDirectory(w, a, e, App, a.appTag);
    if a.driverTag == "" then r else PromoteDirectory(r, a, e, Driver, a.driverTag)
  }

  function PromoteImmutable(w: World, a: Args, e: Env): World {
    if w.status != Going then w
    else if !StagedAccepted(w.disk, a, e) then Refuse(w)
    else
      var doc := w.disk.files[Deployment(a.stage)].doc;
      var driver := if a.driverTag != "" then Some(a.driverTag) else InheritedDriverTag(w.disk, a, e);
      if driver == None then Refuse(w)
      else
        RecordReady(PromoteDirectories(w, a, e), a, e, doc, driver.value)
  }

  function ReadyDocument(doc: Document, driver: Tag): Document {
    doc.(driverTag := driver, phase := ReadyToPublish)
  }

  function RecordReady(w: World, a: Args, e: Env, doc: Document, driver: Tag): World {
    if w.status == Going && !ProbeHolds(w.disk, e, doc) then Refuse(w)
    else Do(w, Write(Ready(a.ch, a.gen), Doc(ReadyDocument(doc, driver))))
  }

  // ----- the other commands -----

  function Rollback(w: World, a: Args): World {
    Restore(w, a)
  }

  function Promote(w: World, a: Args, e: Env): World {
    PromoteMutable(w, a, e.list(TransactionFiles(w.disk.files, a.gen)))
  }

  function WipeTransaction(w: World, a: Args, e: Env): World {
    RemoveTree(w, e.list(TransactionFiles(w.disk.files, a.gen)))
  }

  function WipeStage(w: World, a: Args, e: Env): World {
    RemoveTree(w, e.list(StageFiles(w.disk.files, a.stage)))
  }

  /** The ready manifest becomes the channel's state; the health file is rewritten after it. */
  function Finalize(w: World, a: Args, e: Env): World {
    if PromotedMark(a.gen) !in w.disk.files then Refuse(w)
    else if Ready(a.ch, a.gen) !in w.disk.files then if w.status == Going then w.(status := Failed) else w
    else if !w.disk.files[Ready(a.ch, a.gen)].Doc? then Refuse(w)
    else
      var state := Doc(w.disk.files[Ready(a.ch, a.gen)].doc.(phase := Active));
      var announced := Do(Do(w, Write(ChannelState(a.ch), state)), Write(Health, Empty));
      WipeStage(WipeTransaction(announced, a, e), a, e)
  }

  function Abort(w: World, a: Args, e: Env): World {
    WipeTransaction(WipeStage(w, a, e), a, e)
  }

  datatype Command = VerifyStaged | PromoteImmutably | PromoteMutably | RollBack | Finish | GiveUp

  function Execute(w: World, c: Command, a: Args, e: Env): World {
    match c
    case VerifyStaged => if StagedAccepted(w.disk, a, e) then w else Refuse(w)
    case PromoteImmutably => PromoteImmutable(w, a, e)
    case PromoteMutably => Promote(w, a, e)
    case RollBack => Rollback(w, a)
    case Finish => Finalize(w, a, e)
    case GiveUp => Abort(w, a, e)
  }

  // ----- immutability -----

  ghost predicate VersionsKept(d: Disk, d': Disk) {
    forall v :: v in d.versions ==> v in d'.versions && d'.versions[v] == d.versions[v]
  }

  /** Only files staged below one directory may go; no file is new. */
  ghost predicate OnlyDirectoryShrinks(f: map<Path, Content>, g: map<Path, Content>, stage: Stage, dir: Parts) {
    && (forall p :: p in g ==> p in f && g[p] == f[p])
    && (forall p: Path :: p in f && !(p.Payload? && p.stage == stage && IsBelow(dir, p.parts)) ==> p in g)
  }

  lemma OutsideFrame(files: map<Path, Content>, stage: Stage, dir: Parts)
    ensures OnlyDirectoryShrinks(files, Outside(files, stage, dir), stage, dir)
  {
  }

  lemma AddedVersion(d: Disk, files: map<Path, Content>, v: Version, content: Directory)
    requires v !in d.versions
    ensures VersionsKept(d, Disk(files, d.versions[v := content]))
  {
  }

  lemma MoveFrame(w: World, stage: Stage, dir: Parts, v: Version)
    ensures var r := Do(w, MoveDirectory(stage, dir, v));
            VersionsKept(w.disk, r.disk) && OnlyDirectoryShrinks(w.disk.files, r.disk.files, stage, dir)
  {
    var d, op := w.disk, MoveDirectory(stage, dir, v);
    SameDisk(d, stage, dir);
    if v !in d.versions {
      var files, content := Outside(d.files, stage, dir), Below(PayloadOf(d.files, stage), dir);
      OutsideFrame(d.files, stage, dir);
      AddedVersion(d, files, v, content);
      assert Apply(d, op) == Disk(files, d.versions[v := content]);
    }
    assert Do(w, op).disk == d || (v !in d.versions && Do(w, op).disk == Apply(d, op));
  }

  lemma SameDisk(d: Disk, stage: Stage, dir: Parts)
    ensures VersionsKept(d, d) && OnlyDirectoryShrinks(d.files, d.files, stage, dir)
  {
  }

  lemma RemoveStagedFrame(w: World, e: Env, stage: Stage, dir: Parts)
    requires Proper(e)
    ensures var r := RemoveTreeStrictly(w, e.list(DirectoryFiles(w.disk.files, stage, dir)));
            && r.disk.versions == w.disk.versions
            && OnlyDirectoryShrinks(w.disk.files, r.disk.files, stage, dir)
            && (w.status != Going ==> r == w)
  {
    var order := e.list(DirectoryFiles(w.disk.files, stage, dir));
    RemoveTreeStrictlySubset(w, order);
    forall p: Path | p in order ensures p.Payload? && p.stage == stage && IsBelow(dir, p.parts) {
      assert p in Elems(order);
    }
  }

  /** A promotion of a directory changes no existing version and no file outside the payload. */
  lemma PromoteDirectoryFrame(w: World, a: Args, e: Env, kind: Kind, tag: Tag)
    requires Proper(e)
    ensures var r := PromoteDirectory(w, a, e, kind, tag);
            && VersionsKept(w.disk, r.disk)
            && OnlyDirectoryShrinks(w.disk.files, r.disk.files, a.stage, VersionDir(a.ch, kind, tag))
            && (w.status != Going ==> r == w)
  {
    var v, dir := Version(a.ch, kind, tag), VersionDir(a.ch, kind, tag);
    if v !in w.disk.versions {
      MoveFrame(w, a.stage, dir, v);
    } else {
      RemoveStagedFrame(w, e, a.stage, dir);
    }
  }

  /** A promoted directory is there and holds exactly the staged files. */
  lemma PromoteDirectoryHolds(w: World, a: Args, e: Env, kind: Kind, tag: Tag)
    requires Proper(e) && PromoteDirectory(w, a, e, kind, tag).status == Going
    ensures w.status == Going
    ensures var r, v := PromoteDirectory(w, a, e, kind, tag), Version(a.ch, kind, tag);
            && v in r.disk.versions
            && (Collisionless(e) ==> r.disk.versions[v] == StagedDirectory(w.disk.files, a, kind, tag))
  {
    PromoteDirectoryFrame(w, a, e, kind, tag);
    var v, source := Version(a.ch, kind, tag), StagedDirectory(w.disk.files, a, kind, tag);
    if v in w.disk.versions && DirectoriesEqual(e, source, w.disk.versions[v]) {
      if Collisionless(e) {
        SameDirectories(e, source, w.disk.versions[v]);
      }
    }
  }

  lemma SameDirectories(e: Env, left: Directory, right: Directory)
    requires Collisionless(e) && DirectoriesEqual(e, left, right)
    ensures left == right
  {
  }
}
