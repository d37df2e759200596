/** When the commands of a publication complete, if nothing disturbs them: the exact conditions, read off
    the disk before the command. */
module EdgeCompletes {
  import opened Options
  import opened Seqs
  import opened PathText
  import opened EdgeDisk
  import opened EdgeMutable
  import opened EdgeChecksums
  import opened EdgeCommands
  import opened EdgeLive
  import opened EdgeAftermath

  // ----- promoting the immutable directories -----

  /** Two directories have the same names, and under each name the same size and hash. */
  ghost predicate Alike(e: Env, a: Directory, b: Directory) {
    && (forall n: Parts :: n in a <==> n in b)
    && (forall n: Parts :: n in a && n in b ==> e.size(a[n]) == e.size(b[n]) && e.sha(a[n]) == e.sha(b[n]))
  }

  /** Some file is staged for the release, and the release is new or there already with the same files. */
  ghost predicate Fits(d: Disk, a: Args, e: Env, kind: Kind, tag: Tag) {
    var v, staged := Version(a.ch, kind, tag), StagedDirectory(d.files, a, kind, tag);
    && (exists n: Parts :: n in staged)
    && (v in d.versions ==> Alike(e, staged, d.versions[v]))
  }

  ghost predicate IsProbe(e: Env, doc: Document, path: Parts, c: Content) {
    path == doc.probePath && e.size(c) == doc.probeSize && e.sha(c) == doc.probeSha
  }

  /** The announced probe is among the files staged for a release, or in a release that is there. */
  ghost predicate ProbeStaged(d: Disk, a: Args, e: Env, doc: Document, kind: Kind, tag: Tag) {
    var staged := StagedDirectory(d.files, a, kind, tag);
    exists n: Parts :: n in staged && IsProbe(e, doc, VersionDir(a.ch, kind, tag) + n, staged[n])
  }

  ghost predicate ProbeThere(d: Disk, e: Env, doc: Document) {
    exists v, n: Parts :: v in d.versions && n in d.versions[v] && IsProbe(e, doc, VersionDir(v.ch, v.kind, v.tag) + n, d.versions[v][n])
  }

  lemma ProbeThereIff(d: Disk, e: Env, doc: Document)
    ensures ProbeHolds(d, e, doc) <==> ProbeThere(d, e, doc)
  {
    if ProbeThere(d, e, doc) {
      var v, n: Parts :| v in d.versions && n in d.versions[v] && IsProbe(e, doc, VersionDir(v.ch, v.kind, v.tag) + n, d.versions[v][n]);
      assert VersionDir(v.ch, v.kind, v.tag) + n == doc.probePath;
    }
    if ProbeHolds(d, e, doc) {
      var v, n :| v in d.versions && n in d.versions[v]
        && VersionDir(v.ch, v.kind, v.tag) + n == doc.probePath
        && e.size(d.versions[v][n]) == doc.probeSize && e.sha(d.versions[v][n]) == doc.probeSha;
      assert IsProbe(e, doc, VersionDir(v.ch, v.kind, v.tag) + n, d.versions[v][n]);
    }
  }

  lemma {:induction false} RemoveTreeStrictlyAll(w: World, order: seq<Path>)
    requires Running(w) && NoDup(order) && forall p :: p in order ==> p in w.disk.files
    ensures Running(RemoveTreeStrictly(w, order))
    decreases |order|
  {
    if order != [] {
      assert order == [order[0]] + order[1..];
      NoDupParts([order[0]], order[1..]);
      RemoveTreeStrictlyAll(Do(w, Unlink(order[0])), order[1..]);
    }
  }

  /** The releases after a directory has been promoted. */
  function VersionsWith(d: Disk, a: Args, kind: Kind, tag: Tag): map<Version, Directory> {
    WithVersion(d.versions, Version(a.ch, kind, tag), StagedDirectory(d.files, a, kind, tag))
  }

  function WithVersion(versions: map<Version, Directory>, v: Version, staged: Directory): map<Version, Directory> {
    if v in versions then versions else versions[v := staged]
  }

  lemma PromoteDirectoryIff(d: Disk, a: Args, e: Env, kind: Kind, tag: Tag)
    requires Proper(e)
    ensures var r := PromoteDirectory(World(d, [], Going), a, e, kind, tag);
            && (r.status == Going <==> Fits(d, a, e, kind, tag))
            && (r.status == Going ==> Running(r) && r.disk.versions == VersionsWith(d, a, kind, tag))
  {
    var w, v, dir := World(d, [], Going), Version(a.ch, kind, tag), VersionDir(a.ch, kind, tag);
    var staged, order := StagedDirectory(d.files, a, kind, tag), e.list(DirectoryFiles(d.files, a.stage, dir));
    assert staged != map[] <==> exists n: Parts :: n in staged;
    if v in d.versions {
      assert DirectoriesEqual(e, staged, d.versions[v]) <==> Alike(e, staged, d.versions[v]);
      assert forall p :: p in order ==> p in Elems(order);
      RemoveTreeStrictlyAll(w, order);
      RemoveTreeStrictlySubset(w, order);
    }
  }

  /** The releases after all directories have been promoted. */
  function VersionsAfter(d: Disk, a: Args): map<Version, Directory> {
    WithBoth(d.versions, a, StagedDirectory(d.files, a, App, a.appTag), StagedDirectory(d.files, a, Driver, a.driverTag))
  }

  function WithBoth(versions: map<Version, Directory>, a: Args, x: Directory, y: Directory): map<Version, Directory> {
    var app := WithVersion(versions, Version(a.ch, App, a.appTag), x);
    if a.driverTag == "" then app else WithVersion(app, Version(a.ch, Driver, a.driverTag), y)
  }

  /** Every directory that is to be promoted fits. */
  ghost predicate AllFit(d: Disk, a: Args, e: Env) {
    Fits(d, a, e, App, a.appTag) && (a.driverTag != "" ==> Fits(d, a, e, Driver, a.driverTag))
  }

  lemma FitsSame(d: Disk, d': Disk, a: Args, e: Env, kind: Kind, tag: Tag)
    requires StagedDirectory(d.files, a, kind, tag) == StagedDirectory(d'.files, a, kind, tag)
    requires Version(a.ch, kind, tag) in d.versions <==> Version(a.ch, kind, tag) in d'.versions
    requires Version(a.ch, kind, tag) in d.versions ==> d.versions[Version(a.ch, kind, tag)] == d'.versions[Version(a.ch, kind, tag)]
    ensures Fits(d', a, e, kind, tag) <==> Fits(d, a, e, kind, tag)
  {
  }

  lemma VersionsSame(d: Disk, d': Disk, a: Args, kind: Kind, tag: Tag)
    requires StagedDirectory(d.files, a, kind, tag) == StagedDirectory(d'.files, a, kind, tag) && d.versions == d'.versions
    ensures VersionsWith(d, a, kind, tag) == VersionsWith(d', a, kind, tag)
  {
  }

  lemma OtherVersionSame(versions: map<Version, Directory>, u: Version, staged: Directory, v: Version)
    requires u != v
    ensures var r := WithVersion(versions, u, staged);
            (v in versions <==> v in r) && (v in versions ==> versions[v] == r[v])
  {
  }

  /** Promoting the app release makes no difference to the driver release. */
  lemma DriverUnaffected(d: Disk, d': Disk, a: Args, e: Env)
    requires OnlyDirectoryShrinks(d.files, d'.files, a.stage, VersionDir(a.ch, App, a.appTag))
    requires d'.versions == VersionsWith(d, a, App, a.appTag)
    ensures Fits(d', a, e, Driver, a.driverTag) <==> Fits(d, a, e, Driver, a.driverTag)
    ensures VersionsWith(d', a, Driver, a.driverTag)
         == WithVersion(d'.versions, Version(a.ch, Driver, a.driverTag), StagedDirectory(d.files, a, Driver, a.driverTag))
  {
    DriverStillStaged(d.files, d'.files, a);
    OtherVersionSame(d.versions, Version(a.ch, App, a.appTag), StagedDirectory(d.files, a, App, a.appTag),
                     Version(a.ch, Driver, a.driverTag));
    FitsSame(d, d', a, e, Driver, a.driverTag);
    VersionsSame(d', Disk(d.files, d'.versions), a, Driver, a.driverTag);
  }

  lemma PromoteDirectoriesIff(d: Disk, a: Args, e: Env)
    requires Proper(e)
    ensures var r := PromoteDirectories(World(d, [], Going), a, e);
            && (r.status == Going <==> AllFit(d, a, e))
            && (r.status == Going ==> Running(r) && r.disk.versions == VersionsAfter(d, a))
  {
    var one := PromoteDirectory(World(d, [], Going), a, e, App, a.appTag);
    PromoteDirectoryIff(d, a, e, App, a.appTag);
    PromoteDirectoryFrame(World(d, [], Going), a, e, App, a.appTag);
    if one.status == Going {
      DriverUnaffected(d, one.disk, a, e);
      PromoteDirectoryIff(one.disk, a, e, Driver, a.driverTag);
      assert one == World(one.disk, [], Going);
    } else {
      PromoteDirectoryFrame(one, a, e, Driver, a.driverTag);
    }
  }

  /** The announced probe is where the promotion will leave it. */
  ghost predicate ProbeComes(d: Disk, a: Args, e: Env, doc: Document) {
    || ProbeThere(d, e, doc)
    || ProbeStaged(d, a, e, doc, App, a.appTag)
    || (a.driverTag != "" && ProbeStaged(d, a, e, doc, Driver, a.driverTag))
  }

  lemma ProbeWithOne(d: Disk, d': Disk, a: Args, e: Env, doc: Document, kind: Kind, tag: Tag)
    requires Fits(d, a, e, kind, tag) && d'.versions == VersionsWith(d, a, kind, tag)
    ensures ProbeThere(d', e, doc) <==> ProbeThere(d, e, doc) || ProbeStaged(d, a, e, doc, kind, tag)
  {
    var v, staged := Version(a.ch, kind, tag), StagedDirectory(d.files, a, kind, tag);
    if ProbeThere(d, e, doc) {
      var u, n: Parts :| u in d.versions && n in d.versions[u] && IsProbe(e, doc, VersionDir(u.ch, u.kind, u.tag) + n, d.versions[u][n]);
      assert u in d'.versions && d'.versions[u] == d.versions[u];
    }
    if ProbeStaged(d, a, e, doc, kind, tag) {
      var n: Parts :| n in staged && IsProbe(e, doc, VersionDir(a.ch, kind, tag) + n, staged[n]);
      assert v in d'.versions && n in d'.versions[v] && IsProbe(e, doc, VersionDir(v.ch, v.kind, v.tag) + n, d'.versions[v][n]);
    }
    if ProbeThere(d', e, doc) {
      var u, n: Parts :| u in d'.versions && n in d'.versions[u] && IsProbe(e, doc, VersionDir(u.ch, u.kind, u.tag) + n, d'.versions[u][n]);
      assert (u in d.versions && d'.versions[u] == d.versions[u]) || (u == v && d'.versions[u] == staged);
    }
  }

  lemma ProbeComesIff(d: Disk, d': Disk, a: Args, e: Env, doc: Document)
    requires AllFit(d, a, e) && d'.versions == VersionsAfter(d, a)
    ensures ProbeThere(d', e, doc) <==> ProbeComes(d, a, e, doc)
  {
    var one := Disk(d.files, VersionsWith(d, a, App, a.appTag));
    ProbeWithOne(d, one, a, e, doc, App, a.appTag);
    if a.driverTag != "" {
      ProbeWithOne(one, d', a, e, doc, Driver, a.driverTag);
    }
  }

  /** The channel's state and its driver index can be read and agree, and the driver release they name, if
      any, is there. */
  ghost predicate CanInherit(d: Disk, a: Args, e: Env) {
    exists tag :: CanInheritTag(d, a, e, tag)
  }

  ghost predicate CanInheritTag(d: Disk, a: Args, e: Env, tag: Tag) {
    && IndexedTag(d, a.ch, e) == Some(tag)
    && (RecordedTag(d, a.ch) == Some("") || RecordedTag(d, a.ch) == Some(tag))
    && (tag != "" ==> Version(a.ch, Driver, tag) in d.versions)
  }

  lemma CanInheritIff(d: Disk, a: Args, e: Env)
    ensures InheritedDriverTag(d, a, e).Some? <==> CanInherit(d, a, e)
  {
    if InheritedDriverTag(d, a, e).Some? {
      InheritsExactly(d, a, e, InheritedDriverTag(d, a, e).value);
      assert CanInheritTag(d, a, e, InheritedDriverTag(d, a, e).value);
    }
    if CanInherit(d, a, e) {
      var tag :| CanInheritTag(d, a, e, tag);
      InheritsExactly(d, a, e, tag);
    }
  }

  ghost predicate AnnouncedProbeComes(d: Disk, a: Args, e: Env) {
    && Deployment(a.stage) in d.files && d.files[Deployment(a.stage)].Doc?
    && ProbeComes(d, a, e, d.files[Deployment(a.stage)].doc)
  }

  lemma RecordReadyIff(w: World, a: Args, e: Env, doc: Document, driver: Tag)
    requires Running(w)
    ensures RecordReady(w, a, e, doc, driver).status == Going <==> ProbeHolds(w.disk, e, doc)
  {
  }

  lemma DirectoriesAndProbe(d: Disk, a: Args, e: Env, doc: Document, driver: Tag)
    requires Proper(e)
    ensures RecordReady(PromoteDirectories(World(d, [], Going), a, e), a, e, doc, driver).status == Going
            <==> AllFit(d, a, e) && ProbeComes(d, a, e, doc)
  {
    var r := PromoteDirectories(World(d, [], Going), a, e);
    PromoteDirectoriesIff(d, a, e);
    if r.status == Going {
      RecordReadyIff(r, a, e, doc, driver);
      ProbeThereIff(r.disk, e, doc);
      ProbeComesIff(d, r.disk, a, e, doc);
    } else {
      RecordReadyFrame(r, a, e, doc, driver);
    }
  }

  function ActiveDriver(d: Disk, a: Args, e: Env): Option<Tag> {
    if a.driverTag != "" then Some(a.driverTag) else InheritedDriverTag(d, a, e)
  }

  lemma AcceptedRecords(d: Disk, a: Args, e: Env, driver: Tag)
    requires StagedAccepted(d, a, e) && ActiveDriver(d, a, e) == Some(driver)
    ensures PromoteImmutable(World(d, [], Going), a, e)
         == RecordReady(PromoteDirectories(World(d, [], Going), a, e), a, e, d.files[Deployment(a.stage)].doc, driver)
  {
  }

  lemma ElseRefused(d: Disk, a: Args, e: Env)
    requires !StagedAccepted(d, a, e) || ActiveDriver(d, a, e) == None
    ensures PromoteImmutable(World(d, [], Going), a, e).status == Status.Refused
  {
  }

  /** An undisturbed immutable promotion completes if and only if the staged payload is accepted, a driver tag
      is given or can be inherited, every release to be promoted has staged files and is new or there
      already with the same files, and the announced probe is among them or in a release that is there. */
  lemma PromoteImmutableCompletesIff(d: Disk, a: Args, e: Env)
    requires Proper(e)
    ensures PromoteImmutable(World(d, [], Going), a, e).status == Going <==>
            && StagedAccepted(d, a, e)
            && (a.driverTag == "" ==> CanInherit(d, a, e))
            && AllFit(d, a, e)
            && AnnouncedProbeComes(d, a, e)
  {
    CanInheritIff(d, a, e);
    var driver := ActiveDriver(d, a, e);
    if StagedAccepted(d, a, e) && driver.Some? {
      AcceptedRecords(d, a, e, driver.value);
      DirectoriesAndProbe(d, a, e, d.files[Deployment(a.stage)].doc, driver.value);
    } else {
      ElseRefused(d, a, e);
    }
  }

  // ----- what a build is worth -----

  /** The stage holds a build: its payload, its metadata and its list, the assets in the app release. */
  ghost predicate StagesBuild(d: Disk, a: Args, e: Env, assets: seq<Asset>, files: seq<Parts>) {
    var payload := PayloadOf(d.files, a.stage);
    && Buildable(e.sha, a, assets, payload, files) && files != []
    && (forall x :: x in assets ==>
          var p := Payload(a.stage, VersionDir(a.ch, App, a.appTag) + [x.name]); p in d.files && d.files[p] == x.content)
    && Deployment(a.stage) in d.files && d.files[Deployment(a.stage)] == Doc(BuiltDocument(e.sha, e.size, a, assets, payload, files))
    && Sums(a.stage) in d.files && d.files[Sums(a.stage)] == Text(PrintEntries(EntriesOf(e.sha, payload, files)))
  }

  /** The probe that a build announces is one of its assets. */
  lemma BuiltProbeComes(d: Disk, a: Args, e: Env, assets: seq<Asset>, files: seq<Parts>)
    requires StagesBuild(d, a, e, assets, files)
    ensures AnnouncedProbeComes(d, a, e)
  {
    var doc := d.files[Deployment(a.stage)].doc;
    var staged := StagedDirectory(d.files, a, App, a.appTag);
    var probe := ProbeAsset(e.size, assets);
    StagedDirectoryIs(d.files, a, App, a.appTag);
    assert probe in assets && [probe.name] != [];
    assert [probe.name] in staged && staged[[probe.name]] == probe.content;
    assert IsProbe(e, doc, VersionDir(a.ch, App, a.appTag) + [probe.name], staged[[probe.name]]);
  }

  /** From the builder to the node: a build with a non-empty asset that is staged as it was built is promoted if
      and only if no path in it contains a line break, a driver tag is given or can be inherited, and the
      releases to be promoted are staged and new or there already with the same files. */
  lemma BuildPromotesIff(d: Disk, a: Args, e: Env, assets: seq<Asset>, files: seq<Parts>)
    requires Proper(e) && StagesBuild(d, a, e, assets, files) && exists x :: x in assets && e.size(x.content) > 0
    ensures PromoteImmutable(World(d, [], Going), a, e).status == Going <==>
            && (forall p :: p in PayloadOf(d.files, a.stage) ==> NoBreaks(JoinSlash(p)))
            && (a.driverTag == "" ==> CanInherit(d, a, e))
            && AllFit(d, a, e)
  {
    PromoteImmutableCompletesIff(d, a, e);
    BuiltAcceptedIff(e.sha, e.size, a, assets, PayloadOf(d.files, a.stage), files);
    BuiltProbeComes(d, a, e, assets, files);
  }

  // ----- what it leaves -----

  /** A file that is staged for the release. */
  ghost predicate StagedFor(a: Args, kind: Kind, tag: Tag, p: Path) {
    exists n: Parts :: n != [] && p == Payload(a.stage, VersionDir(a.ch, kind, tag) + n)
  }

  lemma StagedForIff(a: Args, kind: Kind, tag: Tag, p: Path)
    ensures StagedFor(a, kind, tag, p) <==> p.Payload? && p.stage == a.stage && IsBelow(VersionDir(a.ch, kind, tag), p.parts)
  {
    var dir := VersionDir(a.ch, kind, tag);
    if p.Payload? && p.stage == a.stage && IsBelow(dir, p.parts) {
      assert p.parts == dir + p.parts[|dir|..];
    }
  }

  /** Exactly what was staged for the release is gone. */
  ghost predicate Unstaged(f: map<Path, Content>, g: map<Path, Content>, a: Args, kind: Kind, tag: Tag) {
    forall p :: if StagedFor(a, kind, tag, p) then p !in g else Same(f, g, p)
  }

  lemma PromoteDirectoryUnstages(d: Disk, a: Args, e: Env, kind: Kind, tag: Tag)
    requires Proper(e) && PromoteDirectory(World(d, [], Going), a, e, kind, tag).status == Going
    ensures Unstaged(d.files, PromoteDirectory(World(d, [], Going), a, e, kind, tag).disk.files, a, kind, tag)
  {
    var w, v, dir := World(d, [], Going), Version(a.ch, kind, tag), VersionDir(a.ch, kind, tag);
    var r, order := PromoteDirectory(w, a, e, kind, tag), e.list(DirectoryFiles(d.files, a.stage, dir));
    if v in d.versions {
      assert forall p :: p in order <==> p in Elems(order);
      RemoveTreeStrictlyRemoves(w, order);
    }
    forall p ensures if StagedFor(a, kind, tag, p) then p !in r.disk.files else Same(d.files, r.disk.files, p) {
      StagedForIff(a, kind, tag, p);
    }
  }

  lemma {:induction false} RemoveTreeStrictlyRemoves(w: World, order: seq<Path>)
    requires RemoveTreeStrictly(w, order).status == Going
    ensures w.status == Going
    ensures var r := RemoveTreeStrictly(w, order);
            && (forall p :: p in r.disk.files <==> p in w.disk.files && p !in order)
            && (forall p :: p in r.disk.files ==> r.disk.files[p] == w.disk.files[p])
    decreases |order|
  {
    if order != [] {
      RemoveTreeStrictlyRemoves(Do(w, Unlink(order[0])), order[1..]);
      assert forall p :: p in order <==> p == order[0] || p in order[1..];
    }
  }

  /** The release is there: as it was, or new with the files staged for it. */
  ghost predicate Released(d: Disk, versions: map<Version, Directory>, a: Args, kind: Kind, tag: Tag) {
    var v := Version(a.ch, kind, tag);
    && v in versions
    && (if v in d.versions then versions[v] == d.versions[v] else AreStaged(d.files, a, kind, tag, versions[v]))
  }

  /** The promoted releases are there, and all others are as they were. */
  ghost predicate VersionsPromoted(d: Disk, versions: map<Version, Directory>, a: Args) {
    && Released(d, versions, a, App, a.appTag)
    && (a.driverTag != "" ==> Released(d, versions, a, Driver, a.driverTag))
    && (forall v :: v != Version(a.ch, App, a.appTag) && (a.driverTag == "" || v != Version(a.ch, Driver, a.driverTag)) ==>
          (v in versions <==> v in d.versions) && (v in d.versions ==> versions[v] == d.versions[v]))
  }

  /** What was staged for the promoted releases is gone, and no other file has changed. */
  ghost predicate FilesPromoted(f: map<Path, Content>, g: map<Path, Content>, a: Args, written: set<Path>) {
    forall p :: p !in written ==> FilePromoted(f, g, a, p)
  }

  ghost predicate FilePromoted(f: map<Path, Content>, g: map<Path, Content>, a: Args, p: Path) {
    if StagedFor(a, App, a.appTag, p) || (a.driverTag != "" && StagedFor(a, Driver, a.driverTag, p)) then p !in g
    else Same(f, g, p)
  }

  lemma VersionsAfterAre(d: Disk, a: Args)
    ensures VersionsPromoted(d, VersionsAfter(d, a), a)
  {
    var x, y := StagedDirectory(d.files, a, App, a.appTag), StagedDirectory(d.files, a, Driver, a.driverTag);
    StagedDirectoryIs(d.files, a, App, a.appTag);
    StagedDirectoryIs(d.files, a, Driver, a.driverTag);
    PromotedVersions(d, a, x, y);
  }

  lemma PromotedVersions(d: Disk, a: Args, x: Directory, y: Directory)
    requires AreStaged(d.files, a, App, a.appTag, x) && AreStaged(d.files, a, Driver, a.driverTag, y)
    ensures VersionsPromoted(d, WithBoth(d.versions, a, x, y), a)
  {
  }

  lemma DirectoriesUnstage(d: Disk, a: Args, e: Env, p: Path)
    requires Proper(e) && PromoteDirectories(World(d, [], Going), a, e).status == Going
    ensures FilePromoted(d.files, PromoteDirectories(World(d, [], Going), a, e).disk.files, a, p)
  {
    var one := PromoteDirectory(World(d, [], Going), a, e, App, a.appTag);
    PromoteDirectoryFrame(one, a, e, Driver, a.driverTag);
    PromoteDirectoryIff(d, a, e, App, a.appTag);
    PromoteDirectoryUnstages(d, a, e, App, a.appTag);
    if a.driverTag != "" {
      PromoteDirectoryUnstages(one.disk, a, e, Driver, a.driverTag);
    }
  }

  lemma DirectoriesLeave(d: Disk, a: Args, e: Env)
    requires Proper(e) && PromoteDirectories(World(d, [], Going), a, e).status == Going
    ensures var r := PromoteDirectories(World(d, [], Going), a, e);
            VersionsPromoted(d, r.disk.versions, a) && FilesPromoted(d.files, r.disk.files, a, {})
  {
    PromoteDirectoriesIff(d, a, e);
    VersionsAfterAre(d, a);
    forall p ensures FilePromoted(d.files, PromoteDirectories(World(d, [], Going), a, e).disk.files, a, p) {
      DirectoriesUnstage(d, a, e, p);
    }
  }

  lemma ThenRecorded(f: map<Path, Content>, g: map<Path, Content>, h: map<Path, Content>, a: Args)
    requires FilesPromoted(f, g, a, {}) && forall p :: p != Ready(a.ch, a.gen) ==> Same(g, h, p)
    ensures FilesPromoted(f, h, a, {Ready(a.ch, a.gen)})
  {
    forall p | p != Ready(a.ch, a.gen) ensures FilePromoted(f, h, a, p) {
      assert FilePromoted(f, g, a, p) && Same(g, h, p);
    }
  }

  /** What an undisturbed immutable promotion that completes makes of the disk: the promoted releases are
      there, new ones with exactly the files staged for them, all others are as they were, what was staged
      for the promoted ones is gone, and no other file has changed but the ready manifest. */
  lemma PromoteImmutableLeaves(d: Disk, a: Args, e: Env)
    requires Proper(e) && PromoteImmutable(World(d, [], Going), a, e).status == Going
    ensures var d' := PromoteImmutable(World(d, [], Going), a, e).disk;
            VersionsPromoted(d, d'.versions, a) && FilesPromoted(d.files, d'.files, a, {Ready(a.ch, a.gen)})
  {
    var driver := ActiveDriver(d, a, e);
    if !StagedAccepted(d, a, e) || driver == None {
      ElseRefused(d, a, e);
    } else {
      var doc, r := d.files[Deployment(a.stage)].doc, PromoteDirectories(World(d, [], Going), a, e);
      AcceptedRecords(d, a, e, driver.value);
      RecordReadyFrame(r, a, e, doc, driver.value);
      DirectoriesLeave(d, a, e);
      ThenRecorded(d.files, r.disk.files, RecordReady(r, a, e, doc, driver.value).disk.files, a);
    }
  }

  // ----- the mutable phase -----

  lemma {:induction false} BackupEachNeedsSources(w: World, a: Args, ks: seq<Kind>)
    requires BackupEach(w, a, ks).status == Going
    ensures w.status == Going && forall k :: k in ks ==> Source(a, k) in w.disk.files
    decreases |ks|
  {
    if ks != [] {
      var one := BackupOne(w, a, ks[0]);
      BackupEachNeedsSources(one, a, ks[1..]);
      forall k | k in ks ensures Source(a, k) in w.disk.files {
        if k != ks[0] {
          assert k in ks[1..];
        }
      }
    }
  }

  /** An undisturbed mutable promotion completes if and only if the ready manifest and all staged files are
      there; else it is refused, and no destination has changed. */
  lemma PromoteCompletesIff(d: Disk, a: Args, order: seq<Path>)
    requires WipesTransaction(order, d, a)
    ensures var r := PromoteMutable(World(d, [], Going), a, order);
            && (r.status == Going <==> Ready(a.ch, a.gen) in d.files && forall k :: k in Kinds(a) ==> Source(a, k) in d.files)
            && (r.status != Going ==> r.status == Status.Refused && Untouched(d.files, r.disk.files, a))
            && (Ready(a.ch, a.gen) !in d.files ==> r.disk == d)
  {
    var w := World(d, [], Going);
    if Ready(a.ch, a.gen) in d.files {
      if forall k :: k in Kinds(a) ==> Source(a, k) in d.files {
        PromoteCompletes(d, a, order);
      } else {
        SourceMissing(d, a, order);
      }
    }
  }

  lemma SourceMissing(d: Disk, a: Args, order: seq<Path>)
    requires WipesTransaction(order, d, a) && Ready(a.ch, a.gen) in d.files
    requires exists k :: k in Kinds(a) && Source(a, k) !in d.files
    ensures var r := PromoteMutable(World(d, [], Going), a, order);
            r.status == Status.Refused && Untouched(d.files, r.disk.files, a)
  {
    var w := World(d, [], Going);
    var wiped := RemoveTree(w, order);
    RemoveTreeAll(w, order);
    BackupEachEnds(wiped, a, Kinds(a));
    WipeFrame(w, a, order);
    var k :| k in Kinds(a) && Source(a, k) !in d.files;
    SourceKept(d.files, wiped.disk.files, a, k);
    if BackupEach(wiped, a, Kinds(a)).status == Going {
      BackupEachNeedsSources(wiped, a, Kinds(a));
    }
  }

  /** Backing up only ever refuses, and touches no destination. */
  lemma {:induction false} BackupEachEnds(w: World, a: Args, ks: seq<Kind>)
    requires w.script == [] && w.status in {Going, Status.Refused}
    ensures var r := BackupEach(w, a, ks);
            r.script == [] && r.status in {Going, Status.Refused} && Untouched(w.disk.files, r.disk.files, a)
    decreases |ks|
  {
    if ks != [] {
      BackupEachEnds(BackupOne(w, a, ks[0]), a, ks[1..]);
    }
  }

  // ----- finishing -----

  /** An undisturbed finalize completes if and only if the promotion is marked and the ready manifest can be
      read; else nothing has changed. */
  lemma FinalizeCompletesIff(d: Disk, a: Args, e: Env)
    requires Proper(e)
    ensures var r := Finalize(World(d, [], Going), a, e);
            && (r.status == Going <==>
                  PromotedMark(a.gen) in d.files && Ready(a.ch, a.gen) in d.files && d.files[Ready(a.ch, a.gen)].Doc?)
            && (r.status != Going ==> r.disk == d)
  {
    if MayFinish(d, a) {
      CleanFinish(d, a, e, [], []);
    }
  }
}
