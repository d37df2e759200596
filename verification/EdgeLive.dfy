/** What the commands keep, however they are disturbed: a published version directory never changes,
    and whatever a ready manifest or a channel state names exists. */
module EdgeLive {
  import opened Options
  import opened Seqs
  import opened EdgeDisk
  import opened EdgeMutable
  import opened EdgeChecksums
  import opened EdgeCommands

  /** A document of channel `ch` whose app release and driver release, if any, exist. */
  ghost predicate Names(d: Disk, ch: Channel, c: Content) {
    && c.Doc?
    && c.doc.channel == ch
    && c.doc.appTag != ""
    && Version(ch, App, c.doc.appTag) in d.versions
    && (c.doc.driverTag != "" ==> Version(ch, Driver, c.doc.driverTag) in d.versions)
  }

  ghost predicate StatesLive(d: Disk) {
    forall ch :: ChannelState(ch) in d.files ==> Names(d, ch, d.files[ChannelState(ch)])
  }

  ghost predicate ReadyLive(d: Disk, ch: Channel, gen: Generation) {
    Ready(ch, gen) in d.files ==> Names(d, ch, d.files[Ready(ch, gen)])
  }

  /** The files that name releases. */
  predicate IsRecord(p: Path) {
    p.Ready? || p.ChannelState?
  }

  ghost predicate RecordsKept(d: Disk, d': Disk) {
    forall p :: IsRecord(p) ==> Same(d.files, d'.files, p)
  }

  lemma StaysLive(d: Disk, d': Disk)
    requires VersionsKept(d, d') && RecordsKept(d, d')
    ensures StatesLive(d) ==> StatesLive(d')
    ensures forall ch, gen :: ReadyLive(d, ch, gen) ==> ReadyLive(d', ch, gen)
  {
    assert forall ch, c :: Names(d, ch, c) ==> Names(d', ch, c);
    if StatesLive(d) {
      forall ch | ChannelState(ch) in d'.files ensures Names(d', ch, d'.files[ChannelState(ch)]) {
        assert Same(d.files, d'.files, ChannelState(ch));
      }
    }
    forall ch, gen | ReadyLive(d, ch, gen) ensures ReadyLive(d', ch, gen) {
      assert Same(d.files, d'.files, Ready(ch, gen));
    }
  }

  // ----- promoting immutable directories -----

  lemma ShrinkingKeepsRecords(d: Disk, d': Disk, stage: Stage, dir: Parts)
    requires OnlyDirectoryShrinks(d.files, d'.files, stage, dir)
    ensures RecordsKept(d, d')
  {
  }

  lemma PromoteDirectoriesFrame(w: World, a: Args, e: Env)
    requires Proper(e)
    ensures var r := PromoteDirectories(w, a, e); VersionsKept(w.disk, r.disk) && RecordsKept(w.disk, r.disk)
  {
    var r := PromoteDirectory(w, a, e, App, a.appTag);
    PromoteDirectoryFrame(w, a, e, App, a.appTag);
    ShrinkingKeepsRecords(w.disk, r.disk, a.stage, VersionDir(a.ch, App, a.appTag));
    PromoteDirectoryFrame(r, a, e, Driver, a.driverTag);
    ShrinkingKeepsRecords(r.disk, PromoteDirectory(r, a, e, Driver, a.driverTag).disk, a.stage,
                          VersionDir(a.ch, Driver, a.driverTag));
  }

  lemma AppAndDriverApart(a: Args, p: Parts)
    ensures !(IsBelow(VersionDir(a.ch, App, a.appTag), p) && IsBelow(VersionDir(a.ch, Driver, a.driverTag), p))
  {
    assert |VersionDir(a.ch, App, a.appTag)[0]| == 6 && |VersionDir(a.ch, Driver, a.driverTag)[0]| == 7;
    assert forall dir: Parts :: dir != [] && IsBelow(dir, p) ==> dir[0] == p[..|dir|][0];
  }

  /** Promoting the app release leaves the staged driver release as it was. */
  lemma DriverStillStaged(f: map<Path, Content>, g: map<Path, Content>, a: Args)
    requires OnlyDirectoryShrinks(f, g, a.stage, VersionDir(a.ch, App, a.appTag))
    ensures StagedDirectory(g, a, Driver, a.driverTag) == StagedDirectory(f, a, Driver, a.driverTag)
  {
    var dir := VersionDir(a.ch, Driver, a.driverTag);
    forall n: Parts | n != []
      ensures Same(f, g, Payload(a.stage, dir + n))
    {
      assert IsBelow(dir, dir + n);
      AppAndDriverApart(a, dir + n);
    }
    SameStaged(f, g, a.stage, dir);
  }

  lemma SameStaged(f: map<Path, Content>, g: map<Path, Content>, stage: Stage, dir: Parts)
    requires forall n: Parts :: n != [] ==> Same(f, g, Payload(stage, dir + n))
    ensures Below(PayloadOf(f, stage), dir) == Below(PayloadOf(g, stage), dir)
  {
    forall n: Parts | n != [] ensures dir + n in PayloadOf(f, stage) <==> dir + n in PayloadOf(g, stage)
      ensures dir + n in PayloadOf(f, stage) ==> PayloadOf(f, stage)[dir + n] == PayloadOf(g, stage)[dir + n]
    {
      assert Same(f, g, Payload(stage, dir + n));
    }
    assert NamesBelow(PayloadOf(f, stage), dir) == NamesBelow(PayloadOf(g, stage), dir);
  }

  /** The published directory of one kind holds exactly the files that are staged for it in `f`. */
  ghost predicate Holds(d: Disk, f: map<Path, Content>, a: Args, kind: Kind, tag: Tag) {
    Version(a.ch, kind, tag) in d.versions && AreStaged(f, a, kind, tag, d.versions[Version(a.ch, kind, tag)])
  }

  ghost predicate AreStaged(f: map<Path, Content>, a: Args, kind: Kind, tag: Tag, content: Directory) {
    var dir := VersionDir(a.ch, kind, tag);
    && (forall n :: n in content <==> n != [] && Payload(a.stage, dir + n) in f)
    && (forall n :: n in content ==> content[n] == f[Payload(a.stage, dir + n)])
  }

  lemma StagedDirectoryIs(f: map<Path, Content>, a: Args, kind: Kind, tag: Tag)
    ensures AreStaged(f, a, kind, tag, StagedDirectory(f, a, kind, tag))
  {
  }

  lemma PromoteDirectoriesHold(w: World, a: Args, e: Env)
    requires Proper(e) && PromoteDirectories(w, a, e).status == Going
    ensures var r := PromoteDirectories(w, a, e);
            && Version(a.ch, App, a.appTag) in r.disk.versions
            && (a.driverTag != "" ==> Version(a.ch, Driver, a.driverTag) in r.disk.versions)
            && (Collisionless(e) ==> Holds(r.disk, w.disk.files, a, App, a.appTag))
            && (Collisionless(e) && a.driverTag != "" ==> Holds(r.disk, w.disk.files, a, Driver, a.driverTag))
  {
    var r := PromoteDirectory(w, a, e, App, a.appTag);
    if a.driverTag != "" {
      PromoteDirectoryHolds(r, a, e, Driver, a.driverTag);
      PromoteDirectoryFrame(r, a, e, Driver, a.driverTag);
    }
    StagedDirectoryIs(w.disk.files, a, App, a.appTag);
    StagedDirectoryIs(w.disk.files, a, Driver, a.driverTag);
    PromoteDirectoryHolds(w, a, e, App, a.appTag);
    PromoteDirectoryFrame(w, a, e, App, a.appTag);
    DriverStillStaged(w.disk.files, r.disk.files, a);
  }

  ghost predicate OtherRecordsKept(d: Disk, d': Disk, a: Args) {
    forall p :: IsRecord(p) && p != Ready(a.ch, a.gen) ==> Same(d.files, d'.files, p)
  }

  lemma KeptThenRecorded(d: Disk, mid: Disk, r: World, a: Args)
    requires VersionsKept(d, mid) && RecordsKept(d, mid) && r.disk.versions == mid.versions
    requires forall p :: p != Ready(a.ch, a.gen) ==> Same(mid.files, r.disk.files, p)
    requires r.status != Going ==> Same(mid.files, r.disk.files, Ready(a.ch, a.gen))
    ensures VersionsKept(d, r.disk) && OtherRecordsKept(d, r.disk, a)
    ensures r.status != Going ==> Same(d.files, r.disk.files, Ready(a.ch, a.gen))
  {
    assert Same(d.files, mid.files, Ready(a.ch, a.gen));
    forall p | IsRecord(p) && p != Ready(a.ch, a.gen) ensures Same(d.files, r.disk.files, p) {
      assert Same(d.files, mid.files, p) && Same(mid.files, r.disk.files, p);
    }
  }

  lemma RecordReadyFrame(w: World, a: Args, e: Env, doc: Document, driver: Tag)
    ensures var r := RecordReady(w, a, e, doc, driver);
            && r.disk.versions == w.disk.versions
            && (forall p :: p != Ready(a.ch, a.gen) ==> Same(w.disk.files, r.disk.files, p))
            && (r.status != Going ==> Same(w.disk.files, r.disk.files, Ready(a.ch, a.gen)))
            && (r.status == Going ==> w.status == Going && Ready(a.ch, a.gen) in r.disk.files
                                      && r.disk.files[Ready(a.ch, a.gen)] == Doc(ReadyDocument(doc, driver)))
  {
  }

  /** However it ends: no version changes and no record but this generation's ready manifest does,
      and that one is written only in a run that completes. */
  lemma PromoteImmutableKeeps(w: World, a: Args, e: Env)
    requires Proper(e)
    ensures var r := PromoteImmutable(w, a, e);
            && VersionsKept(w.disk, r.disk)
            && OtherRecordsKept(w.disk, r.disk, a)
            && (r.status != Going ==> Same(w.disk.files, r.disk.files, Ready(a.ch, a.gen)))
  {
    var promoted := PromoteDirectories(w, a, e);
    PromoteDirectoriesFrame(w, a, e);
    PromoteImmutableCases(w, a, e);
    if EndsRecording(w, PromoteImmutable(w, a, e), a, e) {
      var doc, driver :| PromoteImmutable(w, a, e) == RecordReady(promoted, a, e, doc, driver);
      RecordReadyFrame(promoted, a, e, doc, driver);
      KeptThenRecorded(w.disk, promoted.disk, RecordReady(promoted, a, e, doc, driver), a);
    }
  }

  ghost predicate EndsRecording(w: World, r: World, a: Args, e: Env) {
    exists doc, driver :: r == RecordReady(PromoteDirectories(w, a, e), a, e, doc, driver)
  }

  lemma PromoteImmutableCases(w: World, a: Args, e: Env)
    ensures var r := PromoteImmutable(w, a, e); r == w || r == Refuse(w) || EndsRecording(w, r, a, e)
    ensures var r := PromoteImmutable(w, a, e); r == w ==> r.status != Going || EndsRecording(w, r, a, e)
  {
    if w.status == Going && StagedAccepted(w.disk, a, e) {
      var driver := if a.driverTag != "" then Some(a.driverTag) else InheritedDriverTag(w.disk, a, e);
      if driver.Some? {
        assert PromoteImmutable(w, a, e)
            == RecordReady(PromoteDirectories(w, a, e), a, e, w.disk.files[Deployment(a.stage)].doc, driver.value);
      }
    }
  }

  /** The driver tag that a channel's state records, if its record can be read. */
  function RecordedTag(d: Disk, ch: Channel): Option<Tag> {
    if ChannelState(ch) !in d.files then Some("")
    else
      var c := d.files[ChannelState(ch)];
      if c.Doc? && c.doc.channel == ch then Some(c.doc.driverTag) else None
  }

  function IndexedTag(d: Disk, ch: Channel, e: Env): Option<Tag> {
    if Latest(ch, Driver) in d.files then e.indexTag(d.files[Latest(ch, Driver)]) else Some("")
  }

  /** An app-only publication inherits the tag of the current driver index, exactly when both records can
      be read, the channel state does not name another one, and its release exists. */
  lemma InheritsExactly(d: Disk, a: Args, e: Env, tag: Tag)
    ensures InheritedDriverTag(d, a, e) == Some(tag) <==>
            && IndexedTag(d, a.ch, e) == Some(tag)
            && (RecordedTag(d, a.ch) == Some("") || RecordedTag(d, a.ch) == Some(tag))
            && (tag != "" ==> Version(a.ch, Driver, tag) in d.versions)
  {
  }

  /** A run that completes leaves a ready manifest whose releases exist, and the promoted releases
      hold exactly the files that were staged and checked against the checksum list. */
  lemma PromoteImmutableReady(w: World, a: Args, e: Env)
    requires Proper(e) && w.status == Going && PromoteImmutable(w, a, e).status == Going && a.appTag != ""
    ensures var r := PromoteImmutable(w, a, e);
            && StagedAccepted(w.disk, a, e)
            && Ready(a.ch, a.gen) in r.disk.files && ReadyLive(r.disk, a.ch, a.gen)
            && var staged, ready := w.disk.files[Deployment(a.stage)].doc, r.disk.files[Ready(a.ch, a.gen)].doc;
            && ready == staged.(driverTag := ready.driverTag, phase := ReadyToPublish)
            && (if a.driverTag != "" then ready.driverTag == a.driverTag
                else InheritedDriverTag(w.disk, a, e) == Some(ready.driverTag))
            && ProbeHolds(r.disk, e, staged)
            && (Collisionless(e) ==> Holds(r.disk, w.disk.files, a, App, a.appTag))
            && (Collisionless(e) && a.driverTag != "" ==> Holds(r.disk, w.disk.files, a, Driver, a.driverTag))
  {
    var doc := w.disk.files[Deployment(a.stage)].doc;
    var driver := if a.driverTag != "" then Some(a.driverTag) else InheritedDriverTag(w.disk, a, e);
    PromoteDirectoriesFrame(w, a, e);
    RecordReadyFrame(PromoteDirectories(w, a, e), a, e, doc, driver.value);
    PromoteDirectoriesHold(w, a, e);
    InheritsExactly(w.disk, a, e, driver.value);
    ProbeKept(PromoteDirectories(w, a, e), a, e, doc, driver.value);
  }

  lemma ProbeKept(w: World, a: Args, e: Env, doc: Document, driver: Tag)
    requires RecordReady(w, a, e, doc, driver).status == Going
    ensures ProbeHolds(RecordReady(w, a, e, doc, driver).disk, e, doc)
  {
  }

  // ----- the other commands -----

  lemma WipeTransactionFrame(w: World, a: Args, e: Env)
    requires Proper(e)
    ensures var r := WipeTransaction(w, a, e);
            && r.disk.versions == w.disk.versions
            && RecordsKept(w.disk, r.disk)
  {
    var order := e.list(TransactionFiles(w.disk.files, a.gen));
    RemoveTreeSubset(w, order);
    assert forall p :: p in order ==> p in Elems(order);
  }

  lemma WipeStageFrame(w: World, a: Args, e: Env)
    requires Proper(e)
    ensures var r := WipeStage(w, a, e);
            && r.disk.versions == w.disk.versions
            && RecordsKept(w.disk, r.disk)
  {
    var order := e.list(StageFiles(w.disk.files, a.stage));
    RemoveTreeSubset(w, order);
    assert forall p :: p in order ==> p in Elems(order);
  }

  lemma AbortKeeps(w: World, a: Args, e: Env)
    requires Proper(e)
    ensures VersionsKept(w.disk, Abort(w, a, e).disk) && RecordsKept(w.disk, Abort(w, a, e).disk)
  {
    WipeStageFrame(w, a, e);
    WipeTransactionFrame(WipeStage(w, a, e), a, e);
  }

  lemma PromoteKeeps(w: World, a: Args, e: Env)
    requires Proper(e)
    ensures VersionsKept(w.disk, Promote(w, a, e).disk) && RecordsKept(w.disk, Promote(w, a, e).disk)
  {
    var order := e.list(TransactionFiles(w.disk.files, a.gen));
    assert forall p :: p in order <==> p in Elems(order);
    PromoteOnlyTouches(w, a, order);
  }

  lemma RollbackKeeps(w: World, a: Args)
    ensures VersionsKept(w.disk, Rollback(w, a).disk) && RecordsKept(w.disk, Rollback(w, a).disk)
  {
    RestoreFrame(w, a);
  }

  /** The one command that changes a channel state; what it writes names existing releases if the
      ready manifest does. */
  lemma FinalizeKeeps(w: World, a: Args, e: Env)
    requires Proper(e) && StatesLive(w.disk) && ReadyLive(w.disk, a.ch, a.gen)
    ensures var r := Finalize(w, a, e);
            && VersionsKept(w.disk, r.disk)
            && StatesLive(r.disk)
            && (forall ch, gen :: ReadyLive(w.disk, ch, gen) ==> ReadyLive(r.disk, ch, gen))
  {
    if PromotedMark(a.gen) in w.disk.files && Ready(a.ch, a.gen) in w.disk.files && w.disk.files[Ready(a.ch, a.gen)].Doc? {
      var state := Doc(w.disk.files[Ready(a.ch, a.gen)].doc.(phase := Active));
      var announced := Do(Do(w, Write(ChannelState(a.ch), state)), Write(Health, Empty));
      AnnouncedLive(w, a, state);
      WipeTransactionFrame(announced, a, e);
      WipeStageFrame(WipeTransaction(announced, a, e), a, e);
      StaysLive(announced.disk, Finalize(w, a, e).disk);
    }
  }

  lemma AnnouncedLive(w: World, a: Args, state: Content)
    requires StatesLive(w.disk) && Names(w.disk, a.ch, state)
    ensures var r := Do(Do(w, Write(ChannelState(a.ch), state)), Write(Health, Empty));
            && r.disk.versions == w.disk.versions
            && StatesLive(r.disk)
            && (forall ch, gen :: ReadyLive(w.disk, ch, gen) ==> ReadyLive(r.disk, ch, gen))
  {
    var one := Do(w, Write(ChannelState(a.ch), state));
    StateWrittenLive(w, a.ch, state);
    StaysLive(one.disk, Do(one, Write(Health, Empty)).disk);
  }

  lemma StateWrittenLive(w: World, ch: Channel, state: Content)
    requires StatesLive(w.disk) && Names(w.disk, ch, state)
    ensures var r := Do(w, Write(ChannelState(ch), state));
            && r.disk.versions == w.disk.versions
            && StatesLive(r.disk)
            && (forall ch, gen :: ReadyLive(w.disk, ch, gen) ==> ReadyLive(r.disk, ch, gen))
  {
    var d := Do(w, Write(ChannelState(ch), state)).disk;
    assert forall c, x :: Names(w.disk, c, x) ==> Names(d, c, x);
  }
}
