/** Contents over runs with pruning: whether the releases that channel states name still hold the files
    they were published with. A pruning run that is stopped half-way leaves a release directory that is
    there but has lost files, and the commands after it only look whether it is there. */
module EdgeWhole {
  import opened EdgeDisk
  import opened EdgeMutable
  import opened EdgeCommands
  import opened EdgeLive
  import opened EdgeRetention
  import opened EdgeRuns

  /** The files each existing release was published with. */
  type History = map<Version, Directory>

  function Extend(pub: History, d: Disk, d': Disk): History {
    map v | v in d'.versions :: if v in d.versions && v in pub then pub[v] else d'.versions[v]
  }

  ghost predicate Records(pub: History, d: Disk) {
    pub.Keys == d.versions.Keys
  }

  ghost predicate Whole(pub: History, d: Disk, v: Version) {
    v in d.versions && v in pub && d.versions[v] == pub[v]
  }

  /** A document of channel `ch` whose releases are whole. */
  ghost predicate NamesWhole(pub: History, d: Disk, ch: Channel, c: Content) {
    && Names(d, ch, c)
    && Whole(pub, d, Version(ch, App, c.doc.appTag))
    && (c.doc.driverTag != "" ==> Whole(pub, d, Version(ch, Driver, c.doc.driverTag)))
  }

  ghost predicate StatesWhole(pub: History, d: Disk) {
    forall ch :: ChannelState(ch) in d.files ==> NamesWhole(pub, d, ch, d.files[ChannelState(ch)])
  }

  ghost predicate ReadyWhole(pub: History, d: Disk, ch: Channel, gen: Generation) {
    Ready(ch, gen) in d.files ==> NamesWhole(pub, d, ch, d.files[Ready(ch, gen)])
  }

  lemma StillNamesWhole(pub: History, d: Disk, d': Disk, ch: Channel, c: Content)
    requires Records(pub, d) && NamesWhole(pub, d, ch, c) && NamedKept(d, d', ch, c.doc)
    ensures NamesWhole(Extend(pub, d, d'), d', ch, c)
  {
  }

  // ----- what commands do to the records -----

  /** Finalize comes to the point of writing the channel state, and the write goes through. */
  predicate Announces(w: World, a: Args) {
    && w.status == Going && NextFate(w.script) == Go
    && PromotedMark(a.gen) in w.disk.files
    && Ready(a.ch, a.gen) in w.disk.files && w.disk.files[Ready(a.ch, a.gen)].Doc?
  }

  predicate Writes(w: World, c: Command, a: Args, e: Env, p: Path) {
    || (c == PromoteImmutably && p == Ready(a.ch, a.gen) && Execute(w, c, a, e).status == Going)
    || (c == Finish && p == ChannelState(a.ch) && Announces(w, a))
  }

  function NewState(d: Disk, a: Args): Content
    requires Ready(a.ch, a.gen) in d.files && d.files[Ready(a.ch, a.gen)].Doc?
  {
    Doc(d.files[Ready(a.ch, a.gen)].doc.(phase := Active))
  }

  lemma FinalizeRecords(w: World, a: Args, e: Env)
    requires Proper(e) && w.status == Going
    ensures var r := Finalize(w, a, e);
            && r.disk.versions == w.disk.versions
            && (forall p :: IsRecord(p) && !Writes(w, Finish, a, e, p) ==> Same(w.disk.files, r.disk.files, p))
            && (Announces(w, a) ==> ChannelState(a.ch) in r.disk.files
                                    && r.disk.files[ChannelState(a.ch)] == NewState(w.disk, a))
  {
    if PromotedMark(a.gen) in w.disk.files && Ready(a.ch, a.gen) in w.disk.files && w.disk.files[Ready(a.ch, a.gen)].Doc? {
      var written := Do(w, Write(ChannelState(a.ch), NewState(w.disk, a)));
      var announced := Do(written, Write(Health, Empty));
      var wiped := WipeTransaction(announced, a, e);
      WipeTransactionFrame(announced, a, e);
      WipeStageFrame(wiped, a, e);
      RecordsThrough(written.disk, announced.disk, wiped.disk, Finalize(w, a, e).disk);
      assert Same(written.disk.files, Finalize(w, a, e).disk.files, ChannelState(a.ch));
    }
  }

  lemma RecordsThrough(d0: Disk, d1: Disk, d2: Disk, d3: Disk)
    requires RecordsKept(d0, d1) && RecordsKept(d1, d2) && RecordsKept(d2, d3)
    ensures RecordsKept(d0, d3)
  {
    forall p | IsRecord(p) ensures Same(d0.files, d3.files, p) {
      assert Same(d0.files, d1.files, p) && Same(d1.files, d2.files, p) && Same(d2.files, d3.files, p);
    }
  }

  lemma PromoteImmutableRecords(w: World, a: Args, e: Env)
    requires Proper(e) && w.status == Going
    ensures var r := PromoteImmutable(w, a, e);
            && VersionsKept(w.disk, r.disk)
            && forall p :: IsRecord(p) && !Writes(w, PromoteImmutably, a, e, p) ==> Same(w.disk.files, r.disk.files, p)
  {
    PromoteImmutableKeeps(w, a, e);
  }

  lemma QuietCommand(w: World, c: Command, a: Args, e: Env)
    requires Proper(e) && c != PromoteImmutably && c != Finish
    ensures Quiet(w.disk, Execute(w, c, a, e).disk)
  {
    match c
    case VerifyStaged => VerifyQuiet(w, a, e);
    case PromoteMutably => PromoteQuiet(w, a, e);
    case RollBack => RollbackQuiet(w, a, e);
    case GiveUp => AbortQuiet(w, a, e);
  }

  ghost predicate Quiet(d: Disk, d': Disk) {
    VersionsKept(d, d') && RecordsKept(d, d')
  }

  lemma VerifyQuiet(w: World, a: Args, e: Env)
    ensures Quiet(w.disk, Execute(w, VerifyStaged, a, e).disk)
  {
    assert Execute(w, VerifyStaged, a, e).disk == w.disk;
    QuietSame(w.disk);
  }

  lemma QuietSame(d: Disk)
    ensures Quiet(d, d)
  {
  }

  lemma PromoteQuiet(w: World, a: Args, e: Env)
    requires Proper(e)
    ensures Quiet(w.disk, Execute(w, PromoteMutably, a, e).disk)
  {
    PromoteKeeps(w, a, e);
  }

  lemma RollbackQuiet(w: World, a: Args, e: Env)
    ensures Quiet(w.disk, Execute(w, RollBack, a, e).disk)
  {
    RollbackKeeps(w, a);
  }

  lemma AbortQuiet(w: World, a: Args, e: Env)
    requires Proper(e)
    ensures Quiet(w.disk, Execute(w, GiveUp, a, e).disk)
  {
    AbortKeeps(w, a, e);
  }

  /** No command changes a version, and only two write records. */
  lemma CommandRecords(w: World, c: Command, a: Args, e: Env)
    requires Proper(e) && w.status == Going
    ensures var r := Execute(w, c, a, e);
            && VersionsKept(w.disk, r.disk)
            && forall p :: IsRecord(p) && !Writes(w, c, a, e, p) ==> Same(w.disk.files, r.disk.files, p)
  {
    if c == PromoteImmutably {
      PromoteImmutableRecords(w, a, e);
    } else if c == Finish {
      FinalizeRecords(w, a, e);
    } else {
      QuietCommand(w, c, a, e);
    }
  }

  // ----- one event -----

  /** What the event, if it is a finalize that announces, is about to make a channel state. */
  ghost predicate FindsWhole(pub: History, d: Disk, ev: Event) {
    ev.Run? && ev.c == Finish && Announces(World(d, ev.script, Going), ev.a) ==>
      NamesWhole(pub, d, ev.a.ch, d.files[Ready(ev.a.ch, ev.a.gen)])
  }

  lemma KeptStatesWhole(pub: History, d: Disk, d': Disk)
    requires Records(pub, d) && StatesWhole(pub, d)
    requires forall ch :: ChannelState(ch) in d'.files ==>
               && Same(d.files, d'.files, ChannelState(ch))
               && NamedKept(d, d', ch, d.files[ChannelState(ch)].doc)
    ensures StatesWhole(Extend(pub, d, d'), d')
  {
    forall ch | ChannelState(ch) in d'.files
      ensures NamesWhole(Extend(pub, d, d'), d', ch, d'.files[ChannelState(ch)])
    {
      assert NamesWhole(pub, d, ch, d.files[ChannelState(ch)]);
      StillNamesWhole(pub, d, d', ch, d.files[ChannelState(ch)]);
    }
  }

  lemma FinishWholeIff(pub: History, d: Disk, a: Args, e: Env, script: seq<Fate>)
    requires Proper(e) && Records(pub, d) && StatesWhole(pub, d)
    ensures var d' := After(d, Run(Finish, a, e, script));
            StatesWhole(Extend(pub, d, d'), d') <==> FindsWhole(pub, d, Run(Finish, a, e, script))
  {
    var w, d' := World(d, script, Going), After(d, Run(Finish, a, e, script));
    FinalizeRecords(w, a, e);
    assert Extend(pub, d, d') == pub;
    if Announces(w, a) {
      assert NamesWhole(pub, d', a.ch, NewState(d, a)) <==> NamesWhole(pub, d, a.ch, d.files[Ready(a.ch, a.gen)]);
      forall ch | ch != a.ch && ChannelState(ch) in d'.files ensures NamesWhole(pub, d', ch, d'.files[ChannelState(ch)]) {
        assert Same(d.files, d'.files, ChannelState(ch)) && NamesWhole(pub, d, ch, d.files[ChannelState(ch)]);
      }
    } else {
      assert forall ch :: Same(d.files, d'.files, ChannelState(ch));
      assert forall ch, c :: NamedKept(d, d', ch, c);
      KeptStatesWhole(pub, d, d');
    }
  }

  /** After one event the channel states name whole releases if and only if a finalize that announces
      found its ready manifest naming whole releases. */
  lemma EventWholeIff(pub: History, d: Disk, ev: Event)
    requires Legal(d, ev) && Records(pub, d) && StatesWhole(pub, d)
    ensures var d' := After(d, ev); StatesWhole(Extend(pub, d, d'), d') <==> FindsWhole(pub, d, ev)
  {
    var d' := After(d, ev);
    match ev
    case Run(c, a, e, script) =>
      if c == Finish {
        FinishWholeIff(pub, d, a, e, script);
      } else {
        CommandRecords(World(d, script, Going), c, a, e);
        assert forall ch :: Same(d.files, d'.files, ChannelState(ch));
        assert forall ch, doc :: NamedKept(d, d', ch, doc);
        KeptStatesWhole(pub, d, d');
      }
    case Prune(e, g, selected, list, script) =>
      assert StatesLive(d);
      PruneKeepsNamed(World(d, script, Going), e, g, selected, list);
      KeptStatesWhole(pub, d, d');
  }

  // ----- runs -----

  /** At every point of the run the channel states name whole releases. */
  ghost predicate AlwaysWhole(pub: History, d: Disk, evs: seq<Event>)
    decreases |evs|
  {
    && StatesWhole(pub, d)
    && (evs != [] ==> var d' := After(d, evs[0]); AlwaysWhole(Extend(pub, d, d'), d', evs[1..]))
  }

  /** Every finalize of the run that announces finds its ready manifest naming whole releases. */
  ghost predicate FinalizesFindWhole(pub: History, d: Disk, evs: seq<Event>)
    decreases |evs|
  {
    evs == [] ||
    (FindsWhole(pub, d, evs[0]) && var d' := After(d, evs[0]); FinalizesFindWhole(Extend(pub, d, d'), d', evs[1..]))
  }

  /** The exact condition, over all commands and all pruning runs, each stopped anywhere. */
  lemma {:induction false} AlwaysWholeIff(pub: History, d: Disk, evs: seq<Event>)
    requires AllLegal(d, evs) && Records(pub, d) && StatesWhole(pub, d)
    ensures AlwaysWhole(pub, d, evs) <==> FinalizesFindWhole(pub, d, evs)
    decreases |evs|
  {
    if evs != [] {
      var d' := After(d, evs[0]);
      EventWholeIff(pub, d, evs[0]);
      if FindsWhole(pub, d, evs[0]) {
        AlwaysWholeIff(Extend(pub, d, d'), d', evs[1..]);
      } else {
        assert !AlwaysWhole(Extend(pub, d, d'), d', evs[1..]);
      }
    }
  }

  // ----- what to look at before a promotion -----

  /** The releases an immutable promotion is going to name. */
  function UsedVersions(d: Disk, a: Args, e: Env): set<Version> {
    var driver := if a.driverTag != "" then a.driverTag else InheritedDriverTag(d, a, e).GetOr("");
    {Version(a.ch, App, a.appTag)} + if driver == "" then {} else {Version(a.ch, Driver, driver)}
  }

  /** Those of them that exist already are whole. */
  ghost predicate UsesWhole(pub: History, d: Disk, a: Args, e: Env) {
    forall v :: v in UsedVersions(d, a, e) && v in d.versions ==> Whole(pub, d, v)
  }

  lemma UsedWholeIff(pub: History, d: Disk, d': Disk, v: Version)
    requires Records(pub, d) && VersionsKept(d, d') && v in d'.versions
    ensures Whole(Extend(pub, d, d'), d', v) <==> (v in d.versions ==> Whole(pub, d, v))
  {
  }

  /** An immutable promotion that completes leaves a ready manifest of whole releases if and only if those
      of them that existed before were whole. */
  lemma PromoteWholeIff(pub: History, w: World, a: Args, e: Env)
    requires Proper(e) && a.appTag != "" && w.status == Going && Records(pub, w.disk)
    requires PromoteImmutable(w, a, e).status == Going
    ensures var d' := PromoteImmutable(w, a, e).disk;
            ReadyWhole(Extend(pub, w.disk, d'), d', a.ch, a.gen) <==> UsesWhole(pub, w.disk, a, e)
  {
    var d' := PromoteImmutable(w, a, e).disk;
    ReadyUses(w, a, e);
    NamesWholeIff(pub, w.disk, d', a.ch, d'.files[Ready(a.ch, a.gen)]);
  }

  lemma ReadyUses(w: World, a: Args, e: Env)
    requires Proper(e) && a.appTag != "" && w.status == Going && PromoteImmutable(w, a, e).status == Going
    ensures var d' := PromoteImmutable(w, a, e).disk;
            && VersionsKept(w.disk, d')
            && Ready(a.ch, a.gen) in d'.files && ReadyLive(d', a.ch, a.gen)
            && NamedVersions(a.ch, d'.files[Ready(a.ch, a.gen)].doc) == UsedVersions(w.disk, a, e)
  {
    PromoteImmutableReady(w, a, e);
    PromoteImmutableKeeps(w, a, e);
  }

  lemma NamesWholeIff(pub: History, d: Disk, d': Disk, ch: Channel, c: Content)
    requires Records(pub, d) && VersionsKept(d, d') && Names(d', ch, c)
    ensures NamesWhole(Extend(pub, d, d'), d', ch, c) <==>
            forall v :: v in NamedVersions(ch, c.doc) && v in d.versions ==> Whole(pub, d, v)
  {
    forall v | v in NamedVersions(ch, c.doc)
      ensures Whole(Extend(pub, d, d'), d', v) <==> (v in d.versions ==> Whole(pub, d, v))
    {
      UsedWholeIff(pub, d, d', v);
    }
  }

  // ----- a discipline that is enough -----

  ghost predicate PromotionFindsWhole(pub: History, d: Disk, ev: Event) {
    ev.Run? && ev.c == PromoteImmutably && Execute(World(d, ev.script, Going), ev.c, ev.a, ev.e).status == Going ==>
      UsesWhole(pub, d, ev.a, ev.e)
  }

  /** Every immutable promotion of the run that completes finds whole what it did not publish itself. */
  ghost predicate PromotionsFindWhole(pub: History, d: Disk, evs: seq<Event>)
    decreases |evs|
  {
    evs == [] ||
    (PromotionFindsWhole(pub, d, evs[0]) && var d' := After(d, evs[0]); PromotionsFindWhole(Extend(pub, d, d'), d', evs[1..]))
  }

  ghost predicate RecentWhole(recent: set<Publication>, pub: History, d: Disk) {
    forall ch, gen :: (ch, gen) in recent ==> ReadyWhole(pub, d, ch, gen)
  }

  lemma ReadyStaysWhole(pub: History, d: Disk, d': Disk, ch: Channel, gen: Generation)
    requires Records(pub, d) && VersionsKept(d, d') && ReadyWhole(pub, d, ch, gen) && Same(d.files, d'.files, Ready(ch, gen))
    ensures ReadyWhole(Extend(pub, d, d'), d', ch, gen)
  {
    if Ready(ch, gen) in d'.files {
      StillNamesWhole(pub, d, d', ch, d.files[Ready(ch, gen)]);
    }
  }

  lemma CommandKeepsRecentWhole(recent: set<Publication>, pub: History, d: Disk, ev: Event)
    requires ev.Run? && Legal(d, ev) && Records(pub, d) && RecentWhole(recent, pub, d) && PromotionFindsWhole(pub, d, ev)
    ensures var d' := After(d, ev); RecentWhole(Recent(recent, d, ev), Extend(pub, d, d'), d')
  {
    var w, a, d' := World(d, ev.script, Going), ev.a, After(d, ev);
    CommandRecords(w, ev.c, a, ev.e);
    forall ch, gen | (ch, gen) in Recent(recent, d, ev) ensures ReadyWhole(Extend(pub, d, d'), d', ch, gen) {
      if Writes(w, ev.c, a, ev.e, Ready(ch, gen)) {
        PromoteWholeIff(pub, w, a, ev.e);
      } else {
        ReadyStaysWhole(pub, d, d', ch, gen);
      }
    }
  }

  /** No pruning run between a publication's immutable promotion and its finalize, and immutable promotions
      that use existing releases only if they are whole: then channel states always name whole releases. */
  lemma {:induction false} DisciplinedRunsStayWhole(recent: set<Publication>, pub: History, d: Disk, evs: seq<Event>)
    requires Disciplined(recent, d, evs) && PromotionsFindWhole(pub, d, evs)
    requires Records(pub, d) && StatesWhole(pub, d) && RecentWhole(recent, pub, d)
    ensures AlwaysWhole(pub, d, evs)
    decreases |evs|
  {
    if evs != [] {
      var ev, d' := evs[0], After(d, evs[0]);
      EventWholeIff(pub, d, ev);
      if ev.Run? {
        CommandKeepsRecentWhole(recent, pub, d, ev);
      }
      DisciplinedRunsStayWhole(Recent(recent, d, ev), Extend(pub, d, d'), d', evs[1..]);
    }
  }

  // ----- pruning runs that are not cut short -----

  ghost predicate AllWhole(pub: History, d: Disk) {
    Records(pub, d) && forall v :: v in d.versions ==> Whole(pub, d, v)
  }

  /** Every pruning run of the run comes to its end. */
  ghost predicate PrunesComplete(d: Disk, evs: seq<Event>)
    decreases |evs|
  {
    evs == [] ||
    (&& (evs[0].Prune? ==> RemoveAll(World(d, evs[0].script, Going), evs[0].selected, evs[0].list).status == Going)
     && PrunesComplete(After(d, evs[0]), evs[1..]))
  }

  lemma {:induction false} RemoveFilesStopped(w: World, v: Version, names: seq<Parts>)
    ensures w.status != Going ==> RemoveFiles(w, v, names) == w
    decreases |names|
  {
    if names != [] {
      RemoveFilesStopped(Do(w, RemoveFrom(v, names[0])), v, names[1..]);
    }
  }

  lemma {:induction false} RemoveAllStopped(w: World, selected: seq<Version>, list: Version -> seq<Parts>)
    requires w.status != Going
    ensures RemoveAll(w, selected, list) == w
    decreases |selected|
  {
    if selected != [] {
      RemoveFilesStopped(w, selected[0], list(selected[0]));
      RemoveAllStopped(RemoveVersionTree(w, selected[0], list(selected[0])), selected[1..], list);
    }
  }

  /** A pruning run that comes to its end has taken away every selected directory as a whole. */
  lemma {:induction false} CompletedPruneTakesAll(w: World, selected: seq<Version>, list: Version -> seq<Parts>)
    requires RemoveAll(w, selected, list).status == Going
    ensures forall v :: v in selected ==> v !in RemoveAll(w, selected, list).disk.versions
    decreases |selected|
  {
    if selected != [] {
      var v, rest := selected[0], selected[1..];
      var one := RemoveVersionTree(w, v, list(v));
      if one.status != Going {
        RemoveAllStopped(one, rest, list);
      }
      CompletedPruneTakesAll(one, rest, list);
      RemoveAllFrame(one, rest, list);
      assert v !in one.disk.versions;
      assert forall u :: u in selected <==> u == v || u in rest;
    }
  }

  lemma EventKeepsAllWhole(pub: History, d: Disk, ev: Event)
    requires Legal(d, ev) && AllWhole(pub, d) && PrunesComplete(d, [ev])
    ensures var d' := After(d, ev); AllWhole(Extend(pub, d, d'), d')
  {
    var d' := After(d, ev);
    match ev
    case Run(c, a, e, script) => CommandRecords(World(d, script, Going), c, a, e);
    case Prune(e, g, selected, list, script) =>
      RemoveAllFrame(World(d, script, Going), selected, list);
      CompletedPruneTakesAll(World(d, script, Going), selected, list);
  }

  /** When no pruning run is cut short, every existing release is whole at any time. */
  lemma {:induction false} CompletedPrunesKeepWhole(pub: History, d: Disk, evs: seq<Event>)
    requires AllLegal(d, evs) && AllWhole(pub, d) && PrunesComplete(d, evs)
    ensures PromotionsFindWhole(pub, d, evs)
    decreases |evs|
  {
    if evs != [] {
      var d' := After(d, evs[0]);
      EventKeepsAllWhole(pub, d, evs[0]);
      CompletedPrunesKeepWhole(Extend(pub, d, d'), d', evs[1..]);
    }
  }

  lemma {:induction false} DisciplinedLegal(recent: set<Publication>, d: Disk, evs: seq<Event>)
    requires Disciplined(recent, d, evs)
    ensures AllLegal(d, evs)
    decreases |evs|
  {
    if evs != [] {
      DisciplinedLegal(Recent(recent, d, evs[0]), After(d, evs[0]), evs[1..]);
    }
  }

  /** Then the discipline about pruning and finalize is enough, counting from what the releases hold at the
      start: whatever a channel state names holds the files it was published with. */
  lemma UncutRunsStayWhole(recent: set<Publication>, d: Disk, evs: seq<Event>)
    requires Disciplined(recent, d, evs) && PrunesComplete(d, evs) && StatesLive(d) && RecentLive(d, recent)
    ensures AlwaysWhole(d.versions, d, evs)
  {
    DisciplinedLegal(recent, d, evs);
    CompletedPrunesKeepWhole(d.versions, d, evs);
    forall ch, gen | (ch, gen) in recent ensures ReadyWhole(d.versions, d, ch, gen) {
      assert ReadyLive(d, ch, gen);
    }
    DisciplinedRunsStayWhole(recent, d.versions, d, evs);
  }

  // ----- why the condition on promotions is there -----

  /** A pruning run stopped after its first file leaves a directory that is there and not whole. */
  lemma CutPruneHalves(d: Disk, e: Env, g: Ages, selected: seq<Version>, list: Version -> seq<Parts>)
    requires Selected(d, e, g, selected) && selected != []
    requires ListsFiles(d, selected[0], list(selected[0])) && list(selected[0]) != []
    ensures var v, d' := selected[0], After(d, Prune(e, g, selected, list, [Go, Crash]));
            v in d'.versions && !Whole(Extend(d.versions, d, d'), d', v)
  {
    var v, names := selected[0], list(selected[0]);
    var one := Do(World(d, [Go, Crash], Going), RemoveFrom(v, names[0]));
    FileGone(d, v, names);
    assert names[0] in names;
    assert names[0] in d.versions[v] && names[0] !in one.disk.versions[v];
    var two := RemoveVersionTree(World(d, [Go, Crash], Going), v, names);
    StoppedNext(one, v, names[1..]);
    RemoveAllStopped(two, selected[1..], list);
  }

  lemma StoppedNext(w: World, v: Version, names: seq<Parts>)
    requires w.status == Going && w.script == [Crash]
    ensures var r := Do(RemoveFiles(w, v, names), RemoveVersion(v)); r.disk == w.disk && r.status == Crashed
  {
    if names != [] {
      RemoveFilesStopped(Do(w, RemoveFrom(v, names[0])), v, names[1..]);
    }
  }

  /** The inherited driver release need only be there: what it holds makes no difference. */
  lemma InheritanceIgnoresContents(d: Disk, d': Disk, a: Args, e: Env)
    requires d.files == d'.files && d.versions.Keys == d'.versions.Keys
    ensures InheritedDriverTag(d, a, e) == InheritedDriverTag(d', a, e) && UsedVersions(d, a, e) == UsedVersions(d', a, e)
  {
    assert forall v :: v in d.versions <==> v in d'.versions;
  }

  /** One publication from its immutable promotion to its finalize. */
  function PublicationRun(a: Args, e: Env): seq<Event> {
    [Run(PromoteImmutably, a, e, []), Run(PromoteMutably, a, e, []), Run(Finish, a, e, [])]
  }

  /** The history after both promotions. */
  function PromotedHistory(pub: History, d: Disk, a: Args, e: Env): History {
    var one := After(d, Run(PromoteImmutably, a, e, []));
    Extend(Extend(pub, d, one), one, Promoted(d, a, e))
  }

  lemma PublicationUnfolds(pub: History, d: Disk, a: Args, e: Env)
    requires Proper(e) && a.appTag != ""
    ensures AllLegal(d, PublicationRun(a, e))
    ensures FinalizesFindWhole(pub, d, PublicationRun(a, e)) <==>
            FindsWhole(PromotedHistory(pub, d, a, e), Promoted(d, a, e), Run(Finish, a, e, []))
  {
    var evs, one, two := PublicationRun(a, e), After(d, Run(PromoteImmutably, a, e, [])), Promoted(d, a, e);
    var pub1 := Extend(pub, d, one);
    var rest1, rest2 := evs[1..], evs[2..];
    assert rest1[1..] == rest2 && rest2[1..] == [];
    assert FinalizesFindWhole(pub, d, evs) <==> FinalizesFindWhole(pub1, one, rest1);
    assert FinalizesFindWhole(pub1, one, rest1) <==> FinalizesFindWhole(Extend(pub1, one, two), two, rest2);
    assert FinalizesFindWhole(Extend(pub1, one, two), two, rest2) <==> FindsWhole(Extend(pub1, one, two), two, evs[2]);
    assert AllLegal(two, rest2);
    assert AllLegal(one, rest1);
  }

  lemma ReadyThroughMutable(pub: History, d: Disk, a: Args, e: Env)
    requires Proper(e) && Records(pub, d) && Ready(a.ch, a.gen) in d.files && ReadyLive(d, a.ch, a.gen)
    ensures var d' := Promote(World(d, [], Going), a, e).disk;
            && ReadyLive(d', a.ch, a.gen) && Ready(a.ch, a.gen) in d'.files
            && (ReadyWhole(Extend(pub, d, d'), d', a.ch, a.gen) <==> ReadyWhole(pub, d, a.ch, a.gen))
  {
    var d' := Promote(World(d, [], Going), a, e).disk;
    PromoteKeeps(World(d, [], Going), a, e);
    StaysLive(d, d');
    assert Same(d.files, d'.files, Ready(a.ch, a.gen));
    NamesWholeIff(pub, d, d', a.ch, d.files[Ready(a.ch, a.gen)]);
  }

  lemma FindsReady(pub: History, d: Disk, a: Args, e: Env)
    requires PromotedMark(a.gen) in d.files && Ready(a.ch, a.gen) in d.files && ReadyLive(d, a.ch, a.gen)
    ensures FindsWhole(pub, d, Run(Finish, a, e, [])) <==> ReadyWhole(pub, d, a.ch, a.gen)
  {
  }

  ghost predicate ReadyThere(d: Disk, a: Args) {
    Ready(a.ch, a.gen) in d.files && ReadyLive(d, a.ch, a.gen)
  }

  lemma ImmutablyWholeIff(pub: History, d: Disk, a: Args, e: Env)
    requires Proper(e) && a.appTag != "" && Promotes(d, a, e) && Records(pub, d)
    ensures var one := After(d, Run(PromoteImmutably, a, e, []));
            && ReadyThere(one, a)
            && (ReadyWhole(Extend(pub, d, one), one, a.ch, a.gen) <==> UsesWhole(pub, d, a, e))
  {
    PromoteWholeIff(pub, World(d, [], Going), a, e);
    ReadyUses(World(d, [], Going), a, e);
  }

  lemma MutablyWholeIff(pub: History, d: Disk, a: Args, e: Env)
    requires Proper(e) && Records(pub, d) && ReadyThere(d, a)
    requires Execute(World(d, [], Going), PromoteMutably, a, e).status == Going
    ensures var two := After(d, Run(PromoteMutably, a, e, []));
            && ReadyThere(two, a) && PromotedMark(a.gen) in two.files
            && (ReadyWhole(Extend(pub, d, two), two, a.ch, a.gen) <==> ReadyWhole(pub, d, a.ch, a.gen))
  {
    ReadyThroughMutable(pub, d, a, e);
    PromoteMarks(World(d, [], Going), a, e);
  }

  lemma PublicationFinds(pub: History, d: Disk, a: Args, e: Env)
    requires Proper(e) && a.appTag != "" && Promotes(d, a, e) && Records(pub, d)
    ensures FindsWhole(PromotedHistory(pub, d, a, e), Promoted(d, a, e), Run(Finish, a, e, [])) <==> UsesWhole(pub, d, a, e)
  {
    var one := After(d, Run(PromoteImmutably, a, e, []));
    ImmutablyWholeIff(pub, d, a, e);
    MutablyWholeIff(Extend(pub, d, one), one, a, e);
    FindsReady(PromotedHistory(pub, d, a, e), Promoted(d, a, e), a, e);
  }

  /** A publication that is not disturbed keeps channel states whole if and only if it finds whole what it
      did not publish itself; that there is no pruning run in it is not enough. */
  lemma PublicationWholeIff(pub: History, d: Disk, a: Args, e: Env)
    requires Proper(e) && a.appTag != "" && Promotes(d, a, e) && Records(pub, d) && StatesWhole(pub, d)
    ensures AlwaysWhole(pub, d, PublicationRun(a, e)) <==> UsesWhole(pub, d, a, e)
  {
    PublicationUnfolds(pub, d, a, e);
    AlwaysWholeIff(pub, d, PublicationRun(a, e));
    PublicationFinds(pub, d, a, e);
  }
}
