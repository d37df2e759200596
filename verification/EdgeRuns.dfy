/** Runs of publication commands of any generations, with pruning runs between them. */
module EdgeRuns {
  import opened Seqs
  import opened EdgeDisk
  import opened EdgeMutable
  import opened EdgeCommands
  import opened EdgeLive
  import opened EdgeRetention

  datatype Event =
    | Run(c: Command, a: Args, e: Env, script: seq<Fate>)
    | Prune(pe: Env, ages: Ages, selected: seq<Version>, list: Version -> seq<Parts>, script: seq<Fate>)

  /** Arguments are valid tags, and a pruning run selects what it should. */
  ghost predicate Legal(d: Disk, ev: Event) {
    match ev
    case Run(c, a, e, script) => Proper(e) && a.appTag != ""
    case Prune(e, g, selected, list, script) => Selected(d, e, g, selected)
  }

  function After(d: Disk, ev: Event): Disk {
    match ev
    case Run(c, a, e, script) => Execute(World(d, script, Going), c, a, e).disk
    case Prune(e, g, selected, list, script) => RemoveAll(World(d, script, Going), selected, list).disk
  }

  function AfterAll(d: Disk, evs: seq<Event>): Disk
    decreases |evs|
  {
    if evs == [] then d else AfterAll(After(d, evs[0]), evs[1..])
  }

  ghost predicate AllLegal(d: Disk, evs: seq<Event>)
    decreases |evs|
  {
    evs == [] || (Legal(d, evs[0]) && AllLegal(After(d, evs[0]), evs[1..]))
  }

  // ----- commands alone -----

  ghost predicate OnlyCommands(d: Disk, evs: seq<Event>)
    decreases |evs|
  {
    evs == [] || (evs[0].Run? && Legal(d, evs[0]) && OnlyCommands(After(d, evs[0]), evs[1..]))
  }

  ghost predicate AllReadyLive(d: Disk) {
    forall ch, gen :: ReadyLive(d, ch, gen)
  }

  /** One command, however disturbed. */
  lemma CommandKeeps(w: World, c: Command, a: Args, e: Env)
    requires Proper(e) && a.appTag != "" && w.status == Going
    requires StatesLive(w.disk) && (c == Finish ==> ReadyLive(w.disk, a.ch, a.gen))
    ensures var r := Execute(w, c, a, e);
            && VersionsKept(w.disk, r.disk)
            && StatesLive(r.disk)
            && (forall ch, gen :: ReadyLive(w.disk, ch, gen) ==> ReadyLive(r.disk, ch, gen))
            && (c == PromoteImmutably && r.status == Going ==> ReadyLive(r.disk, a.ch, a.gen))
  {
    var r := Execute(w, c, a, e);
    match c
    case VerifyStaged =>
    case PromoteImmutably =>
      PromoteImmutableKeeps(w, a, e);
      if r.status == Going {
        PromoteImmutableReady(w, a, e);
      }
      RecordedLive(w.disk, r.disk, a);
    case PromoteMutably =>
      PromoteKeeps(w, a, e);
      StaysLive(w.disk, r.disk);
    case RollBack =>
      RollbackKeeps(w, a);
      StaysLive(w.disk, r.disk);
    case Finish => FinalizeKeeps(w, a, e);
    case GiveUp =>
      AbortKeeps(w, a, e);
      StaysLive(w.disk, r.disk);
  }

  lemma RecordedLive(d: Disk, d': Disk, a: Args)
    requires VersionsKept(d, d') && OtherRecordsKept(d, d', a) && StatesLive(d)
    requires Same(d.files, d'.files, Ready(a.ch, a.gen)) || ReadyLive(d', a.ch, a.gen)
    ensures StatesLive(d')
    ensures forall ch, gen :: ReadyLive(d, ch, gen) ==> ReadyLive(d', ch, gen)
  {
    assert forall ch, c :: Names(d, ch, c) ==> Names(d', ch, c);
    forall ch | ChannelState(ch) in d'.files ensures Names(d', ch, d'.files[ChannelState(ch)]) {
      assert Same(d.files, d'.files, ChannelState(ch));
    }
    forall ch, gen | ReadyLive(d, ch, gen) ensures ReadyLive(d', ch, gen) {
      assert Ready(ch, gen) == Ready(a.ch, a.gen) || Same(d.files, d'.files, Ready(ch, gen));
    }
  }

  /** Over any commands of any generations, each stopped anywhere: an existing version directory never
      changes, and every channel state names existing releases. */
  lemma {:induction false} CommandsKeep(d: Disk, evs: seq<Event>)
    requires OnlyCommands(d, evs) && StatesLive(d) && AllReadyLive(d)
    ensures VersionsKept(d, AfterAll(d, evs)) && StatesLive(AfterAll(d, evs)) && AllReadyLive(AfterAll(d, evs))
    decreases |evs|
  {
    if evs != [] {
      var ev := evs[0];
      assert ReadyLive(d, ev.a.ch, ev.a.gen);
      CommandKeeps(World(d, ev.script, Going), ev.c, ev.a, ev.e);
      CommandsKeep(After(d, ev), evs[1..]);
    }
  }

  // ----- with pruning between them -----

  type Publication = (Channel, Generation)

  /** The publications whose ready manifest was written after the last pruning run. */
  function Recent(recent: set<Publication>, d: Disk, ev: Event): set<Publication> {
    match ev
    case Run(c, a, e, script) =>
      if c == PromoteImmutably && Execute(World(d, script, Going), c, a, e).status == Going then recent + {(a.ch, a.gen)} else recent
    case Prune(_, _, _, _, _) => {}
  }

  /** No pruning run falls between a publication's promote-immutable and its finalize. */
  ghost predicate Disciplined(recent: set<Publication>, d: Disk, evs: seq<Event>)
    decreases |evs|
  {
    evs == [] ||
    (&& Legal(d, evs[0])
     && (evs[0].Run? && evs[0].c == Finish ==> (evs[0].a.ch, evs[0].a.gen) in recent)
     && Disciplined(Recent(recent, d, evs[0]), After(d, evs[0]), evs[1..]))
  }

  ghost predicate RecentLive(d: Disk, recent: set<Publication>) {
    forall ch, gen :: (ch, gen) in recent ==> ReadyLive(d, ch, gen)
  }

  lemma EventKeeps(recent: set<Publication>, d: Disk, ev: Event)
    requires Legal(d, ev) && StatesLive(d) && RecentLive(d, recent)
    requires ev.Run? && ev.c == Finish ==> (ev.a.ch, ev.a.gen) in recent
    ensures StatesLive(After(d, ev)) && RecentLive(After(d, ev), Recent(recent, d, ev))
  {
    match ev
    case Run(c, a, e, script) => CommandKeeps(World(d, script, Going), c, a, e);
    case Prune(e, g, selected, list, script) => PruneKeepsNamed(World(d, script, Going), e, g, selected, list);
  }

  /** With that discipline, every channel state names existing releases after every event. */
  lemma {:induction false} DisciplinedRunsStayLive(recent: set<Publication>, d: Disk, evs: seq<Event>)
    requires Disciplined(recent, d, evs) && StatesLive(d) && RecentLive(d, recent)
    ensures StatesLive(AfterAll(d, evs))
    decreases |evs|
  {
    if evs != [] {
      EventKeeps(recent, d, evs[0]);
      DisciplinedRunsStayLive(Recent(recent, d, evs[0]), After(d, evs[0]), evs[1..]);
    }
  }

  /** A finalize that goes through leaves the channel state right exactly when the releases its ready
      manifest names are still there. */
  lemma FinalizeLiveIff(d: Disk, a: Args, e: Env)
    requires Proper(e) && StatesLive(d) && PromotedMark(a.gen) in d.files
    requires Ready(a.ch, a.gen) in d.files && d.files[Ready(a.ch, a.gen)].Doc?
    ensures StatesLive(Finalize(World(d, [], Going), a, e).disk) <==> Names(d, a.ch, d.files[Ready(a.ch, a.gen)])
  {
    var w := World(d, [], Going);
    if Names(d, a.ch, d.files[Ready(a.ch, a.gen)]) {
      FinalizeKeeps(w, a, e);
    } else {
      var state := Doc(d.files[Ready(a.ch, a.gen)].doc.(phase := Active));
      var announced := Do(Do(w, Write(ChannelState(a.ch), state)), Write(Health, Empty));
      var wiped := WipeTransaction(announced, a, e);
      WipeTransactionFrame(announced, a, e);
      WipeStageFrame(wiped, a, e);
      assert Same(announced.disk.files, wiped.disk.files, ChannelState(a.ch));
      assert Same(wiped.disk.files, WipeStage(wiped, a, e).disk.files, ChannelState(a.ch));
      assert !Names(Finalize(w, a, e).disk, a.ch, state);
    }
  }

  /** The whole run: both promotions, a pruning run over what they left, and the finalize. */
  function PruneBetween(a: Args, e: Env, g: Ages, selected: seq<Version>, list: Version -> seq<Parts>): seq<Event> {
    [Run(PromoteImmutably, a, e, []), Run(PromoteMutably, a, e, []), Prune(e, g, selected, list, []), Run(Finish, a, e, [])]
  }

  /** The disk after both promotions. */
  function Promoted(d: Disk, a: Args, e: Env): Disk {
    After(After(d, Run(PromoteImmutably, a, e, [])), Run(PromoteMutably, a, e, []))
  }

  /** Neither promotion is refused. */
  predicate Promotes(d: Disk, a: Args, e: Env) {
    && Execute(World(d, [], Going), PromoteImmutably, a, e).status == Going
    && Execute(World(After(d, Run(PromoteImmutably, a, e, [])), [], Going), PromoteMutably, a, e).status == Going
  }

  function NamedVersions(ch: Channel, doc: Document): set<Version> {
    {Version(ch, App, doc.appTag)} + if doc.driverTag == "" then {} else {Version(ch, Driver, doc.driverTag)}
  }

  /** What the ready manifest of a publication names. */
  function NamedByReady(d: Disk, a: Args): set<Version> {
    if Ready(a.ch, a.gen) in d.files && d.files[Ready(a.ch, a.gen)].Doc?
    then NamedVersions(a.ch, d.files[Ready(a.ch, a.gen)].doc) else {}
  }

  lemma PromoteMarks(w: World, a: Args, e: Env)
    requires Promote(w, a, e).status == Going
    ensures PromotedMark(a.gen) in Promote(w, a, e).disk.files
  {
  }

  lemma MutablyKeepsReady(d: Disk, a: Args, e: Env)
    requires Proper(e) && StatesLive(d) && ReadyLive(d, a.ch, a.gen) && Ready(a.ch, a.gen) in d.files
    ensures var r := Promote(World(d, [], Going), a, e).disk;
            && StatesLive(r) && ReadyLive(r, a.ch, a.gen)
            && Same(d.files, r.files, ChannelState(a.ch)) && Same(d.files, r.files, Ready(a.ch, a.gen))
  {
    PromoteKeeps(World(d, [], Going), a, e);
    StaysLive(d, Promote(World(d, [], Going), a, e).disk);
  }

  lemma ImmutablyReady(d: Disk, a: Args, e: Env)
    requires Proper(e) && a.appTag != "" && StatesLive(d) && PromoteImmutable(World(d, [], Going), a, e).status == Going
    ensures var r := PromoteImmutable(World(d, [], Going), a, e).disk;
            && StatesLive(r) && Same(d.files, r.files, ChannelState(a.ch))
            && Ready(a.ch, a.gen) in r.files && ReadyLive(r, a.ch, a.gen)
            && r.files[Ready(a.ch, a.gen)].doc.appTag == a.appTag
  {
    PromoteImmutableReady(World(d, [], Going), a, e);
    PromoteImmutableKeeps(World(d, [], Going), a, e);
    RecordedLive(d, PromoteImmutable(World(d, [], Going), a, e).disk, a);
  }

  lemma PromotedReady(d: Disk, a: Args, e: Env)
    requires Proper(e) && a.appTag != "" && StatesLive(d) && Promotes(d, a, e)
    ensures var p := Promoted(d, a, e);
            && StatesLive(p) && Version(a.ch, App, a.appTag) in p.versions && PromotedMark(a.gen) in p.files
            && Same(d.files, p.files, ChannelState(a.ch))
            && Ready(a.ch, a.gen) in p.files && ReadyLive(p, a.ch, a.gen)
            && p.files[Ready(a.ch, a.gen)].doc.appTag == a.appTag
  {
    ImmutablyReady(d, a, e);
    var one := PromoteImmutable(World(d, [], Going), a, e).disk;
    MutablyKeepsReady(one, a, e);
    PromoteMarks(World(one, [], Going), a, e);
  }

  lemma NewAppSelected(d: Disk, p: Disk, a: Args, e: Env, g: Ages, selected: seq<Version>)
    requires StatesLive(p) && Same(d.files, p.files, ChannelState(a.ch))
    requires a.appTag != "" && Version(a.ch, App, a.appTag) in p.versions
    requires Selected(p, e, g, selected)
    ensures Version(a.ch, App, a.appTag) in selected <==>
            && ReferencesOf(p, e).Some?
            && ChannelState(a.ch) in d.files
            && d.files[ChannelState(a.ch)].Doc?
            && d.files[ChannelState(a.ch)].doc.appTag != a.appTag
            && g.aged(Version(a.ch, App, a.appTag))
  {
    if ReferencesOf(p, e).Some? {
      NewAppPrunable(p, a, e, g);
    }
  }

  /** The new app release is prunable unless the channel's state names it already. */
  lemma NewAppPrunable(d: Disk, a: Args, e: Env, g: Ages)
    requires ReferencesOf(d, e).Some? && StatesLive(d) && a.appTag != "" && Version(a.ch, App, a.appTag) in d.versions
    ensures Prunable(d, ReferencesOf(d, e).value, g, Version(a.ch, App, a.appTag)) <==>
            && ChannelState(a.ch) in d.files
            && d.files[ChannelState(a.ch)].doc.appTag != a.appTag
            && g.aged(Version(a.ch, App, a.appTag))
  {
    var refs, root := ReferencesOf(d, e).value, Root(a.ch, App);
    if ChannelState(a.ch) in d.files {
      assert Names(d, a.ch, d.files[ChannelState(a.ch)]);
      assert refs[root] == KeptTags(d, e, root);
    }
  }

  /** The discipline is needed: a pruning run between the promotions and the finalize of a publication is
      harmless if and only if it selects nothing that the ready manifest names, and it does select the new
      app release whenever the channel's state is of another one and the directory is old enough. */
  lemma PruneBetweenLiveIff(d: Disk, a: Args, e: Env, g: Ages, selected: seq<Version>, list: Version -> seq<Parts>)
    requires Proper(e) && a.appTag != "" && StatesLive(d) && Promotes(d, a, e)
    requires Selected(Promoted(d, a, e), e, g, selected)
    requires forall v :: v in selected ==> ListsFiles(Promoted(d, a, e), v, list(v))
    ensures var evs, p := PruneBetween(a, e, g, selected, list), Promoted(d, a, e);
            && AllLegal(d, evs)
            && (StatesLive(AfterAll(d, evs)) <==> forall v :: v in NamedByReady(p, a) ==> v !in selected)
            && Version(a.ch, App, a.appTag) in NamedByReady(p, a)
            && (Version(a.ch, App, a.appTag) in selected <==>
                  && ReferencesOf(p, e).Some?
                  && ChannelState(a.ch) in d.files
                  && d.files[ChannelState(a.ch)].Doc?
                  && d.files[ChannelState(a.ch)].doc.appTag != a.appTag
                  && g.aged(Version(a.ch, App, a.appTag)))
  {
    PromotedReady(d, a, e);
    NewAppSelected(d, Promoted(d, a, e), a, e, g, selected);
    PruneThenFinish(Promoted(d, a, e), a, e, g, selected, list);
    PruneBetweenRuns(d, a, e, g, selected, list);
  }

  lemma PruneBetweenRuns(d: Disk, a: Args, e: Env, g: Ages, selected: seq<Version>, list: Version -> seq<Parts>)
    requires Proper(e) && a.appTag != "" && Selected(Promoted(d, a, e), e, g, selected)
    ensures var evs := PruneBetween(a, e, g, selected, list);
            && AllLegal(d, evs)
            && AfterAll(d, evs) == After(After(Promoted(d, a, e), Prune(e, g, selected, list, [])), Run(Finish, a, e, []))
  {
    FourEvents(d, PruneBetween(a, e, g, selected, list));
  }

  lemma PruneThenFinish(p: Disk, a: Args, e: Env, g: Ages, selected: seq<Version>, list: Version -> seq<Parts>)
    requires Proper(e) && StatesLive(p) && PromotedMark(a.gen) in p.files
    requires Ready(a.ch, a.gen) in p.files && ReadyLive(p, a.ch, a.gen)
    requires Selected(p, e, g, selected)
    requires forall v :: v in selected ==> ListsFiles(p, v, list(v))
    ensures StatesLive(After(After(p, Prune(e, g, selected, list, [])), Run(Finish, a, e, []))) <==>
            forall v :: v in NamedByReady(p, a) ==> v !in selected
  {
    UndisturbedPrune(p, e, g, selected, list);
    FinishLiveIff(p, Disk(p.files, p.versions - Elems(selected)), a, e, selected);
  }

  lemma FinishLiveIff(p: Disk, pruned: Disk, a: Args, e: Env, selected: seq<Version>)
    requires Proper(e) && StatesLive(pruned) && PromotedMark(a.gen) in p.files
    requires Ready(a.ch, a.gen) in p.files && ReadyLive(p, a.ch, a.gen)
    requires pruned == Disk(p.files, p.versions - Elems(selected))
    ensures StatesLive(After(pruned, Run(Finish, a, e, []))) <==> forall v :: v in NamedByReady(p, a) ==> v !in selected
  {
    StillNamesIff(p, pruned, a, selected);
    FinalizeLiveIff(pruned, a, e);
  }

  lemma UndisturbedPrune(p: Disk, e: Env, g: Ages, selected: seq<Version>, list: Version -> seq<Parts>)
    requires StatesLive(p) && Selected(p, e, g, selected)
    requires forall v :: v in selected ==> ListsFiles(p, v, list(v))
    ensures var pruned := After(p, Prune(e, g, selected, list, []));
            pruned == Disk(p.files, p.versions - Elems(selected)) && StatesLive(pruned)
  {
    SelectedNoDup(p, e, g, selected);
    PruneRemovesExactly(World(p, [], Going), selected, list);
    PruneKeepsNamed(World(p, [], Going), e, g, selected, list);
  }

  lemma StillNamesIff(p: Disk, pruned: Disk, a: Args, selected: seq<Version>)
    requires Ready(a.ch, a.gen) in p.files && ReadyLive(p, a.ch, a.gen)
    requires pruned == Disk(p.files, p.versions - Elems(selected))
    ensures Names(pruned, a.ch, p.files[Ready(a.ch, a.gen)]) <==> forall v :: v in NamedByReady(p, a) ==> v !in selected
  {
    assert forall v :: v in pruned.versions <==> v in p.versions && v !in selected;
  }

  lemma SelectedNoDup(d: Disk, e: Env, g: Ages, selected: seq<Version>)
    requires Selected(d, e, g, selected)
    ensures NoDup(selected)
  {
  }

  lemma FourEvents(d: Disk, evs: seq<Event>)
    requires |evs| == 4
    ensures var one := After(d, evs[0]);
            var two := After(one, evs[1]);
            var three := After(two, evs[2]);
            && AfterAll(d, evs) == After(three, evs[3])
            && (AllLegal(d, evs) <==> Legal(d, evs[0]) && Legal(one, evs[1]) && Legal(two, evs[2]) && Legal(three, evs[3]))
  {
    var one := After(d, evs[0]);
    var two := After(one, evs[1]);
    var three := After(two, evs[2]);
    var rest1, rest2, rest3 := evs[1..], evs[2..], evs[3..];
    assert rest1[1..] == rest2 && rest2[1..] == rest3 && rest3[1..] == [];
    assert AfterAll(d, evs) == AfterAll(one, rest1) == AfterAll(two, rest2) == AfterAll(three, rest3);
    assert AfterAll(three, rest3) == AfterAll(After(three, evs[3]), []);
    assert AllLegal(three, rest3) <==> Legal(three, evs[3]);
    assert AllLegal(two, rest2) <==> Legal(two, evs[2]) && AllLegal(three, rest3);
    assert AllLegal(one, rest1) <==> Legal(one, evs[1]) && AllLegal(two, rest2);
  }
}
