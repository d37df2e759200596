/** Rollbacks after a finalize or an abort, and a finalize after a rollback. */
module EdgeAftermath {
  import opened Seqs
  import opened EdgeDisk
  import opened EdgeMutable
  import opened EdgeCommands

  // Finalize and abort remove the records of a generation with errors ignored, so a run that completes
  // may leave some of them behind, and a run that stops may leave all. What a rollback then does is
  // decided by what those leftovers say.

  /** After a rollback a finalize is refused, whatever its faults. */
  lemma RollbackBlocksFinalize(d: Disk, a: Args, e: Env, script: seq<Fate>)
    ensures var back := Rollback(World(d, [], Going), a);
            && back.status == Going
            && Finalize(World(back.disk, script, Going), a, e) == World(back.disk, script, Status.Refused)
  {
    RollbackIdempotent(d, a);
  }

  // ----- what is left behind -----

  /** The ready manifest can be read and the mark is there: a finalize goes ahead. */
  ghost predicate MayFinish(d: Disk, a: Args) {
    PromotedMark(a.gen) in d.files && Ready(a.ch, a.gen) in d.files && d.files[Ready(a.ch, a.gen)].Doc?
  }

  /** Of the generation's records only some are left, as they were, and the destinations are untouched. */
  ghost predicate SomeLeft(f: map<Path, Content>, g: map<Path, Content>, a: Args) {
    && (forall p :: InTransaction(a.gen, p) && p in g ==> p in f && f[p] == g[p])
    && Untouched(f, g, a)
  }

  function ActiveState(d: Disk, a: Args): Content
    requires Ready(a.ch, a.gen) in d.files && d.files[Ready(a.ch, a.gen)].Doc?
  {
    Doc(d.files[Ready(a.ch, a.gen)].doc.(phase := Active))
  }

  function Announced(w: World, a: Args): World
    requires Ready(a.ch, a.gen) in w.disk.files && w.disk.files[Ready(a.ch, a.gen)].Doc?
  {
    Do(Do(w, Write(ChannelState(a.ch), ActiveState(w.disk, a))), Write(Health, Empty))
  }

  lemma AnnouncedFrame(w: World, a: Args)
    requires MayFinish(w.disk, a)
    ensures var r := Announced(w, a);
            && (forall p :: p != ChannelState(a.ch) && p != Health ==> Same(w.disk.files, r.disk.files, p))
            && (w.status == Going && NextFate(w.script) == Go ==>
                  ChannelState(a.ch) in r.disk.files && r.disk.files[ChannelState(a.ch)] == ActiveState(w.disk, a))
  {
  }

  lemma WipeTransactionLeaves(w: World, a: Args, e: Env)
    requires Proper(e)
    ensures var r := WipeTransaction(w, a, e);
            && SomeLeft(w.disk.files, r.disk.files, a)
            && Same(w.disk.files, r.disk.files, ChannelState(a.ch))
  {
    var order := e.list(TransactionFiles(w.disk.files, a.gen));
    RemoveTreeSubset(w, order);
    assert forall p :: p in order ==> p in Elems(order);
  }

  lemma WipeStageLeaves(w: World, a: Args, e: Env)
    requires Proper(e)
    ensures var r := WipeStage(w, a, e);
            && (forall p :: !InStage(a.stage, p) ==> Same(w.disk.files, r.disk.files, p))
            && r.disk.versions == w.disk.versions
  {
    var order := e.list(StageFiles(w.disk.files, a.stage));
    RemoveTreeSubset(w, order);
    assert forall p :: p in order ==> p in Elems(order);
  }

  lemma SomeLeftThrough(f: map<Path, Content>, g: map<Path, Content>, h: map<Path, Content>, a: Args)
    requires SomeLeft(f, g, a) && (forall p :: !InStage(a.stage, p) ==> Same(g, h, p))
    ensures SomeLeft(f, h, a)
  {
    forall p | InTransaction(a.gen, p) && p in h ensures p in f && f[p] == h[p] {
      assert Same(g, h, p);
    }
    forall k | k in Kinds(a) ensures Same(f, h, Destination(a, k)) {
      assert Same(f, g, Destination(a, k)) && Same(g, h, Destination(a, k));
    }
  }

  lemma SomeLeftAfter(f: map<Path, Content>, g: map<Path, Content>, h: map<Path, Content>, a: Args)
    requires (forall k :: k in Kinds(a) ==> Same(f, g, Destination(a, k)))
    requires (forall p :: InTransaction(a.gen, p) ==> Same(f, g, p)) && SomeLeft(g, h, a)
    ensures SomeLeft(f, h, a)
  {
    forall p | InTransaction(a.gen, p) && p in h ensures p in f && f[p] == h[p] {
      assert Same(f, g, p);
    }
    forall k | k in Kinds(a) ensures Same(f, h, Destination(a, k)) {
      assert Same(f, g, Destination(a, k)) && Same(g, h, Destination(a, k));
    }
  }

  lemma FinalizeLeaves(w: World, a: Args, e: Env)
    requires Proper(e) && MayFinish(w.disk, a)
    ensures var r := Finalize(w, a, e);
            && SomeLeft(w.disk.files, r.disk.files, a)
            && (w.status == Going && NextFate(w.script) == Go ==>
                  ChannelState(a.ch) in r.disk.files && r.disk.files[ChannelState(a.ch)] == ActiveState(w.disk, a))
  {
    var announced := Announced(w, a);
    var wiped := WipeTransaction(announced, a, e);
    var r := WipeStage(wiped, a, e);
    assert r == Finalize(w, a, e);
    AnnouncedFrame(w, a);
    WipeTransactionLeaves(announced, a, e);
    WipeStageLeaves(wiped, a, e);
    assert forall p :: InTransaction(a.gen, p) ==> Same(w.disk.files, announced.disk.files, p);
    SomeLeftAfter(w.disk.files, announced.disk.files, wiped.disk.files, a);
    SomeLeftThrough(w.disk.files, wiped.disk.files, r.disk.files, a);
    assert Same(wiped.disk.files, r.disk.files, ChannelState(a.ch));
  }

  lemma AbortLeaves(w: World, a: Args, e: Env)
    requires Proper(e)
    ensures SomeLeft(w.disk.files, Abort(w, a, e).disk.files, a)
  {
    var bare := WipeStage(w, a, e);
    WipeStageLeaves(w, a, e);
    WipeTransactionLeaves(bare, a, e);
    assert forall p :: InTransaction(a.gen, p) ==> Same(w.disk.files, bare.disk.files, p);
    SomeLeftAfter(w.disk.files, bare.disk.files, Abort(w, a, e).disk.files, a);
  }

  // ----- what a rollback does then -----

  /** Rollbacks from `d`, disturbed or not, leave the destinations as they are. */
  ghost predicate RollbacksUnnoticed(d: Disk, a: Args) {
    forall script :: Untouched(d.files, Rollback(World(d, script, Going), a).disk.files, a)
  }

  ghost predicate RollbackDoesNothing(d: Disk, a: Args) {
    Rollback(World(d, [], Going), a).disk == d
  }

  lemma RollbackAfter(d: Disk, a: Args)
    ensures RollbacksUnnoticed(d, a) <==> Agrees(d.files, a)
    ensures RollbackDoesNothing(d, a) <==> NothingLeftToDo(d.files, a)
  {
    RollbackUnnoticedIff(d, a);
    assert forall script :: Rollback(World(d, script, Going), a) == Restore(World(d, script, Going), a);
  }

  lemma HarmlessLeavesAgreeing(f: map<Path, Content>, g: map<Path, Content>, a: Args)
    requires Harmless(f, a) && SomeLeft(f, g, a)
    ensures Agrees(g, a)
  {
    forall k | k in Kinds(a) ensures AgreesAt(g, a, k) {
      assert HarmlessAt(f, a, k) && Same(f, g, Destination(a, k));
    }
  }

  /** However a finalize ends, completed or stopped, with the channel state written from its first step
      on: a rollback after it changes nothing if and only if the mark is gone and what is left agrees with
      the destinations, and no rollback touches a destination if and only if what is left agrees. */
  lemma NothingAfterFinishing(d: Disk, a: Args, e: Env, script: seq<Fate>)
    requires Proper(e) && MayFinish(d, a)
    ensures var r := Finalize(World(d, script, Going), a, e);
            && (NextFate(script) == Go ==>
                  ChannelState(a.ch) in r.disk.files && r.disk.files[ChannelState(a.ch)] == ActiveState(d, a))
            && SomeLeft(d.files, r.disk.files, a)
            && (RollbackDoesNothing(r.disk, a) <==> NothingLeftToDo(r.disk.files, a))
            && (RollbacksUnnoticed(r.disk, a) <==> Agrees(r.disk.files, a))
            && (Harmless(d.files, a) ==> RollbacksUnnoticed(r.disk, a))
  {
    var r := Finalize(World(d, script, Going), a, e);
    FinalizeLeaves(World(d, script, Going), a, e);
    RollbackAfter(r.disk, a);
    if Harmless(d.files, a) {
      HarmlessLeavesAgreeing(d.files, r.disk.files, a);
    }
  }

  /** The same of an abort. */
  lemma NothingAfterAborting(d: Disk, a: Args, e: Env, script: seq<Fate>)
    requires Proper(e)
    ensures var r := Abort(World(d, script, Going), a, e);
            && SomeLeft(d.files, r.disk.files, a)
            && (RollbackDoesNothing(r.disk, a) <==> NothingLeftToDo(r.disk.files, a))
            && (RollbacksUnnoticed(r.disk, a) <==> Agrees(r.disk.files, a))
            && (Harmless(d.files, a) ==> RollbacksUnnoticed(r.disk, a))
  {
    var r := Abort(World(d, script, Going), a, e);
    AbortLeaves(World(d, script, Going), a, e);
    RollbackAfter(r.disk, a);
    if Harmless(d.files, a) {
      HarmlessLeavesAgreeing(d.files, r.disk.files, a);
    }
  }

  // ----- which runs that complete leave something that disagrees -----

  /** Ignored faults at exactly the files in `keep`. */
  function KeepScript(order: seq<Path>, keep: set<Path>): seq<Fate> {
    seq(|order|, i requires 0 <= i < |order| => if order[i] in keep then Fail else Go)
  }

  lemma KeepScriptTail(order: seq<Path>, keep: set<Path>, later: seq<Fate>)
    requires order != []
    ensures (KeepScript(order, keep) + later)[1..] == KeepScript(order[1..], keep) + later
  {
  }

  lemma {:induction false} RemoveTreeBut(w: World, order: seq<Path>, keep: set<Path>, later: seq<Fate>)
    requires w.status == Going && w.script == KeepScript(order, keep) + later
    requires NoDup(order) && forall p :: p in order ==> p in w.disk.files
    ensures var r := RemoveTree(w, order);
            && r.status == Going && r.script == later
            && (forall p :: p in r.disk.files <==> p in w.disk.files && (p !in order || p in keep))
            && (forall p :: p in r.disk.files ==> r.disk.files[p] == w.disk.files[p])
    decreases |order|
  {
    if order == [] {
      assert w.script == later;
    } else {
      var one := Try(w, Unlink(order[0]));
      assert order == [order[0]] + order[1..];
      NoDupParts([order[0]], order[1..]);
      KeepScriptTail(order, keep, later);
      assert one.script == KeepScript(order[1..], keep) + later;
      RemoveTreeBut(one, order[1..], keep, later);
    }
  }

  /** Exactly the records in `keep` are left, and the destinations are untouched. */
  ghost predicate ExactlyLeft(f: map<Path, Content>, g: map<Path, Content>, a: Args, keep: set<Path>) {
    SomeLeft(f, g, a) && forall p :: InTransaction(a.gen, p) ==> (p in g <==> p in f && p in keep)
  }

  lemma WipeTransactionBut(w: World, a: Args, e: Env, keep: set<Path>, later: seq<Fate>)
    requires Proper(e) && w.status == Going
    requires w.script == KeepScript(e.list(TransactionFiles(w.disk.files, a.gen)), keep) + later
    ensures var r := WipeTransaction(w, a, e);
            r.status == Going && r.script == later && ExactlyLeft(w.disk.files, r.disk.files, a, keep)
  {
    var order := e.list(TransactionFiles(w.disk.files, a.gen));
    assert forall p :: p in order <==> p in Elems(order);
    RemoveTreeBut(w, order, keep, later);
    WipeTransactionLeaves(w, a, e);
  }

  lemma WipeStageCompletes(w: World, a: Args, e: Env)
    requires Proper(e) && Running(w)
    ensures Running(WipeStage(w, a, e))
  {
    RemoveTreeAll(w, e.list(StageFiles(w.disk.files, a.stage)));
  }

  /** A finalize can complete and leave any of the generation's records behind. */
  lemma FinalizeCanLeave(d: Disk, a: Args, e: Env, keep: set<Path>) returns (script: seq<Fate>)
    requires Proper(e) && MayFinish(d, a)
    ensures var r := Finalize(World(d, script, Going), a, e);
            r.status == Going && ExactlyLeft(d.files, r.disk.files, a, keep)
  {
    var faults := KeepScript(e.list(TransactionFiles(d.files, a.gen)), keep);
    script := [Go, Go] + faults;
    var w := World(d, script, Going);
    var announced := Announced(w, a);
    AnnouncedFrame(w, a);
    assert script[1..][1..] == faults && faults + [] == faults;
    assert announced.status == Going && announced.script == faults;
    assert forall p :: InTransaction(a.gen, p) ==> Same(d.files, announced.disk.files, p);
    assert TransactionFiles(announced.disk.files, a.gen) == TransactionFiles(d.files, a.gen);
    WipeTransactionBut(announced, a, e, keep, []);
    var wiped := WipeTransaction(announced, a, e);
    WipeStageCompletes(wiped, a, e);
    WipeStageLeaves(wiped, a, e);
    FinalizeLeaves(w, a, e);
    LeftThrough(d.files, announced.disk.files, wiped.disk.files, WipeStage(wiped, a, e).disk.files, a, keep);
  }

  lemma LeftThrough(f: map<Path, Content>, g: map<Path, Content>, h: map<Path, Content>, i: map<Path, Content>, a: Args, keep: set<Path>)
    requires forall p :: InTransaction(a.gen, p) ==> Same(f, g, p)
    requires ExactlyLeft(g, h, a, keep) && SomeLeft(f, i, a)
    requires forall p :: !InStage(a.stage, p) ==> Same(h, i, p)
    ensures ExactlyLeft(f, i, a, keep)
  {
    forall p | InTransaction(a.gen, p) ensures p in i <==> p in f && p in keep {
      assert Same(f, g, p) && Same(h, i, p);
    }
  }

  lemma AbortCanLeave(d: Disk, a: Args, e: Env, keep: set<Path>) returns (script: seq<Fate>)
    requires Proper(e)
    ensures var r := Abort(World(d, script, Going), a, e);
            r.status == Going && ExactlyLeft(d.files, r.disk.files, a, keep)
  {
    var first := e.list(StageFiles(d.files, a.stage));
    var faults := KeepScript(e.list(TransactionFiles(d.files, a.gen)), keep);
    script := KeepScript(first, {}) + faults;
    var w := World(d, script, Going);
    assert forall p :: p in first <==> p in Elems(first);
    RemoveTreeBut(w, first, {}, faults);
    var bare := WipeStage(w, a, e);
    WipeStageLeaves(w, a, e);
    assert forall p :: InTransaction(a.gen, p) ==> Same(d.files, bare.disk.files, p);
    assert TransactionFiles(bare.disk.files, a.gen) == TransactionFiles(d.files, a.gen);
    assert faults + [] == faults;
    WipeTransactionBut(bare, a, e, keep, []);
    AbortLeaves(w, a, e);
    LeftThrough(d.files, bare.disk.files, Abort(w, a, e).disk.files, Abort(w, a, e).disk.files, a, keep);
  }

  /** One record that disagrees is enough. */
  lemma DisagreeingRecord(f: map<Path, Content>, a: Args) returns (p: Path)
    requires !Harmless(f, a)
    ensures InTransaction(a.gen, p) && forall g :: ExactlyLeft(f, g, a, {p}) ==> !Agrees(g, a)
  {
    var k :| k in Kinds(a) && !HarmlessAt(f, a, k);
    var d, b, m := Destination(a, k), Backup(a.gen, a.ch, k), Missing(a.gen, a.ch, k);
    p := if b in f && !(d in f && f[d] == f[b]) then b else m;
    forall g | ExactlyLeft(f, g, a, {p}) ensures !Agrees(g, a) {
      assert Same(f, g, d);
      assert !AgreesAt(g, a, k);
    }
  }

  /** Every finalize that completes, whatever errors it ignored, is safe from a later rollback of its
      generation, if and only if the records it started from all agree with the destinations. */
  lemma FinishedSafeIff(d: Disk, a: Args, e: Env)
    requires Proper(e) && MayFinish(d, a)
    ensures (forall script :: Finalize(World(d, script, Going), a, e).status == Going ==>
               RollbacksUnnoticed(Finalize(World(d, script, Going), a, e).disk, a))
            <==> Harmless(d.files, a)
  {
    if Harmless(d.files, a) {
      forall script ensures RollbacksUnnoticed(Finalize(World(d, script, Going), a, e).disk, a) {
        NothingAfterFinishing(d, a, e, script);
      }
    } else {
      var p := DisagreeingRecord(d.files, a);
      var script := FinalizeCanLeave(d, a, e, {p});
      NothingAfterFinishing(d, a, e, script);
    }
  }

  /** The same of an abort. */
  lemma AbortedSafeIff(d: Disk, a: Args, e: Env)
    requires Proper(e)
    ensures (forall script :: Abort(World(d, script, Going), a, e).status == Going ==>
               RollbacksUnnoticed(Abort(World(d, script, Going), a, e).disk, a))
            <==> Harmless(d.files, a)
  {
    if Harmless(d.files, a) {
      forall script ensures RollbacksUnnoticed(Abort(World(d, script, Going), a, e).disk, a) {
        NothingAfterAborting(d, a, e, script);
      }
    } else {
      var p := DisagreeingRecord(d.files, a);
      var script := AbortCanLeave(d, a, e, {p});
      NothingAfterAborting(d, a, e, script);
    }
  }

  /** After an undisturbed promotion that published anything new, some finalize that completes leaves a
      backup behind that a later rollback puts back, under a channel state that is already active. */
  lemma PublishedSafeIff(d: Disk, a: Args, e: Env, order: seq<Path>)
    requires Proper(e) && Promotable(d, a, order) && d.files[Ready(a.ch, a.gen)].Doc?
    ensures var promoted := PromoteMutable(World(d, [], Going), a, order).disk;
            (forall script :: Finalize(World(promoted, script, Going), a, e).status == Going ==>
               RollbacksUnnoticed(Finalize(World(promoted, script, Going), a, e).disk, a))
            <==> forall k :: k in Kinds(a) ==> UpToDate(d.files, a, k)
  {
    var w := World(d, [], Going);
    PromoteCompletes(d, a, order);
    PromoteOnlyTouches(w, a, order);
    assert Same(d.files, PromoteMutable(w, a, order).disk.files, Ready(a.ch, a.gen));
    PromoteLeavesHarmlessIff(d, a, order);
    FinishedSafeIff(PromoteMutable(w, a, order).disk, a, e);
  }

  // ----- runs without faults -----

  ghost predicate NoFaults(script: seq<Fate>) {
    forall i :: 0 <= i < |script| ==> script[i] == Go
  }

  ghost predicate Undisturbed(w: World) {
    w.status == Going && NoFaults(w.script)
  }

  lemma WipedClean(w: World, a: Args, e: Env)
    requires Proper(e) && Undisturbed(w)
    ensures var r := WipeTransaction(w, a, e);
            && Undisturbed(r) && r.disk.versions == w.disk.versions
            && (forall p :: p in r.disk.files <==> p in w.disk.files && !InTransaction(a.gen, p))
            && (forall p :: p in r.disk.files ==> r.disk.files[p] == w.disk.files[p])
  {
    var order := e.list(TransactionFiles(w.disk.files, a.gen));
    RemoveTreeAll(w, order);
    assert forall p :: p in order <==> p in Elems(order);
  }

  lemma StageWipedClean(w: World, a: Args, e: Env)
    requires Proper(e) && Undisturbed(w)
    ensures var r := WipeStage(w, a, e);
            && Undisturbed(r) && r.disk.versions == w.disk.versions
            && (forall p :: p in r.disk.files <==> p in w.disk.files && !InStage(a.stage, p))
            && (forall p :: p in r.disk.files ==> r.disk.files[p] == w.disk.files[p])
  {
    var order := e.list(StageFiles(w.disk.files, a.stage));
    RemoveTreeAll(w, order);
    assert forall p :: p in order <==> p in Elems(order);
  }

  /** The records of a generation and the files of its stage. */
  predicate OfPublication(a: Args, p: Path) {
    match p
    case Backup(gen, _, _) => gen == a.gen
    case Missing(gen, _, _) => gen == a.gen
    case PromotedMark(gen) => gen == a.gen
    case Payload(stage, _) => stage == a.stage
    case Deployment(stage) => stage == a.stage
    case Sums(stage) => stage == a.stage
    case _ => false
  }

  /** All of them are gone, and nothing else has changed except for what was written. */
  ghost predicate Cleared(d: Disk, d': Disk, a: Args, written: set<Path>) {
    && d'.versions == d.versions
    && forall p :: if OfPublication(a, p) then p !in d'.files else p in written || Same(d.files, d'.files, p)
  }

  /** A finalize without faults makes the ready manifest the channel's state, rewrites the health file,
      removes the records of the transaction and the staged payload, and changes nothing else; a rollback
      after it, whatever its faults, does nothing. */
  lemma CleanFinish(d: Disk, a: Args, e: Env, script: seq<Fate>, later: seq<Fate>)
    requires Proper(e) && MayFinish(d, a) && NoFaults(script)
    ensures var r := Finalize(World(d, script, Going), a, e);
            && r.status == Going
            && ChannelState(a.ch) in r.disk.files && r.disk.files[ChannelState(a.ch)] == ActiveState(d, a)
            && Health in r.disk.files
            && Cleared(d, r.disk, a, {ChannelState(a.ch), Health})
            && Rollback(World(r.disk, later, Going), a) == World(r.disk, later, Going)
  {
    FinishClears(d, a, e, script);
    FinalizeLeaves(World(d, script, Going), a, e);
    NothingToRollBack(World(Finalize(World(d, script, Going), a, e).disk, later, Going), a);
  }

  lemma FinishClears(d: Disk, a: Args, e: Env, script: seq<Fate>)
    requires Proper(e) && MayFinish(d, a) && NoFaults(script)
    ensures var r := Finalize(World(d, script, Going), a, e);
            && r.status == Going && Health in r.disk.files
            && Cleared(d, r.disk, a, {ChannelState(a.ch), Health})
  {
    var w := World(d, script, Going);
    var announced := Announced(w, a);
    var wiped := WipeTransaction(announced, a, e);
    var r := WipeStage(wiped, a, e);
    AnnouncedFrame(w, a);
    AnnouncedClean(w, a);
    WipedClean(announced, a, e);
    StageWipedClean(wiped, a, e);
    WipesClear(d, announced.disk, wiped.disk, r.disk, a, {ChannelState(a.ch), Health});
    assert Finalize(w, a, e) == r;
  }

  lemma AnnouncedClean(w: World, a: Args)
    requires Undisturbed(w) && MayFinish(w.disk, a)
    ensures Undisturbed(Announced(w, a)) && Health in Announced(w, a).disk.files && Announced(w, a).disk.versions == w.disk.versions
  {
  }

  lemma WipesClear(d: Disk, d1: Disk, d2: Disk, d3: Disk, a: Args, written: set<Path>)
    requires d1.versions == d2.versions == d3.versions == d.versions
    requires forall p :: p in written ==> !OfPublication(a, p)
    requires forall p :: p !in written ==> Same(d.files, d1.files, p)
    requires forall p :: p in d2.files <==> p in d1.files && !InTransaction(a.gen, p)
    requires forall p :: p in d2.files ==> d2.files[p] == d1.files[p]
    requires forall p :: p in d3.files <==> p in d2.files && !InStage(a.stage, p)
    requires forall p :: p in d3.files ==> d3.files[p] == d2.files[p]
    ensures Cleared(d, d3, a, written)
  {
    forall p ensures if OfPublication(a, p) then p !in d3.files else p in written || Same(d.files, d3.files, p) {
      assert OfPublication(a, p) <==> InTransaction(a.gen, p) || InStage(a.stage, p);
    }
  }

  /** An abort without faults removes the same files and changes nothing else; a rollback after it does
      nothing. */
  lemma CleanAbort(d: Disk, a: Args, e: Env, script: seq<Fate>, later: seq<Fate>)
    requires Proper(e) && NoFaults(script)
    ensures var r := Abort(World(d, script, Going), a, e);
            && r.status == Going
            && Cleared(d, r.disk, a, {})
            && Rollback(World(r.disk, later, Going), a) == World(r.disk, later, Going)
  {
    var w := World(d, script, Going);
    StageWipedClean(w, a, e);
    WipedClean(WipeStage(w, a, e), a, e);
    assert forall p :: OfPublication(a, p) <==> InTransaction(a.gen, p) || InStage(a.stage, p);
    NothingToRollBack(World(Abort(w, a, e).disk, later, Going), a);
  }
}
