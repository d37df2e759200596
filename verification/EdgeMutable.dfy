/** Replacing the "latest" files of a channel, and rolling back. */
module EdgeMutable {
  import opened Seqs
  import opened EdgeDisk

  datatype Args = Args(ch: Channel, appTag: Tag, driverTag: Tag, gen: Generation, stage: Stage)

  function LatestRelative(ch: Channel, kind: Kind): Parts {
    match (ch, kind)
    case (Stable, App) => ["gonavi", "releases", "latest", "latest.json"]
    case (Stable, Driver) => ["drivers", "releases", "latest", "GoNavi-DriverAgents-Index.json"]
    case (Dev, App) => ["gonavi", "dev", "releases", "latest", "latest-dev.json"]
    case (Dev, Driver) => ["drivers", "dev", "releases", "latest", "GoNavi-DriverAgents-Index.json"]
  }

  function Kinds(a: Args): (r: seq<Kind>)
    ensures NoDup(r) && App in r
    ensures Driver in r <==> a.driverTag != ""
  {
    if a.driverTag == "" then [App] else [App, Driver]
  }

  function Source(a: Args, k: Kind): Path {
    Payload(a.stage, LatestRelative(a.ch, k))
  }

  function Destination(a: Args, k: Kind): Path {
    Latest(a.ch, k)
  }

  function Refuse(w: World): World {
    if w.status == Going then w.(status := Status.Refused) else w
  }

  // ----- the phases -----

  function RestoreOne(w: World, a: Args, k: Kind): World {
    if Backup(a.gen, a.ch, k) in w.disk.files then
      Do(Do(w, Copy(Backup(a.gen, a.ch, k), LatestRollback(a.ch, k))), Replace(LatestRollback(a.ch, k), Destination(a, k)))
    else if Missing(a.gen, a.ch, k) in w.disk.files && Destination(a, k) in w.disk.files then
      Do(w, Unlink(Destination(a, k)))
    else w
  }

  function RestoreEach(w: World, a: Args, ks: seq<Kind>): World
    decreases |ks|
  {
    if ks == [] then w else RestoreEach(RestoreOne(w, a, ks[0]), a, ks[1..])
  }

  function Restore(w: World, a: Args): World {
    var r := RestoreEach(w, a, Kinds(a));
    if PromotedMark(a.gen) in r.disk.files then Do(r, Unlink(PromotedMark(a.gen))) else r
  }

  function BackupOne(w: World, a: Args, k: Kind): World {
    if Source(a, k) !in w.disk.files then Refuse(w)
    else if Destination(a, k) in w.disk.files then Do(w, Copy(Destination(a, k), Backup(a.gen, a.ch, k)))
    else Do(w, Write(Missing(a.gen, a.ch, k), Empty))
  }

  function BackupEach(w: World, a: Args, ks: seq<Kind>): World
    decreases |ks|
  {
    if ks == [] then w else BackupEach(BackupOne(w, a, ks[0]), a, ks[1..])
  }

  function ReplaceOne(w: World, a: Args, k: Kind): World {
    Do(Do(w, Copy(Source(a, k), LatestTemp(a.ch, k))), Replace(LatestTemp(a.ch, k), Destination(a, k)))
  }

  function ReplaceEach(w: World, a: Args, ks: seq<Kind>): World
    decreases |ks|
  {
    if ks == [] then w else ReplaceEach(ReplaceOne(w, a, ks[0]), a, ks[1..])
  }

  /** An operating system error while replacing is answered by a rollback and passed on. */
  function OrElseRestore(w: World, a: Args): World {
    if w.status != Failed then w
    else
      var r := Restore(w.(status := Going), a);
      if r.status == Going then r.(status := Failed) else r
  }

  function PromoteMutable(w: World, a: Args, order: seq<Path>): World {
    if Ready(a.ch, a.gen) !in w.disk.files then Refuse(w)
    else
      var saved := BackupEach(RemoveTree(w, order), a, Kinds(a));
      if saved.status != Going then saved
      else Do(OrElseRestore(ReplaceEach(saved, a, Kinds(a)), a), Write(PromotedMark(a.gen), Empty))
  }

  // ----- what can be given back -----
  //
  // A promotion may stop anywhere. What a rollback then gives back is read off the backups and absence
  // marks that are there at that moment, so the predicates below say what each of them promises. Older
  // backups of the same generation are the one source of trouble: they are removed one by one, and a
  // promotion that stops before they are all gone leaves them to speak for destinations that have
  // changed since.

  ghost predicate Same(f: map<Path, Content>, g: map<Path, Content>, p: Path) {
    (p in f <==> p in g) && (p in f ==> f[p] == g[p])
  }

  /** From `now`, a rollback would give destination `k` what it had in `before`. */
  ghost predicate CanGiveBack(before: map<Path, Content>, now: map<Path, Content>, a: Args, k: Kind) {
    var d, b := Destination(a, k), Backup(a.gen, a.ch, k);
    if b in now then d in before && before[d] == now[b]
    else if Missing(a.gen, a.ch, k) in now then d !in before
    else Same(before, now, d)
  }

  ghost predicate Recoverable(before: map<Path, Content>, now: map<Path, Content>, a: Args) {
    forall k :: k in Kinds(a) ==> CanGiveBack(before, now, a, k)
  }

  /** What an earlier run of this generation left behind agrees with what the destinations hold. */
  ghost predicate Harmless(f: map<Path, Content>, a: Args) {
    forall k :: k in Kinds(a) ==> HarmlessAt(f, a, k)
  }

  ghost predicate HarmlessAt(f: map<Path, Content>, a: Args, k: Kind) {
    && (Backup(a.gen, a.ch, k) in f ==>
          Destination(a, k) in f && f[Destination(a, k)] == f[Backup(a.gen, a.ch, k)])
    && (Missing(a.gen, a.ch, k) in f ==> Destination(a, k) !in f)
  }

  /** Paths that promotion and rollback of one generation on one channel may write. */
  predicate Touchable(a: Args, p: Path) {
    || InTransaction(a.gen, p)
    || ((p.Latest? || p.LatestTemp? || p.LatestRollback?) && p.ch == a.ch && p.kind in Kinds(a))
  }

  ghost predicate OnlyTouches(f: map<Path, Content>, g: map<Path, Content>, a: Args) {
    forall p :: !Touchable(a, p) ==> Same(f, g, p)
  }

  // ----- restoring -----

  lemma RestoreOneSame(w: World, a: Args, k: Kind, p: Path)
    requires p != Destination(a, k) && p != LatestRollback(a.ch, k)
    ensures Same(w.disk.files, RestoreOne(w, a, k).disk.files, p)
  {
  }

  /** What one restore step leaves alone, however it ends. */
  lemma RestoreOneFrame(w: World, a: Args, k: Kind)
    requires k in Kinds(a)
    ensures var r := RestoreOne(w, a, k);
            && r.disk.versions == w.disk.versions
            && OnlyTouches(w.disk.files, r.disk.files, a)
            && (forall p :: InTransaction(a.gen, p) ==> Same(w.disk.files, r.disk.files, p))
            && (forall j :: j != k ==> Same(w.disk.files, r.disk.files, Destination(a, j)))
  {
    forall p | p != Destination(a, k) && p != LatestRollback(a.ch, k)
      ensures Same(w.disk.files, RestoreOne(w, a, k).disk.files, p)
    {
      RestoreOneSame(w, a, k, p);
    }
  }

  lemma RestoreOneGivesBack(before: map<Path, Content>, w: World, a: Args, k: Kind)
    requires CanGiveBack(before, w.disk.files, a, k)
    ensures var r := RestoreOne(w, a, k);
            && CanGiveBack(before, r.disk.files, a, k)
            && (r.status == Going ==> Same(before, r.disk.files, Destination(a, k)))
  {
  }

  lemma RestoreOneKeeps(before: map<Path, Content>, w: World, a: Args, k: Kind, j: Kind)
    requires k in Kinds(a) && CanGiveBack(before, w.disk.files, a, j)
    ensures CanGiveBack(before, RestoreOne(w, a, k).disk.files, a, j)
  {
    RestoreOneFrame(w, a, k);
    if j == k {
      RestoreOneGivesBack(before, w, a, k);
    } else {
      assert Same(w.disk.files, RestoreOne(w, a, k).disk.files, Backup(a.gen, a.ch, j));
      assert Same(w.disk.files, RestoreOne(w, a, k).disk.files, Missing(a.gen, a.ch, j));
      assert Same(w.disk.files, RestoreOne(w, a, k).disk.files, Destination(a, j));
    }
  }

  lemma {:induction false} RestoreEachGivesBack(before: map<Path, Content>, w: World, a: Args, ks: seq<Kind>)
    requires NoDup(ks) && forall k :: k in ks ==> k in Kinds(a)
    requires Recoverable(before, w.disk.files, a)
    ensures var r := RestoreEach(w, a, ks);
            && Recoverable(before, r.disk.files, a)
            && OnlyTouches(w.disk.files, r.disk.files, a)
            && r.disk.versions == w.disk.versions
            && (forall k :: k !in ks ==> Same(w.disk.files, r.disk.files, Destination(a, k)))
            && (r.status == Going ==> forall k :: k in ks ==> Same(before, r.disk.files, Destination(a, k)))
    decreases |ks|
  {
    if ks != [] {
      var one := RestoreOne(w, a, ks[0]);
      RestoreOneFrame(w, a, ks[0]);
      forall k | k in Kinds(a) ensures CanGiveBack(before, one.disk.files, a, k) {
        RestoreOneKeeps(before, w, a, ks[0], k);
      }
      RestoreOneGivesBack(before, w, a, ks[0]);
      assert ks == [ks[0]] + ks[1..];
      NoDupParts([ks[0]], ks[1..]);
      RestoreEachGivesBack(before, one, a, ks[1..]);
      if RestoreEach(one, a, ks[1..]).status == Going {
        RestoreEachStopped(one, a, ks[1..]);
      }
    }
  }

  lemma {:induction false} RestoreEachStopped(w: World, a: Args, ks: seq<Kind>)
    ensures w.status != Going ==> RestoreEach(w, a, ks) == w
    decreases |ks|
  {
    if ks != [] {
      RestoreEachStopped(RestoreOne(w, a, ks[0]), a, ks[1..]);
    }
  }

  /** A rollback, stopped or not, leaves everything recoverable; one that finishes has given
      everything back and withdrawn the promotion mark. */
  lemma RestoreGivesBack(before: map<Path, Content>, w: World, a: Args)
    requires Recoverable(before, w.disk.files, a)
    ensures var r := Restore(w, a);
            && Recoverable(before, r.disk.files, a)
            && OnlyTouches(w.disk.files, r.disk.files, a)
            && r.disk.versions == w.disk.versions
            && (r.status == Going ==>
                  && PromotedMark(a.gen) !in r.disk.files
                  && forall k :: k in Kinds(a) ==> Same(before, r.disk.files, Destination(a, k)))
  {
    RestoreEachGivesBack(before, w, a, Kinds(a));
  }

  // ----- promoting -----

  ghost predicate Untouched(before: map<Path, Content>, now: map<Path, Content>, a: Args) {
    forall k :: k in Kinds(a) ==> Same(before, now, Destination(a, k))
  }

  ghost predicate Covered(now: map<Path, Content>, a: Args, k: Kind) {
    Backup(a.gen, a.ch, k) in now || Missing(a.gen, a.ch, k) in now
  }

  lemma BackupOneKeeps(before: map<Path, Content>, w: World, a: Args, k: Kind)
    requires k in Kinds(a) && Recoverable(before, w.disk.files, a) && Untouched(before, w.disk.files, a)
    ensures var r := BackupOne(w, a, k);
            && Recoverable(before, r.disk.files, a) && Untouched(before, r.disk.files, a)
            && OnlyTouches(w.disk.files, r.disk.files, a)
            && r.disk.versions == w.disk.versions
            && (r.status == Going ==> Covered(r.disk.files, a, k))
            && (forall j :: Covered(w.disk.files, a, j) ==> Covered(r.disk.files, a, j))
  {
    var f, r := w.disk.files, BackupOne(w, a, k).disk.files;
    forall j | j in Kinds(a) ensures CanGiveBack(before, r, a, j) {
      assert CanGiveBack(before, f, a, j) && Same(before, f, Destination(a, j));
      assert Same(f, r, Destination(a, j));
      if j != k {
        assert Same(f, r, Backup(a.gen, a.ch, j)) && Same(f, r, Missing(a.gen, a.ch, j));
      }
    }
  }

  lemma {:induction false} BackupEachKeeps(before: map<Path, Content>, w: World, a: Args, ks: seq<Kind>)
    requires forall k :: k in ks ==> k in Kinds(a)
    requires Recoverable(before, w.disk.files, a) && Untouched(before, w.disk.files, a)
    ensures var r := BackupEach(w, a, ks);
            && Recoverable(before, r.disk.files, a) && Untouched(before, r.disk.files, a)
            && OnlyTouches(w.disk.files, r.disk.files, a)
            && r.disk.versions == w.disk.versions
            && (r.status == Going ==> forall k :: k in ks ==> Covered(r.disk.files, a, k))
            && (forall j :: Covered(w.disk.files, a, j) ==> Covered(r.disk.files, a, j))
            && (w.status != Going ==> r == w)
    decreases |ks|
  {
    if ks != [] {
      BackupOneKeeps(before, w, a, ks[0]);
      BackupEachKeeps(before, BackupOne(w, a, ks[0]), a, ks[1..]);
    }
  }

  lemma ReplaceOneKeeps(before: map<Path, Content>, w: World, a: Args, k: Kind)
    requires k in Kinds(a) && Recoverable(before, w.disk.files, a)
    requires forall j :: j in Kinds(a) ==> Covered(w.disk.files, a, j)
    ensures var r := ReplaceOne(w, a, k);
            && Recoverable(before, r.disk.files, a)
            && (forall j :: j in Kinds(a) ==> Covered(r.disk.files, a, j))
            && OnlyTouches(w.disk.files, r.disk.files, a)
            && r.disk.versions == w.disk.versions
  {
    var f, r := w.disk.files, ReplaceOne(w, a, k).disk.files;
    forall j | j in Kinds(a) ensures CanGiveBack(before, r, a, j) && Covered(r, a, j) {
      assert CanGiveBack(before, f, a, j);
      assert Same(f, r, Backup(a.gen, a.ch, j)) && Same(f, r, Missing(a.gen, a.ch, j));
    }
  }

  lemma {:induction false} ReplaceEachKeeps(before: map<Path, Content>, w: World, a: Args, ks: seq<Kind>)
    requires forall k :: k in ks ==> k in Kinds(a)
    requires Recoverable(before, w.disk.files, a)
    requires forall j :: j in Kinds(a) ==> Covered(w.disk.files, a, j)
    ensures var r := ReplaceEach(w, a, ks);
            && Recoverable(before, r.disk.files, a)
            && OnlyTouches(w.disk.files, r.disk.files, a)
            && r.disk.versions == w.disk.versions
    decreases |ks|
  {
    if ks != [] {
      ReplaceOneKeeps(before, w, a, ks[0]);
      ReplaceEachKeeps(before, ReplaceOne(w, a, ks[0]), a, ks[1..]);
    }
  }

  lemma MarkKeeps(before: map<Path, Content>, w: World, a: Args)
    requires Recoverable(before, w.disk.files, a)
    ensures var r := Do(w, Write(PromotedMark(a.gen), Empty));
            Recoverable(before, r.disk.files, a) && OnlyTouches(w.disk.files, r.disk.files, a)
  {
    var r := Do(w, Write(PromotedMark(a.gen), Empty)).disk.files;
    forall k | k in Kinds(a) ensures CanGiveBack(before, r, a, k) {
      assert CanGiveBack(before, w.disk.files, a, k);
    }
  }

  lemma OrElseRestoreKeeps(before: map<Path, Content>, w: World, a: Args)
    requires Recoverable(before, w.disk.files, a)
    ensures var r := OrElseRestore(w, a);
            && Recoverable(before, r.disk.files, a)
            && OnlyTouches(w.disk.files, r.disk.files, a)
            && r.disk.versions == w.disk.versions
  {
    if w.status == Failed {
      RestoreGivesBack(before, w.(status := Going), a);
    }
  }

  /** Wherever a promotion stops after the old backups are out of the way, a rollback from there
      gives back what stood before it. */
  lemma PromoteKeepsRecoverable(before: map<Path, Content>, w: World, a: Args, order: seq<Path>)
    requires var wiped := RemoveTree(w, order).disk.files;
             Recoverable(before, wiped, a) && Untouched(before, wiped, a)
    requires Ready(a.ch, a.gen) in w.disk.files || Recoverable(before, w.disk.files, a)
    ensures Recoverable(before, PromoteMutable(w, a, order).disk.files, a)
  {
    if Ready(a.ch, a.gen) in w.disk.files {
      var wiped := RemoveTree(w, order);
      BackupEachKeeps(before, wiped, a, Kinds(a));
      var saved := BackupEach(wiped, a, Kinds(a));
      if saved.status == Going {
        ReplaceEachKeeps(before, saved, a, Kinds(a));
        var replaced := ReplaceEach(saved, a, Kinds(a));
        OrElseRestoreKeeps(before, replaced, a);
        MarkKeeps(before, OrElseRestore(replaced, a), a);
      }
    }
  }

  // ----- when a rollback is exact -----

  /** Rollbacks under one script after the other, each wherever the one before stopped. */
  function Rollbacks(d: Disk, a: Args, scripts: seq<seq<Fate>>): Disk
    decreases |scripts|
  {
    if scripts == [] then d else Rollbacks(Restore(World(d, scripts[0], Going), a).disk, a, scripts[1..])
  }

  /** A promotion under `script`, any number of disturbed rollbacks, then one that is not disturbed. */
  function PromoteThenRollback(d: Disk, a: Args, order: seq<Path>, script: seq<Fate>, retries: seq<seq<Fate>>): Disk {
    var promoted := PromoteMutable(World(d, script, Going), a, order).disk;
    Restore(World(Rollbacks(promoted, a, retries), [], Going), a).disk
  }

  ghost predicate GivesBack(d: Disk, a: Args, order: seq<Path>, script: seq<Fate>, retries: seq<seq<Fate>>) {
    Untouched(d.files, PromoteThenRollback(d, a, order, script, retries).files, a)
  }

  ghost predicate WipesTransaction(order: seq<Path>, d: Disk, a: Args) {
    NoDup(order) && forall p :: p in order <==> p in d.files && InTransaction(a.gen, p)
  }

  lemma HarmlessRecoverable(f: map<Path, Content>, g: map<Path, Content>, a: Args)
    requires Harmless(f, a) && Untouched(f, g, a)
    requires forall p :: p in g && InTransaction(a.gen, p) ==> p in f && f[p] == g[p]
    ensures Recoverable(f, g, a)
  {
    forall k | k in Kinds(a) ensures CanGiveBack(f, g, a, k) {
      assert HarmlessAt(f, a, k) && Same(f, g, Destination(a, k));
    }
  }

  lemma WipeUntouched(d: Disk, a: Args, order: seq<Path>, script: seq<Fate>)
    requires WipesTransaction(order, d, a)
    ensures Untouched(d.files, RemoveTree(World(d, script, Going), order).disk.files, a)
  {
    RemoveTreeSubset(World(d, script, Going), order);
  }

  lemma RestoreOneUndisturbed(w: World, a: Args, k: Kind)
    requires w.status == Going && w.script == []
    ensures RestoreOne(w, a, k).status == Going && RestoreOne(w, a, k).script == []
  {
  }

  lemma {:induction false} RestoreUndisturbed(w: World, a: Args, ks: seq<Kind>)
    requires w.status == Going && w.script == []
    ensures RestoreEach(w, a, ks).status == Going && RestoreEach(w, a, ks).script == []
    decreases |ks|
  {
    if ks != [] {
      RestoreOneUndisturbed(w, a, ks[0]);
      RestoreUndisturbed(RestoreOne(w, a, ks[0]), a, ks[1..]);
    }
  }

  lemma {:induction false} RollbacksKeep(before: map<Path, Content>, d: Disk, a: Args, scripts: seq<seq<Fate>>)
    requires Recoverable(before, d.files, a)
    ensures Recoverable(before, Rollbacks(d, a, scripts).files, a)
    decreases |scripts|
  {
    if scripts != [] {
      RestoreGivesBack(before, World(d, scripts[0], Going), a);
      RollbacksKeep(before, Restore(World(d, scripts[0], Going), a).disk, a, scripts[1..]);
    }
  }

  /** From a recoverable disk, rollbacks end in what stood before. */
  lemma RollbacksGiveBack(before: map<Path, Content>, d: Disk, a: Args, retries: seq<seq<Fate>>)
    requires Recoverable(before, d.files, a)
    ensures Untouched(before, Restore(World(Rollbacks(d, a, retries), [], Going), a).disk.files, a)
  {
    RollbacksKeep(before, d, a, retries);
    var w := World(Rollbacks(d, a, retries), [], Going);
    RestoreGivesBack(before, w, a);
    RestoreUndisturbed(w, a, Kinds(a));
  }

  lemma HarmlessGivesBack(d: Disk, a: Args, order: seq<Path>, script: seq<Fate>, retries: seq<seq<Fate>>)
    requires Harmless(d.files, a) && WipesTransaction(order, d, a)
    ensures GivesBack(d, a, order, script, retries)
  {
    var w := World(d, script, Going);
    WipeUntouched(d, a, order, script);
    RemoveTreeSubset(w, order);
    HarmlessRecoverable(d.files, RemoveTree(w, order).disk.files, a);
    HarmlessRecoverable(d.files, d.files, a);
    PromoteKeepsRecoverable(d.files, w, a, order);
    RollbacksGiveBack(d.files, PromoteMutable(w, a, order).disk, a, retries);
  }

  /** Whatever older runs left: once the wipe of their backups has gone through, the rollback is
      exact, wherever the promotion stops after it. */
  lemma WipedGivesBack(d: Disk, a: Args, order: seq<Path>, script: seq<Fate>, retries: seq<seq<Fate>>)
    requires Ready(a.ch, a.gen) in d.files && WipesTransaction(order, d, a)
    requires forall i :: 0 <= i < |script| && i < |order| ==> script[i] == Go
    ensures GivesBack(d, a, order, script, retries)
  {
    var w := World(d, script, Going);
    WipeUntouched(d, a, order, script);
    RemoveTreeAll(w, order);
    PromoteKeepsRecoverable(d.files, w, a, order);
    RollbacksGiveBack(d.files, PromoteMutable(w, a, order).disk, a, retries);
  }

  // ----- when it is not -----

  /** What a rollback makes of one destination. */
  function Given(f: map<Path, Content>, a: Args, k: Kind): map<Path, Content> {
    if Backup(a.gen, a.ch, k) in f then f[Destination(a, k) := f[Backup(a.gen, a.ch, k)]]
    else if Missing(a.gen, a.ch, k) in f then f - {Destination(a, k)}
    else f
  }

  lemma RollbackGivesGiven(d: Disk, a: Args, k: Kind)
    requires k in Kinds(a)
    ensures Same(Given(d.files, a, k), Restore(World(d, [], Going), a).disk.files, Destination(a, k))
  {
    var before := Given(Given(d.files, a, App), a, Driver);
    assert Recoverable(before, d.files, a);
    RollbacksGiveBack(before, d, a, []);
  }

  /** The promotion that is stopped before its first step. */
  lemma StoppedAtOnce(d: Disk, a: Args, order: seq<Path>)
    requires order != [] && Ready(a.ch, a.gen) in d.files
    ensures PromoteMutable(World(d, [Crash], Going), a, order).disk == d
  {
    var w := World(d, [Crash], Going);
    assert RemoveTree(w, order) == RemoveTree(World(d, [], Crashed), order[1..]);
    RemoveTreeSubset(World(d, [], Crashed), order[1..]);
    BackupEachStopped(World(d, [], Crashed), a, Kinds(a));
  }

  lemma {:induction false} BackupEachStopped(w: World, a: Args, ks: seq<Kind>)
    requires w.status != Going
    ensures BackupEach(w, a, ks) == w
    decreases |ks|
  {
    if ks != [] {
      BackupEachStopped(BackupOne(w, a, ks[0]), a, ks[1..]);
    }
  }

  /** The promotion that is stopped after its first step. */
  lemma StoppedAfterOne(d: Disk, a: Args, order: seq<Path>)
    requires |order| >= 2 && order[0] in d.files && Ready(a.ch, a.gen) in d.files
    ensures PromoteMutable(World(d, [Go, Crash], Going), a, order).disk == Apply(d, Unlink(order[0]))
  {
    var w := World(d, [Go, Crash], Going);
    var one := World(Apply(d, Unlink(order[0])), [Crash], Going);
    var two := World(Apply(d, Unlink(order[0])), [], Crashed);
    assert RemoveTree(w, order) == RemoveTree(one, order[1..]);
    assert RemoveTree(one, order[1..]) == RemoveTree(two, order[1..][1..]);
    RemoveTreeSubset(two, order[1..][1..]);
    BackupEachStopped(two, a, Kinds(a));
  }

  lemma {:induction false} SomeOrder(s: set<Path>) returns (order: seq<Path>)
    ensures NoDup(order) && forall p :: p in order <==> p in s
    decreases s
  {
    if s == {} {
      order := [];
    } else {
      var p :| p in s;
      var rest := SomeOrder(s - {p});
      order := rest + [p];
      NoDupSnoc(rest, p);
    }
  }

  lemma OrderFrom(d: Disk, a: Args, first: Path) returns (order: seq<Path>)
    requires first in d.files && InTransaction(a.gen, first)
    ensures WipesTransaction(order, d, a) && order[0] == first
  {
    var inside := set p | p in d.files && InTransaction(a.gen, p);
    var rest := SomeOrder(inside - {first});
    order := [first] + rest;
    NoDupConcat([first], rest);
  }

  /** A disagreeing leftover defeats the rollback of some stopped promotion. */
  lemma HarmDefeats(d: Disk, a: Args, k: Kind) returns (order: seq<Path>, script: seq<Fate>)
    requires Ready(a.ch, a.gen) in d.files && k in Kinds(a) && !HarmlessAt(d.files, a, k)
    ensures WipesTransaction(order, d, a) && !GivesBack(d, a, order, script, [])
  {
    var dest, b, m := Destination(a, k), Backup(a.gen, a.ch, k), Missing(a.gen, a.ch, k);
    if b in d.files && m in d.files && dest in d.files && d.files[b] == d.files[dest] {
      order := OrderFrom(d, a, b);
      script := [Go, Crash];
      assert m in order && m != b;
      StoppedAfterOne(d, a, order);
      RollbackGivesGiven(Apply(d, Unlink(b)), a, k);
    } else {
      order := OrderFrom(d, a, if b in d.files then b else m);
      script := [Crash];
      StoppedAtOnce(d, a, order);
      RollbackGivesGiven(d, a, k);
    }
  }

  /** For every point where the promotion may stop and every way its faults may fall, a rollback
      gives each destination back what it held, if and only if no leftover backup or absence mark of
      the same generation disagrees with what the destinations hold. */
  lemma RollbackExactIff(d: Disk, a: Args)
    requires Ready(a.ch, a.gen) in d.files
    ensures (forall order, script, retries :: WipesTransaction(order, d, a) ==> GivesBack(d, a, order, script, retries))
            <==> Harmless(d.files, a)
  {
    if Harmless(d.files, a) {
      forall order, script, retries | WipesTransaction(order, d, a) ensures GivesBack(d, a, order, script, retries) {
        HarmlessGivesBack(d, a, order, script, retries);
      }
    } else {
      var k :| k in Kinds(a) && !HarmlessAt(d.files, a, k);
      var order, script := HarmDefeats(d, a, k);
    }
  }

  // ----- what a whole run leaves -----

  lemma PromoteOnlyTouches(w: World, a: Args, order: seq<Path>)
    requires WipesTransaction(order, w.disk, a)
    ensures var r := PromoteMutable(w, a, order);
            OnlyTouches(w.disk.files, r.disk.files, a) && r.disk.versions == w.disk.versions
  {
    var wiped := RemoveTree(w, order);
    var saved := BackupEach(wiped, a, Kinds(a));
    var replaced := ReplaceEach(saved, a, Kinds(a));
    WipeFrame(w, a, order);
    BackupEachFrame(wiped, a, Kinds(a));
    ReplaceEachFrame(saved, a, Kinds(a));
    RestoreFrame(replaced.(status := Going), a);
    MarkFrame(OrElseRestore(replaced, a), a);
  }

  lemma WipeFrame(w: World, a: Args, order: seq<Path>)
    requires WipesTransaction(order, w.disk, a)
    ensures OnlyTouches(w.disk.files, RemoveTree(w, order).disk.files, a)
    ensures RemoveTree(w, order).disk.versions == w.disk.versions
  {
    RemoveTreeSubset(w, order);
  }

  lemma RestoreFrame(w: World, a: Args)
    ensures OnlyTouches(w.disk.files, Restore(w, a).disk.files, a)
    ensures Restore(w, a).disk.versions == w.disk.versions
  {
    RestoreEachFrame(w, a, Kinds(a));
  }

  lemma MarkFrame(w: World, a: Args)
    ensures var r := Do(w, Write(PromotedMark(a.gen), Empty));
            OnlyTouches(w.disk.files, r.disk.files, a) && r.disk.versions == w.disk.versions
  {
  }

  lemma {:induction false} BackupEachFrame(w: World, a: Args, ks: seq<Kind>)
    requires forall k :: k in ks ==> k in Kinds(a)
    ensures OnlyTouches(w.disk.files, BackupEach(w, a, ks).disk.files, a)
    ensures BackupEach(w, a, ks).disk.versions == w.disk.versions
    decreases |ks|
  {
    if ks != [] {
      BackupEachFrame(BackupOne(w, a, ks[0]), a, ks[1..]);
    }
  }

  lemma {:induction false} ReplaceEachFrame(w: World, a: Args, ks: seq<Kind>)
    requires forall k :: k in ks ==> k in Kinds(a)
    ensures OnlyTouches(w.disk.files, ReplaceEach(w, a, ks).disk.files, a)
    ensures ReplaceEach(w, a, ks).disk.versions == w.disk.versions
    ensures w.status != Going ==> ReplaceEach(w, a, ks) == w
    decreases |ks|
  {
    if ks != [] {
      ReplaceEachFrame(ReplaceOne(w, a, ks[0]), a, ks[1..]);
    }
  }

  lemma {:induction false} RestoreEachFrame(w: World, a: Args, ks: seq<Kind>)
    requires forall k :: k in ks ==> k in Kinds(a)
    ensures OnlyTouches(w.disk.files, RestoreEach(w, a, ks).disk.files, a)
    ensures RestoreEach(w, a, ks).disk.versions == w.disk.versions
    decreases |ks|
  {
    if ks != [] {
      RestoreOneFrame(w, a, ks[0]);
      RestoreEachFrame(RestoreOne(w, a, ks[0]), a, ks[1..]);
    }
  }

  ghost predicate Published(before: map<Path, Content>, now: map<Path, Content>, a: Args, k: Kind) {
    Source(a, k) in before && Destination(a, k) in now && now[Destination(a, k)] == before[Source(a, k)]
  }

  lemma {:induction false} ReplaceEachPublishes(w: World, a: Args, ks: seq<Kind>)
    requires NoDup(ks) && ReplaceEach(w, a, ks).status == Going
    ensures var f := ReplaceEach(w, a, ks).disk.files;
            && (forall k :: k in ks ==> Published(w.disk.files, f, a, k))
            && (forall k :: k !in ks ==> Same(w.disk.files, f, Destination(a, k)))
    ensures w.status == Going
    decreases |ks|
  {
    if ks != [] {
      var one := ReplaceOne(w, a, ks[0]);
      assert ks == [ks[0]] + ks[1..];
      NoDupParts([ks[0]], ks[1..]);
      ReplaceEachPublishes(one, a, ks[1..]);
      assert Published(w.disk.files, one.disk.files, a, ks[0]);
      forall k | k in ks[1..] ensures Published(w.disk.files, ReplaceEach(w, a, ks).disk.files, a, k) {
        assert Published(one.disk.files, ReplaceEach(w, a, ks).disk.files, a, k);
      }
    }
  }

  /** A promotion that completes has published the staged file of every kind it was asked for. */
  lemma PromotePublishes(w: World, a: Args, order: seq<Path>)
    requires WipesTransaction(order, w.disk, a) && PromoteMutable(w, a, order).status == Going
    ensures forall k :: k in Kinds(a) ==> Published(w.disk.files, PromoteMutable(w, a, order).disk.files, a, k)
    ensures PromotedMark(a.gen) in PromoteMutable(w, a, order).disk.files
  {
    WipeFrame(w, a, order);
    var wiped := RemoveTree(w, order);
    BackupEachFrame(wiped, a, Kinds(a));
    var saved := BackupEach(wiped, a, Kinds(a));
    var replaced := ReplaceEach(saved, a, Kinds(a));
    ReplaceEachFrame(saved, a, Kinds(a));
    ReplaceEachPublishes(saved, a, Kinds(a));
    forall k | k in Kinds(a) ensures Published(w.disk.files, PromoteMutable(w, a, order).disk.files, a, k) {
      SourceKept(w.disk.files, saved.disk.files, a, k);
      assert Published(saved.disk.files, replaced.disk.files, a, k);
    }
  }

  lemma SourceKept(f: map<Path, Content>, g: map<Path, Content>, a: Args, k: Kind)
    requires OnlyTouches(f, g, a)
    ensures Same(f, g, Source(a, k))
  {
  }

  // ----- rolling back twice -----

  /** A rollback has nothing left to do for `k`. */
  ghost predicate Settled(f: map<Path, Content>, a: Args, k: Kind) {
    var d, b := Destination(a, k), Backup(a.gen, a.ch, k);
    if b in f then LatestRollback(a.ch, k) !in f && d in f && f[d] == f[b]
    else Missing(a.gen, a.ch, k) in f ==> d !in f
  }

  lemma RestoreOneSettled(w: World, a: Args, k: Kind)
    requires w.status == Going && w.script == [] && Settled(w.disk.files, a, k)
    ensures RestoreOne(w, a, k) == w
  {
    var f, d, b, t := w.disk.files, Destination(a, k), Backup(a.gen, a.ch, k), LatestRollback(a.ch, k);
    if b in f {
      assert (f[t := f[b]] - {t})[d := f[b]] == f;
    }
  }

  lemma RestoreOneSettles(w: World, a: Args, k: Kind, j: Kind)
    requires w.status == Going && w.script == []
    requires j == k || Settled(w.disk.files, a, j)
    ensures Settled(RestoreOne(w, a, k).disk.files, a, j)
  {
  }

  lemma {:induction false} RestoreEachSettles(w: World, a: Args, ks: seq<Kind>)
    requires w.status == Going && w.script == []
    ensures forall k :: k in ks || Settled(w.disk.files, a, k) ==> Settled(RestoreEach(w, a, ks).disk.files, a, k)
    decreases |ks|
  {
    if ks != [] {
      var one := RestoreOne(w, a, ks[0]);
      RestoreOneUndisturbed(w, a, ks[0]);
      RestoreEachSettles(one, a, ks[1..]);
      forall k | k in ks || Settled(w.disk.files, a, k) ensures k in ks[1..] || Settled(one.disk.files, a, k) {
        if k !in ks[1..] {
          RestoreOneSettles(w, a, ks[0], k);
        }
      }
    }
  }

  lemma {:induction false} RestoreEachSettled(w: World, a: Args, ks: seq<Kind>)
    requires w.status == Going && w.script == [] && forall k :: k in ks ==> Settled(w.disk.files, a, k)
    ensures RestoreEach(w, a, ks) == w
    decreases |ks|
  {
    if ks != [] {
      RestoreOneSettled(w, a, ks[0]);
      RestoreEachSettled(w, a, ks[1..]);
    }
  }

  /** Rolling back again changes nothing. */
  lemma RollbackIdempotent(d: Disk, a: Args)
    ensures var once := Restore(World(d, [], Going), a);
            && once.status == Going
            && PromotedMark(a.gen) !in once.disk.files
            && Restore(World(once.disk, [], Going), a) == once
  {
    var w := World(d, [], Going);
    var once := Restore(w, a);
    RestoreUndisturbed(w, a, Kinds(a));
    RestoreEachSettles(w, a, Kinds(a));
    forall k | k in Kinds(a) ensures Settled(once.disk.files, a, k) {
      assert Settled(RestoreEach(w, a, Kinds(a)).disk.files, a, k);
    }
    RestoreEachSettled(World(once.disk, [], Going), a, Kinds(a));
  }

  /** Without files of its generation a rollback does nothing at all. */
  lemma NothingToRollBack(w: World, a: Args)
    requires forall p :: p in w.disk.files ==> !InTransaction(a.gen, p)
    ensures Restore(w, a) == w
  {
    NothingToRestore(w, a, Kinds(a));
  }

  lemma {:induction false} NothingToRestore(w: World, a: Args, ks: seq<Kind>)
    requires forall p :: p in w.disk.files ==> !InTransaction(a.gen, p)
    ensures RestoreEach(w, a, ks) == w
    decreases |ks|
  {
    if ks != [] {
      NothingToRestore(w, a, ks[1..]);
    }
  }

  // ----- how a disk comes to disagree with its leftovers -----

  /** `g` holds, for destination `k`, a backup of what it had in `f`, or the mark of its absence. */
  ghost predicate BackedUp(f: map<Path, Content>, g: map<Path, Content>, a: Args, k: Kind) {
    var d, b, m := Destination(a, k), Backup(a.gen, a.ch, k), Missing(a.gen, a.ch, k);
    if d in f then b in g && g[b] == f[d] && m !in g else m in g && b !in g
  }

  ghost predicate NoBackup(f: map<Path, Content>, a: Args, k: Kind) {
    Backup(a.gen, a.ch, k) !in f && Missing(a.gen, a.ch, k) !in f
  }

  ghost predicate BackupsKept(f: map<Path, Content>, g: map<Path, Content>, a: Args, k: Kind) {
    Same(f, g, Backup(a.gen, a.ch, k)) && Same(f, g, Missing(a.gen, a.ch, k))
  }

  ghost predicate Running(w: World) {
    w.status == Going && w.script == []
  }

  lemma BackupOneExact(w: World, a: Args, k: Kind)
    requires Running(w) && Source(a, k) in w.disk.files && NoBackup(w.disk.files, a, k)
    ensures var r := BackupOne(w, a, k);
            && Running(r) && BackedUp(w.disk.files, r.disk.files, a, k)
            && forall p :: p != Backup(a.gen, a.ch, k) && p != Missing(a.gen, a.ch, k) ==> Same(w.disk.files, r.disk.files, p)
  {
  }

  lemma {:induction false} BackupEachExact(w: World, a: Args, ks: seq<Kind>)
    requires Running(w) && NoDup(ks)
    requires forall k :: k in ks ==> Source(a, k) in w.disk.files && NoBackup(w.disk.files, a, k)
    ensures var r := BackupEach(w, a, ks);
            && Running(r) && (forall k :: k in ks ==> BackedUp(w.disk.files, r.disk.files, a, k))
            && forall j :: j !in ks ==> BackupsKept(w.disk.files, r.disk.files, a, j)
    decreases |ks|
  {
    if ks != [] {
      var k, one := ks[0], BackupOne(w, a, ks[0]);
      assert ks == [k] + ks[1..];
      NoDupParts([k], ks[1..]);
      BackupOneExact(w, a, k);
      forall j | j in ks[1..] ensures Source(a, j) in one.disk.files && NoBackup(one.disk.files, a, j) {
        assert Same(w.disk.files, one.disk.files, Source(a, j));
        assert Same(w.disk.files, one.disk.files, Backup(a.gen, a.ch, j)) && Same(w.disk.files, one.disk.files, Missing(a.gen, a.ch, j));
      }
      BackupEachExact(one, a, ks[1..]);
      assert BackupsKept(one.disk.files, BackupEach(w, a, ks).disk.files, a, k);
      forall j | j in ks ensures BackedUp(w.disk.files, BackupEach(w, a, ks).disk.files, a, j) {
        assert Same(w.disk.files, one.disk.files, Destination(a, j));
      }
    }
  }

  /** Replacing completes if nothing disturbs it, and leaves the records of the transaction alone. */
  lemma {:induction false} ReplaceEachExact(w: World, a: Args, ks: seq<Kind>)
    requires Running(w) && forall k :: k in ks ==> Source(a, k) in w.disk.files
    ensures var r := ReplaceEach(w, a, ks);
            Running(r) && forall p :: InTransaction(a.gen, p) ==> Same(w.disk.files, r.disk.files, p)
    decreases |ks|
  {
    if ks != [] {
      ReplaceEachExact(ReplaceOne(w, a, ks[0]), a, ks[1..]);
    }
  }

  /** Everything that an undisturbed promotion needs. */
  ghost predicate Promotable(d: Disk, a: Args, order: seq<Path>) {
    && Ready(a.ch, a.gen) in d.files
    && WipesTransaction(order, d, a)
    && forall k :: k in Kinds(a) ==> Source(a, k) in d.files
  }

  /** An undisturbed promotion completes: the staged files are published, and exactly what the
      destinations held before is kept for a rollback. */
  lemma PromoteCompletes(d: Disk, a: Args, order: seq<Path>)
    requires Promotable(d, a, order)
    ensures var r := PromoteMutable(World(d, [], Going), a, order);
            && Running(r) && PromotedMark(a.gen) in r.disk.files
            && forall k :: k in Kinds(a) ==> Published(d.files, r.disk.files, a, k) && BackedUp(d.files, r.disk.files, a, k)
  {
    var w := World(d, [], Going);
    RemoveTreeAll(w, order);
    var wiped := RemoveTree(w, order);
    BackupEachExact(wiped, a, Kinds(a));
    var saved := BackupEach(wiped, a, Kinds(a));
    BackupEachFrame(wiped, a, Kinds(a));
    forall k | k in Kinds(a) ensures Source(a, k) in saved.disk.files {
      SourceKept(wiped.disk.files, saved.disk.files, a, k);
    }
    ReplaceEachExact(saved, a, Kinds(a));
    var replaced := ReplaceEach(saved, a, Kinds(a));
    var r := PromoteMutable(w, a, order);
    assert r == Do(replaced, Write(PromotedMark(a.gen), Empty));
    PromotePublishes(w, a, order);
    forall k | k in Kinds(a) ensures BackedUp(d.files, r.disk.files, a, k) {
      assert Same(saved.disk.files, replaced.disk.files, Backup(a.gen, a.ch, k));
      assert Same(saved.disk.files, replaced.disk.files, Missing(a.gen, a.ch, k));
      assert BackedUp(wiped.disk.files, saved.disk.files, a, k) && Same(d.files, wiped.disk.files, Destination(a, k));
      assert Same(saved.disk.files, r.disk.files, Backup(a.gen, a.ch, k));
      assert Same(saved.disk.files, r.disk.files, Missing(a.gen, a.ch, k));
    }
  }

  /** The destination already holds what is staged for it. */
  predicate UpToDate(f: map<Path, Content>, a: Args, k: Kind) {
    Source(a, k) in f && Destination(a, k) in f && f[Destination(a, k)] == f[Source(a, k)]
  }

  /** An undisturbed promotion leaves backups that agree with the destinations only if it had nothing
      new to publish. */
  lemma PromoteLeavesHarmlessIff(d: Disk, a: Args, order: seq<Path>)
    requires Promotable(d, a, order)
    ensures Harmless(PromoteMutable(World(d, [], Going), a, order).disk.files, a)
            <==> forall k :: k in Kinds(a) ==> UpToDate(d.files, a, k)
  {
    var f := PromoteMutable(World(d, [], Going), a, order).disk.files;
    PromoteCompletes(d, a, order);
    forall k | k in Kinds(a) ensures HarmlessAt(f, a, k) <==> UpToDate(d.files, a, k) {
      assert Published(d.files, f, a, k) && BackedUp(d.files, f, a, k);
    }
  }

  /** A whole run in which a rollback goes too far: promote, promote again and stop at once, roll back.
      The destination is back at what it held before the first promotion, not before the second. */
  lemma PromoteTwiceGoesTooFar(d: Disk, a: Args, order: seq<Path>, k: Kind) returns (again: seq<Path>)
    requires Promotable(d, a, order) && k in Kinds(a) && !UpToDate(d.files, a, k)
    ensures var first := PromoteMutable(World(d, [], Going), a, order);
            && first.status == Going
            && Promotable(first.disk, a, again)
            && var stopped := PromoteMutable(World(first.disk, [Crash], Going), a, again).disk;
            var back := Restore(World(stopped, [], Going), a).disk;
            && Same(d.files, back.files, Destination(a, k))
            && !Same(first.disk.files, back.files, Destination(a, k))
  {
    var first := PromoteMutable(World(d, [], Going), a, order).disk;
    PromoteCompletes(d, a, order);
    PromoteOnlyTouches(World(d, [], Going), a, order);
    assert Same(d.files, first.files, Ready(a.ch, a.gen));
    forall j | j in Kinds(a) ensures Source(a, j) in first.files {
      SourceKept(d.files, first.files, a, j);
    }
    again := OrderFrom(first, a, PromotedMark(a.gen));
    StoppedAtOnce(first, a, again);
    RollbackGivesGiven(first, a, k);
    assert Published(d.files, first.files, a, k) && BackedUp(d.files, first.files, a, k);
  }

  // ----- what a rollback makes of leftovers -----

  /** Every leftover backup, or absence mark where there is none, says what the destination has. */
  ghost predicate Agrees(f: map<Path, Content>, a: Args) {
    forall k :: k in Kinds(a) ==> AgreesAt(f, a, k)
  }

  ghost predicate AgreesAt(f: map<Path, Content>, a: Args, k: Kind) {
    var d, b := Destination(a, k), Backup(a.gen, a.ch, k);
    if b in f then d in f && f[d] == f[b]
    else Missing(a.gen, a.ch, k) in f ==> d !in f
  }

  /** No mark, leftovers that agree, and no half-made copy of a backup. */
  ghost predicate NothingLeftToDo(f: map<Path, Content>, a: Args) {
    PromotedMark(a.gen) !in f && forall k :: k in Kinds(a) ==> Settled(f, a, k)
  }

  lemma RestoreOneAgreeing(w: World, a: Args, k: Kind)
    requires k in Kinds(a) && Agrees(w.disk.files, a)
    ensures var r := RestoreOne(w, a, k); Untouched(w.disk.files, r.disk.files, a) && Agrees(r.disk.files, a)
  {
    var f, r := w.disk.files, RestoreOne(w, a, k).disk.files;
    RestoreOneFrame(w, a, k);
    assert AgreesAt(f, a, k);
    forall j | j in Kinds(a) ensures Same(f, r, Destination(a, j)) && AgreesAt(r, a, j) {
      assert AgreesAt(f, a, j);
      assert Same(f, r, Backup(a.gen, a.ch, j)) && Same(f, r, Missing(a.gen, a.ch, j));
    }
  }

  lemma {:induction false} RestoreEachAgreeing(w: World, a: Args, ks: seq<Kind>)
    requires Agrees(w.disk.files, a) && forall k :: k in ks ==> k in Kinds(a)
    ensures Untouched(w.disk.files, RestoreEach(w, a, ks).disk.files, a)
    decreases |ks|
  {
    if ks != [] {
      RestoreOneAgreeing(w, a, ks[0]);
      RestoreEachAgreeing(RestoreOne(w, a, ks[0]), a, ks[1..]);
    }
  }

  /** Rollbacks leave the destinations alone, whatever their faults, if and only if the leftovers of the
      generation agree with them; one that is not disturbed changes nothing at all if and only if
      moreover there is no mark and no half-made copy. */
  lemma RollbackUnnoticedIff(d: Disk, a: Args)
    ensures (forall script :: Untouched(d.files, Restore(World(d, script, Going), a).disk.files, a)) <==> Agrees(d.files, a)
    ensures Restore(World(d, [], Going), a).disk == d <==> NothingLeftToDo(d.files, a)
  {
    if Agrees(d.files, a) {
      forall script ensures Untouched(d.files, Restore(World(d, script, Going), a).disk.files, a) {
        RestoreEachAgreeing(World(d, script, Going), a, Kinds(a));
      }
    }
    var w := World(d, [], Going);
    if Untouched(d.files, Restore(w, a).disk.files, a) {
      forall k | k in Kinds(a) ensures AgreesAt(d.files, a, k) {
        RollbackGivesGiven(d, a, k);
      }
    }
    UnchangedIff(d, a);
  }

  lemma UnchangedIff(d: Disk, a: Args)
    ensures Restore(World(d, [], Going), a).disk == d <==> NothingLeftToDo(d.files, a)
  {
    var w := World(d, [], Going);
    RestoreUndisturbed(w, a, Kinds(a));
    RestoreEachSettles(w, a, Kinds(a));
    if NothingLeftToDo(d.files, a) {
      RestoreEachSettled(w, a, Kinds(a));
    }
    if Restore(w, a).disk == d {
      forall k | k in Kinds(a) ensures Settled(d.files, a, k) {
        assert Settled(RestoreEach(w, a, Kinds(a)).disk.files, a, k);
      }
    }
  }

  // ----- when replacing fails -----

  /** For destination `k` what it has in `f` is kept in `g`: as a backup, or as the mark of its absence,
      beside whatever backup there was. */
  ghost predicate SavedAt(f: map<Path, Content>, g: map<Path, Content>, a: Args, k: Kind) {
    var d, b, m := Destination(a, k), Backup(a.gen, a.ch, k), Missing(a.gen, a.ch, k);
    && Same(f, g, d)
    && (if d in f then b in g && g[b] == f[d] else m in g && Same(f, g, b))
  }

  lemma BackupOneSaves(w: World, a: Args, k: Kind, j: Kind)
    requires BackupOne(w, a, k).status == Going
    ensures w.status == Going
    ensures var r := BackupOne(w, a, k);
            if j == k then SavedAt(w.disk.files, r.disk.files, a, k)
            else Same(w.disk.files, r.disk.files, Destination(a, j)) && BackupsKept(w.disk.files, r.disk.files, a, j)
  {
  }

  lemma {:induction false} BackupEachSaves(w: World, a: Args, ks: seq<Kind>, j: Kind)
    requires NoDup(ks) && BackupEach(w, a, ks).status == Going
    ensures w.status == Going
    ensures var r := BackupEach(w, a, ks);
            if j in ks then SavedAt(w.disk.files, r.disk.files, a, j)
            else Same(w.disk.files, r.disk.files, Destination(a, j)) && BackupsKept(w.disk.files, r.disk.files, a, j)
    decreases |ks|
  {
    if ks != [] {
      assert ks == [ks[0]] + ks[1..];
      NoDupParts([ks[0]], ks[1..]);
      BackupEachSaves(BackupOne(w, a, ks[0]), a, ks[1..], j);
      BackupOneSaves(w, a, ks[0], j);
    }
  }

  lemma {:induction false} ReplaceEachKeepsRecords(w: World, a: Args, ks: seq<Kind>, p: Path)
    requires InTransaction(a.gen, p)
    ensures Same(w.disk.files, ReplaceEach(w, a, ks).disk.files, p)
    decreases |ks|
  {
    if ks != [] {
      ReplaceEachKeepsRecords(ReplaceOne(w, a, ks[0]), a, ks[1..], p);
    }
  }

  /** What any rollback that completes makes of a destination. */
  lemma CompletedRestoreGives(w: World, a: Args, k: Kind)
    requires k in Kinds(a) && Restore(w, a).status == Going
    ensures Same(Given(w.disk.files, a, k), Restore(w, a).disk.files, Destination(a, k))
    ensures PromotedMark(a.gen) !in Restore(w, a).disk.files
  {
    var before := Given(Given(w.disk.files, a, App), a, Driver);
    assert Recoverable(before, w.disk.files, a);
    RestoreGivesBack(before, w, a);
  }

  /** Everything is backed up, replacing fails, and the rollback that answers it gets through. */
  ghost predicate FailsReplacing(d: Disk, a: Args, order: seq<Path>, script: seq<Fate>) {
    var saved := BackupEach(RemoveTree(World(d, script, Going), order), a, Kinds(a));
    var replaced := ReplaceEach(saved, a, Kinds(a));
    && Ready(a.ch, a.gen) in d.files && WipesTransaction(order, d, a)
    && saved.status == Going && replaced.status == Failed
    && Restore(replaced.(status := Going), a).status == Going
  }

  /** A backup that outlived its removal and speaks for a destination that does not exist. */
  ghost predicate StrayBackup(d: Disk, wiped: map<Path, Content>, a: Args, k: Kind) {
    Destination(a, k) !in d.files && Backup(a.gen, a.ch, k) in wiped
  }

  lemma FailedReplaceGives(d: Disk, a: Args, order: seq<Path>, script: seq<Fate>, k: Kind)
    requires FailsReplacing(d, a, order, script) && k in Kinds(a)
    ensures Same(d.files, PromoteMutable(World(d, script, Going), a, order).disk.files, Destination(a, k))
            <==> !StrayBackup(d, RemoveTree(World(d, script, Going), order).disk.files, a, k)
  {
    var wiped := RemoveTree(World(d, script, Going), order);
    var saved := BackupEach(wiped, a, Kinds(a));
    var replaced := ReplaceEach(saved, a, Kinds(a));
    WipeUntouched(d, a, order, script);
    assert Same(d.files, wiped.disk.files, Destination(a, k));
    BackupEachSaves(wiped, a, Kinds(a), k);
    ReplaceEachKeepsRecords(saved, a, Kinds(a), Backup(a.gen, a.ch, k));
    ReplaceEachKeepsRecords(saved, a, Kinds(a), Missing(a.gen, a.ch, k));
    CompletedRestoreGives(replaced.(status := Going), a, k);
  }

  /** An operating system error while the files are being replaced is reported, and undone on the spot if
      and only if no backup of an earlier run outlived its removal for a destination that does not exist. */
  lemma FailedReplaceUndone(d: Disk, a: Args, order: seq<Path>, script: seq<Fate>)
    requires FailsReplacing(d, a, order, script)
    ensures var wiped := RemoveTree(World(d, script, Going), order).disk.files;
            var r := PromoteMutable(World(d, script, Going), a, order);
            && r.status == Failed && PromotedMark(a.gen) !in r.disk.files
            && (Untouched(d.files, r.disk.files, a) <==> forall k :: k in Kinds(a) ==> !StrayBackup(d, wiped, a, k))
  {
    var saved := BackupEach(RemoveTree(World(d, script, Going), order), a, Kinds(a));
    CompletedRestoreGives(ReplaceEach(saved, a, Kinds(a)).(status := Going), a, App);
    forall k | k in Kinds(a)
      ensures Same(d.files, PromoteMutable(World(d, script, Going), a, order).disk.files, Destination(a, k))
              <==> !StrayBackup(d, RemoveTree(World(d, script, Going), order).disk.files, a, k)
    {
      FailedReplaceGives(d, a, order, script, k);
    }
  }

  /** In particular whenever the removal of older backups went through. */
  lemma FailedReplaceUndoneAfterWipe(d: Disk, a: Args, order: seq<Path>, script: seq<Fate>)
    requires FailsReplacing(d, a, order, script)
    requires forall i :: 0 <= i < |script| && i < |order| ==> script[i] == Go
    ensures Untouched(d.files, PromoteMutable(World(d, script, Going), a, order).disk.files, a)
  {
    RemoveTreeAll(World(d, script, Going), order);
    FailedReplaceUndone(d, a, order, script);
  }
}
