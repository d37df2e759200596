/** The publication commands as they run on a node: a file tree that is changed step by step. Every
    method is proved to compute its command, whatever the environment does at each step. */
module EdgeNode {
  import opened Options
  import opened EdgeDisk
  import opened EdgeMutable
  import opened EdgeChecksums
  import opened EdgeCommands
  import opened EdgeRetention

  class Node {
    var files: map<Path, Content>
    var versions: map<Version, Directory>
    var script: seq<Fate>
    var status: Status

    constructor (d: Disk, fates: seq<Fate>)
      ensures Now() == World(d, fates, Going)
    {
      files, versions, script, status := d.files, d.versions, fates, Going;
    }

    function Now(): World
      reads this
    {
      World(Disk(files, versions), script, status)
    }

    /** One atomic file operation. */
    method Step(op: Op)
      modifies this
      ensures Now() == Do(old(Now()), op)
    {
      if status != Going {
        return;
      }
      var fate := NextFate(script);
      script := Later(script);
      if fate == Crash {
        status := Crashed;
      } else if fate == Fail || !Enabled(Disk(files, versions), op) {
        status := Failed;
      } else {
        var d := Apply(Disk(files, versions), op);
        files, versions := d.files, d.versions;
      }
    }

    method StepIgnoringErrors(op: Op)
      modifies this
      ensures Now() == Try(old(Now()), op)
    {
      var going := status == Going;
      Step(op);
      if going && status == Failed {
        status := Going;
      }
    }

    method GiveRefusal()
      modifies this
      ensures Now() == Refuse(old(Now()))
    {
      if status == Going {
        status := Status.Refused;
      }
    }

    method RemoveIgnoringErrors(order: seq<Path>)
      modifies this
      ensures Now() == RemoveTree(old(Now()), order)
    {
      for i := 0 to |order|
        invariant RemoveTree(Now(), order[i..]) == RemoveTree(old(Now()), order)
      {
        assert order[i..][1..] == order[i + 1..];
        StepIgnoringErrors(Unlink(order[i]));
      }
    }

    method RemoveStrictly(order: seq<Path>)
      modifies this
      ensures Now() == RemoveTreeStrictly(old(Now()), order)
    {
      for i := 0 to |order|
        invariant RemoveTreeStrictly(Now(), order[i..]) == RemoveTreeStrictly(old(Now()), order)
      {
        assert order[i..][1..] == order[i + 1..];
        Step(Unlink(order[i]));
      }
    }

    // ----- the mutable phase -----

    method RestoreMutable(a: Args)
      modifies this
      ensures Now() == Restore(old(Now()), a)
    {
      var ks := Kinds(a);
      for i := 0 to |ks|
        invariant RestoreEach(Now(), a, ks[i..]) == RestoreEach(old(Now()), a, ks)
      {
        assert ks[i..][1..] == ks[i + 1..];
        var k := ks[i];
        if Backup(a.gen, a.ch, k) in files {
          Step(Copy(Backup(a.gen, a.ch, k), LatestRollback(a.ch, k)));
          Step(Replace(LatestRollback(a.ch, k), Destination(a, k)));
        } else if Missing(a.gen, a.ch, k) in files && Destination(a, k) in files {
          Step(Unlink(Destination(a, k)));
        }
      }
      if PromotedMark(a.gen) in files {
        Step(Unlink(PromotedMark(a.gen)));
      }
    }

    method BackUp(a: Args)
      modifies this
      ensures Now() == BackupEach(old(Now()), a, Kinds(a))
    {
      var ks := Kinds(a);
      for i := 0 to |ks|
        invariant BackupEach(Now(), a, ks[i..]) == BackupEach(old(Now()), a, ks)
      {
        assert ks[i..][1..] == ks[i + 1..];
        var k := ks[i];
        if Source(a, k) !in files {
          GiveRefusal();
        } else if Destination(a, k) in files {
          Step(Copy(Destination(a, k), Backup(a.gen, a.ch, k)));
        } else {
          Step(Write(Missing(a.gen, a.ch, k), Empty));
        }
      }
    }

    method ReplaceLatest(a: Args)
      modifies this
      ensures Now() == ReplaceEach(old(Now()), a, Kinds(a))
    {
      var ks := Kinds(a);
      for i := 0 to |ks|
        invariant ReplaceEach(Now(), a, ks[i..]) == ReplaceEach(old(Now()), a, ks)
      {
        assert ks[i..][1..] == ks[i + 1..];
        Step(Copy(Source(a, ks[i]), LatestTemp(a.ch, ks[i])));
        Step(Replace(LatestTemp(a.ch, ks[i]), Destination(a, ks[i])));
      }
    }

    method PromoteMutably(a: Args, order: seq<Path>)
      modifies this
      ensures Now() == PromoteMutable(old(Now()), a, order)
    {
      if Ready(a.ch, a.gen) !in files {
        GiveRefusal();
        return;
      }
      RemoveIgnoringErrors(order);
      BackUp(a);
      if status != Going {
        return;
      }
      ReplaceLatest(a);
      if status == Failed {
        status := Going;
        RestoreMutable(a);
        if status == Going {
          status := Failed;
        }
      }
      Step(Write(PromotedMark(a.gen), Empty));
    }

    // ----- the other commands -----

    method PromoteOneDirectory(a: Args, e: Env, kind: Kind, tag: Tag)
      modifies this
      ensures Now() == PromoteDirectory(old(Now()), a, e, kind, tag)
    {
      var v, dir := Version(a.ch, kind, tag), VersionDir(a.ch, kind, tag);
      var source := StagedDirectory(files, a, kind, tag);
      if source == map[] {
        GiveRefusal();
      } else if v !in versions {
        Step(MoveDirectory(a.stage, dir, v));
      } else if !DirectoriesEqual(e, source, versions[v]) {
        GiveRefusal();
      } else {
        RemoveStrictly(e.list(DirectoryFiles(files, a.stage, dir)));
      }
    }

    method VerifyStagedPayload(a: Args, e: Env) returns (ok: bool)
      ensures ok == StagedAccepted(Now().disk, a, e)
    {
      if Deployment(a.stage) !in files || !files[Deployment(a.stage)].Doc?
         || Sums(a.stage) !in files || !files[Sums(a.stage)].Text? {
        return false;
      }
      ok := EdgeChecksums.Verify(e.sha, e.size, a, files[Deployment(a.stage)].doc, PayloadOf(files, a.stage),
                                 files[Sums(a.stage)].text);
    }

    method PromoteImmutably(a: Args, e: Env)
      modifies this
      ensures Now() == PromoteImmutable(old(Now()), a, e)
    {
      if status != Going {
        return;
      }
      var ok := VerifyStagedPayload(a, e);
      if !ok {
        GiveRefusal();
        return;
      }
      var doc := files[Deployment(a.stage)].doc;
      var driver := if a.driverTag != "" then Some(a.driverTag) else InheritedDriverTag(Disk(files, versions), a, e);
      if driver == None {
        GiveRefusal();
        return;
      }
      PromoteOneDirectory(a, e, App, a.appTag);
      if a.driverTag != "" {
        PromoteOneDirectory(a, e, Driver, a.driverTag);
      }
      if status == Going && !ProbeHolds(Disk(files, versions), e, doc) {
        GiveRefusal();
        return;
      }
      Step(Write(Ready(a.ch, a.gen), Doc(ReadyDocument(doc, driver.value))));
    }

    method FinalizePublication(a: Args, e: Env)
      modifies this
      ensures Now() == Finalize(old(Now()), a, e)
    {
      if PromotedMark(a.gen) !in files {
        GiveRefusal();
        return;
      }
      if Ready(a.ch, a.gen) !in files {
        status := if status == Going then Failed else status;
        return;
      }
      if !files[Ready(a.ch, a.gen)].Doc? {
        GiveRefusal();
        return;
      }
      Step(Write(ChannelState(a.ch), Doc(files[Ready(a.ch, a.gen)].doc.(phase := Active))));
      Step(Write(Health, Empty));
      RemoveIgnoringErrors(e.list(TransactionFiles(files, a.gen)));
      RemoveIgnoringErrors(e.list(StageFiles(files, a.stage)));
    }

    /** A pruning run over the selected directories; `list` finds the files of each. */
    method Prune(selected: seq<Version>, list: Version -> seq<Parts>)
      modifies this
      ensures Now() == RemoveAll(old(Now()), selected, list)
    {
      for i := 0 to |selected|
        invariant RemoveAll(Now(), selected[i..], list) == RemoveAll(old(Now()), selected, list)
      {
        assert selected[i..][1..] == selected[i + 1..];
        RemoveDirectory(selected[i], list(selected[i]));
      }
    }

    method RemoveDirectory(v: Version, names: seq<Parts>)
      modifies this
      ensures Now() == RemoveVersionTree(old(Now()), v, names)
    {
      for i := 0 to |names|
        invariant RemoveFiles(Now(), v, names[i..]) == RemoveFiles(old(Now()), v, names)
      {
        assert names[i..][1..] == names[i + 1..];
        Step(RemoveFrom(v, names[i]));
      }
      Step(RemoveVersion(v));
    }

    method AbortPublication(a: Args, e: Env)
      modifies this
      ensures Now() == Abort(old(Now()), a, e)
    {
      RemoveIgnoringErrors(e.list(StageFiles(files, a.stage)));
      RemoveIgnoringErrors(e.list(TransactionFiles(files, a.gen)));
    }
  }

  /** The whole of it on one node: a promotion that may be stopped anywhere, then a rollback. */
  method PromoteThenRollBack(d: Disk, a: Args, order: seq<Path>, fates: seq<Fate>) returns (after: Disk)
    requires Harmless(d.files, a) && WipesTransaction(order, d, a)
    ensures Untouched(d.files, after.files, a) && PromotedMark(a.gen) !in after.files
  {
    var node := new Node(d, fates);
    node.PromoteMutably(a, order);
    ghost var stopped := node.Now().disk;
    node.script, node.status := [], Going;
    node.RestoreMutable(a);
    after := Disk(node.files, node.versions);
    HarmlessGivesBack(d, a, order, fates, []);
    RollbackIdempotent(stopped, a);
  }
}
