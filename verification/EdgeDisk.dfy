/** The file tree of one download edge and the environment its publication commands run in. Every
    single-file operation is one step, and before each step the environment decides whether it goes
    through, fails with an operating system error, or the process is gone. */
module EdgeDisk {

  datatype Channel = Stable | Dev

  datatype Kind = App | Driver

  type Tag = string

  type Generation = string

  type Stage = string

  /** A path below the payload directory, as its components. */
  type Parts = seq<string>

  /** File contents that the commands only copy and hash. */
  type Data(==, 0, !new)

  datatype Phase = Staged | ReadyToPublish | Active

  /** Deployment metadata, ready manifest and channel state share one shape. */
  datatype Document = Document(
    channel: Channel,
    appTag: Tag,
    driverEnabled: bool,
    driverTag: Tag,
    generation: Generation,
    fileCount: nat,
    payloadBytes: nat,
    probePath: Parts,
    probeSize: nat,
    probeSha: string,
    phase: Phase)

  datatype Content = Raw(data: Data) | Text(text: string) | Doc(doc: Document) | Empty

  /** An immutable release directory. */
  datatype Version = Version(ch: Channel, kind: Kind, tag: Tag)

  datatype Path =
    | Latest(ch: Channel, kind: Kind)
    | LatestTemp(ch: Channel, kind: Kind)
    | LatestRollback(ch: Channel, kind: Kind)
    | Ready(ch: Channel, gen: Generation)
    | ChannelState(ch: Channel)
    | Backup(gen: Generation, ch: Channel, kind: Kind)
    | Missing(gen: Generation, ch: Channel, kind: Kind)
    | PromotedMark(gen: Generation)
    | Payload(stage: Stage, parts: Parts)
    | Deployment(stage: Stage)
    | Sums(stage: Stage)
    | Health

  type Directory = map<Parts, Content>

  datatype Disk = Disk(files: map<Path, Content>, versions: map<Version, Directory>)

  datatype Op =
    | Copy(from: Path, to: Path)
    | Replace(from: Path, to: Path)
    | Unlink(path: Path)
    | Write(path: Path, content: Content)
    | MoveDirectory(stage: Stage, dir: Parts, version: Version)
    | RemoveFrom(version: Version, name: Parts)
    | RemoveVersion(version: Version)

  datatype Fate = Go | Fail | Crash

  /** Refused: the command raised its own error. Failed: an operating system error. */
  datatype Status = Going | Refused | Failed | Crashed

  datatype World = World(disk: Disk, script: seq<Fate>, status: Status)

  // ----- directories of the payload -----

  /** The files of a staged payload. */
  function PayloadOf(files: map<Path, Content>, stage: Stage): map<Parts, Content> {
    map p | p in files && p.Payload? && p.stage == stage :: p.parts := files[p]
  }

  predicate IsBelow(dir: Parts, p: Parts) {
    |dir| < |p| && p[..|dir|] == dir
  }

  function NamesBelow(payload: map<Parts, Content>, dir: Parts): (r: set<Parts>)
    ensures forall n {:trigger n in r} :: n in r <==> n != [] && dir + n in payload
  {
    var r := set p | p in payload && IsBelow(dir, p) :: p[|dir|..];
    assert forall p :: p in payload && IsBelow(dir, p) ==> dir + p[|dir|..] == p;
    assert forall n: Parts :: (dir + n)[|dir|..] == n && (dir + n)[..|dir|] == dir;
    r
  }

  /** The files below one directory of a payload, by their path from there. */
  function Below(payload: map<Parts, Content>, dir: Parts): Directory {
    map n | n in NamesBelow(payload, dir) :: payload[dir + n]
  }

  /** What is left of a payload without one directory. */
  function Outside(files: map<Path, Content>, stage: Stage, dir: Parts): map<Path, Content> {
    map p | p in files && !(p.Payload? && p.stage == stage && IsBelow(dir, p.parts)) :: files[p]
  }

  // ----- steps -----

  predicate Enabled(d: Disk, op: Op) {
    match op
    case Copy(from, _) => from in d.files
    case Replace(from, _) => from in d.files
    case Unlink(p) => p in d.files
    case Write(_, _) => true
    case MoveDirectory(stage, dir, v) => v !in d.versions
    case RemoveFrom(v, name) => v in d.versions && name in d.versions[v]
    case RemoveVersion(v) => v in d.versions
  }

  function Apply(d: Disk, op: Op): Disk
    requires Enabled(d, op)
  {
    match op
    case Copy(from, to) => d.(files := d.files[to := d.files[from]])
    case Replace(from, to) => d.(files := (d.files - {from})[to := d.files[from]])
    case Unlink(p) => d.(files := d.files - {p})
    case Write(p, content) => d.(files := d.files[p := content])
    case MoveDirectory(stage, dir, v) =>
      Disk(Outside(d.files, stage, dir), d.versions[v := Below(PayloadOf(d.files, stage), dir)])
    case RemoveFrom(v, name) => d.(versions := d.versions[v := d.versions[v] - {name}])
    case RemoveVersion(v) => d.(versions := d.versions - {v})
  }

  function NextFate(script: seq<Fate>): Fate {
    if script == [] then Go else script[0]
  }

  function Later(script: seq<Fate>): seq<Fate> {
    if script == [] then [] else script[1..]
  }

  /** One step; a command that has stopped takes none. */
  function Do(w: World, op: Op): World {
    if w.status != Going then w
    else if NextFate(w.script) == Crash then World(w.disk, Later(w.script), Crashed)
    else if NextFate(w.script) == Fail || !Enabled(w.disk, op) then World(w.disk, Later(w.script), Failed)
    else World(Apply(w.disk, op), Later(w.script), Going)
  }

  /** A step whose operating system error is ignored. */
  function Try(w: World, op: Op): World {
    var r := Do(w, op);
    if w.status == Going && r.status == Failed then r.(status := Going) else r
  }

  /** `shutil.rmtree(…, ignore_errors=True)` over the files of a directory in some order. */
  function RemoveTree(w: World, order: seq<Path>): World
    decreases |order|
  {
    if order == [] then w else RemoveTree(Try(w, Unlink(order[0])), order[1..])
  }

  /** `shutil.rmtree` that stops at the first error. */
  function RemoveTreeStrictly(w: World, order: seq<Path>): World
    decreases |order|
  {
    if order == [] then w else RemoveTreeStrictly(Do(w, Unlink(order[0])), order[1..])
  }

  predicate InTransaction(gen: Generation, p: Path) {
    (p.Backup? || p.Missing? || p.PromotedMark?) && p.gen == gen
  }

  predicate InStage(stage: Stage, p: Path) {
    (p.Payload? || p.Deployment? || p.Sums?) && p.stage == stage
  }

  // ----- laws -----

  lemma {:induction false} RemoveTreeSubset(w: World, order: seq<Path>)
    ensures var r := RemoveTree(w, order);
            && r.disk.versions == w.disk.versions
            && r.disk.files.Keys <= w.disk.files.Keys
            && (forall p :: p in r.disk.files ==> r.disk.files[p] == w.disk.files[p])
            && (forall p :: p in w.disk.files && p !in order ==> p in r.disk.files)
            && (w.status == Going ==> r.status in {Going, Crashed})
            && (w.status != Going ==> r == w)
    decreases |order|
  {
    if order != [] {
      RemoveTreeSubset(Try(w, Unlink(order[0])), order[1..]);
      assert forall p :: p in order[1..] ==> p in order;
    }
  }

  /** With no fault in its way the whole directory goes. */
  lemma {:induction false} RemoveTreeAll(w: World, order: seq<Path>)
    requires w.status == Going && forall i :: 0 <= i < |w.script| && i < |order| ==> w.script[i] == Go
    ensures var r := RemoveTree(w, order);
            && r.status == Going
            && r.disk.versions == w.disk.versions
            && (forall p :: p in r.disk.files <==> p in w.disk.files && p !in order)
            && (forall p :: p in r.disk.files ==> r.disk.files[p] == w.disk.files[p])
            && r.script == if |order| <= |w.script| then w.script[|order|..] else []
    decreases |order|
  {
    if order != [] {
      RemoveTreeAll(Try(w, Unlink(order[0])), order[1..]);
      assert forall p :: p in order <==> p == order[0] || p in order[1..];
    }
  }

  lemma {:induction false} RemoveTreeStrictlySubset(w: World, order: seq<Path>)
    ensures var r := RemoveTreeStrictly(w, order);
            && r.disk.versions == w.disk.versions
            && r.disk.files.Keys <= w.disk.files.Keys
            && (forall p :: p in r.disk.files ==> r.disk.files[p] == w.disk.files[p])
            && (forall p :: p in w.disk.files && p !in order ==> p in r.disk.files)
            && (w.status != Going ==> r == w)
    decreases |order|
  {
    if order != [] {
      RemoveTreeStrictlySubset(Do(w, Unlink(order[0])), order[1..]);
      assert forall p :: p in order[1..] ==> p in order;
    }
  }
}
