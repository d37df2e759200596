/** Ticks of the keep-alive loop among everything else that changes the cache. */
module KeepAliveRuns {
  import opened Options
  import opened KeepAlive

  // Every step holds the lock; between collecting a target and its result any other steps may come.

  /** How often the policy of a connection has been changed, and how often that switched it off. */
  datatype Counts = Counts(edits: nat, offs: nat)

  /** A target some tick has collected and not finished with, and the counts of its connection then. */
  datatype Probe = Probe(target: Target, tick: nat, checked: bool, at: Counts)

  /** `counts` holds the counts of every connection so far, by its number. */
  datatype State = State(cache: Cache, out: map<nat, Probe>, nextProbe: nat, nextTick: nat, counts: seq<Counts>)

  datatype Step =
    | StartTick(keys: seq<Key>, now: int)
    | CheckTarget(n: nat)
    | Result(n: nat, outcome: Outcome)
    | CancelTick(tick: nat)
    | ChangePolicy(key: Key, policy: Policy, now: int)
    | Insert(key: Key, policy: Policy, now: int)
    | Delete(key: Key)
    | Ping(key: Key, at: int)

  predicate Enabled(s: State, step: Step) {
    match step
    case StartTick(_, _) => true
    case CheckTarget(n) => n in s.out && !s.out[n].checked
    case Result(n, _) => n in s.out && s.out[n].checked
    case CancelTick(_) => true
    case ChangePolicy(key, _, _) => key in s.cache
    case Insert(_, _, _) => true
    case Delete(_) => true
    case Ping(key, _) => key in s.cache
  }

  function CountsOf(s: State, inst: Inst): Counts {
    if inst < |s.counts| then s.counts[inst] else Counts(0, 0)
  }

  function Counted(c: Counts, e: Entry, p: Policy): Counts {
    if e.policy == p then c
    else Counts(c.edits + 1, if e.policy.enabled && !p.enabled then c.offs + 1 else c.offs)
  }

  function CountedAll(s: State, e: Entry, p: Policy): seq<Counts> {
    if e.inst < |s.counts| then s.counts[e.inst := Counted(s.counts[e.inst], e, p)] else s.counts
  }

  /** Marks one entry if it is due. */
  function StartOne(s: State, key: Key, now: int): State {
    if key in s.cache && Due(s.cache[key], now) then
      s.(cache := s.cache[key := Marked(s.cache[key])],
         out := s.out[s.nextProbe := Probe(TargetOf(key, s.cache[key]), s.nextTick, false, CountsOf(s, s.cache[key].inst))],
         nextProbe := s.nextProbe + 1)
    else s
  }

  function StartEach(s: State, keys: seq<Key>, now: int): State
    decreases |keys|
  {
    if keys == [] then s else StartOne(StartEach(s, keys[..|keys| - 1], now), keys[|keys| - 1], now)
  }

  /** Releases the marks that the probes of one tick own, and forgets the probes. */
  function CancelMarks(s: State, tick: nat): Cache {
    map key | key in s.cache ::
      if exists n :: n in s.out && s.out[n].tick == tick && s.out[n].target.key == key && Owns(s.cache[key], s.out[n].target)
      then Released(s.cache[key]) else s.cache[key]
  }

  function Do(s: State, step: Step): State
    requires Enabled(s, step)
  {
    match step
    case StartTick(keys, now) => StartEach(s, keys, now).(nextTick := s.nextTick + 1)
    case CheckTarget(n) =>
      var (c, current) := Check(s.cache, s.out[n].target);
      s.(cache := c, out := if current then s.out[n := s.out[n].(checked := true)] else s.out - {n})
    case Result(n, outcome) => s.(cache := Settle(s.cache, s.out[n].target, outcome), out := s.out - {n})
    case CancelTick(tick) => s.(cache := CancelMarks(s, tick), out := map n | n in s.out && s.out[n].tick != tick :: s.out[n])
    case ChangePolicy(key, p, now) =>
      s.(cache := s.cache[key := ApplyPolicy(s.cache[key], p, now)], counts := CountedAll(s, s.cache[key], p))
    case Insert(key, p, now) => s.(cache := s.cache[key := NewEntry(|s.counts|, p, now)], counts := s.counts + [Counts(0, 0)])
    case Delete(key) => s.(cache := s.cache - {key})
    case Ping(key, at) => s.(cache := s.cache[key := s.cache[key].(lastPing := Some(at))])
  }

  const EMPTY := State(map[], map[], 0, 0, [])

  predicate IsRun(s: State, steps: seq<Step>)
    decreases |steps|
  {
    steps == [] || (Enabled(s, steps[0]) && IsRun(Do(s, steps[0]), steps[1..]))
  }

  function After(s: State, steps: seq<Step>): State
    requires IsRun(s, steps)
    decreases |steps|
  {
    if steps == [] then s else After(Do(s, steps[0]), steps[1..])
  }

  // ----- what holds in every run -----

  /** The revision after that many policy changes. */
  function RevisionOf(edits: nat): int {
    edits % MAX_REVISION + 1
  }

  lemma RevisionNext(edits: nat)
    ensures NextRevision(RevisionOf(edits)) == RevisionOf(edits + 1)
  {
  }

  /** Revisions tell counts apart up to multiples of how many revisions there are. */
  lemma RevisionsTell(a: nat, b: nat)
    ensures RevisionOf(a) == RevisionOf(b) <==> (a - b) % MAX_REVISION == 0
    ensures -MAX_REVISION < a - b < MAX_REVISION ==> (RevisionOf(a) == RevisionOf(b) <==> a == b)
  {
    var k := MAX_REVISION;
    assert a - b == k * (a / k - b / k) + (a % k - b % k);
    assert -k < a % k - b % k < k;
    if a % k == b % k {
      assert a - b == k * (a / k - b / k);
    }
  }

  ghost predicate HasOwner(out: map<nat, Probe>, key: Key, e: Entry) {
    exists n :: n in out && out[n].target.key == key && Owns(e, out[n].target)
  }

  /** A revision counts the policy changes, and a marked entry is owned by a probe. */
  ghost predicate EntrySound(s: State, key: Key, e: Entry) {
    && e.inst < |s.counts|
    && e.revision == RevisionOf(s.counts[e.inst].edits)
    && (e.inFlight ==> HasOwner(s.out, key, e))
  }

  /** The entry from which a probe was taken is in the cache, changed or not. */
  ghost predicate Cached(s: State, p: Probe) {
    p.target.key in s.cache && s.cache[p.target.key].inst == p.target.inst
  }

  /** `now` comes after `at`: every switching off is a change. */
  ghost predicate Later(at: Counts, now: Counts) {
    at.offs <= now.offs && at.edits <= now.edits && now.offs - at.offs <= now.edits - at.edits
  }

  ghost predicate ProbeSound(s: State, p: Probe) {
    var t := p.target;
    && t.inst < |s.counts|
    && t.revision == RevisionOf(p.at.edits)
    && p.tick <= s.nextTick
    && Later(p.at, s.counts[t.inst])
    && (Cached(s, p) ==> FitsPolicy(s.cache[t.key].policy, s.counts[t.inst], p))
  }

  /** Since the probe was taken the policy is still on unless it was switched off, and the same unless
      it was changed. */
  ghost predicate FitsPolicy(policy: Policy, now: Counts, p: Probe) {
    && (p.at.offs == now.offs ==> policy.enabled)
    && (p.at.edits == now.edits ==> policy.sql == p.target.sql && policy.dbType == p.target.dbType)
  }

  /** Probes of one tick are of different keys, and of two probes of one connection with a switching off
      in between the later one has seen more changes. */
  ghost predicate Apart(p: Probe, q: Probe) {
    && (p.tick == q.tick ==> p.target.key != q.target.key)
    && (p.target.inst == q.target.inst && p.at.offs < q.at.offs ==> p.at.edits < q.at.edits)
  }

  ghost predicate ProbesApart(out: map<nat, Probe>) {
    forall m, n :: m in out && n in out && m != n ==> Apart(out[m], out[n])
  }

  /** Every connection has one key. */
  ghost predicate InstsApart(s: State) {
    && (forall n, key :: n in s.out && key in s.cache && s.cache[key].inst == s.out[n].target.inst ==> key == s.out[n].target.key)
    && (forall a, b :: a in s.cache && b in s.cache && a != b ==> s.cache[a].inst != s.cache[b].inst)
  }

  ghost predicate Sound(s: State) {
    && (forall key :: key in s.cache ==> EntrySound(s, key, s.cache[key]))
    && (forall n :: n in s.out ==> n < s.nextProbe && ProbeSound(s, s.out[n]))
    && ProbesApart(s.out)
    && InstsApart(s)
  }

  /** Probes belong to ticks that have started. */
  ghost predicate TicksStarted(s: State) {
    forall n :: n in s.out ==> s.out[n].tick < s.nextTick
  }

  /** The release of a mark, times aside. */
  ghost predicate IsReleased(e: Entry, e': Entry) {
    e' == Released(e).(lastPing := e'.lastPing, lastKeepAliveAt := e'.lastKeepAliveAt)
  }

  ghost predicate OwnedBySome(s: State, gone: set<nat>, key: Key) {
    key in s.cache && exists n :: n in gone && n in s.out && s.out[n].target.key == key && Owns(s.cache[key], s.out[n].target)
  }

  /** Probes end, and exactly the marks they own are released. */
  ghost predicate Ends(s: State, gone: set<nat>, s': State) {
    && s' == s.(cache := s'.cache, out := s.out - gone)
    && s'.cache.Keys <= s.cache.Keys
    && forall key :: key in s'.cache ==>
         if OwnedBySome(s, gone, key) then IsReleased(s.cache[key], s'.cache[key]) else s'.cache[key] == s.cache[key]
  }

  lemma EndsKeeps(s: State, gone: set<nat>, s': State)
    requires Sound(s) && Ends(s, gone, s')
    ensures Sound(s')
  {
    forall key | key in s'.cache ensures EntrySound(s', key, s'.cache[key]) {
      EndsKeepsEntry(s, gone, s', key);
    }
    forall n | n in s'.out ensures n < s'.nextProbe && ProbeSound(s', s'.out[n]) {
      assert ProbeSound(s, s.out[n]);
    }
  }

  lemma EndsKeepsEntry(s: State, gone: set<nat>, s': State, key: Key)
    requires Sound(s) && Ends(s, gone, s') && key in s'.cache
    ensures EntrySound(s', key, s'.cache[key])
  {
    assert EntrySound(s, key, s.cache[key]);
    if s'.cache[key].inFlight {
      var n :| n in s.out && s.out[n].target.key == key && Owns(s.cache[key], s.out[n].target);
      assert n !in gone;
      assert n in s'.out && s'.out[n] == s.out[n];
    }
  }

  lemma CheckEnds(s: State, n: nat)
    requires Enabled(s, CheckTarget(n))
    ensures var t := s.out[n].target;
            !(t.key in s.cache && Matches(s.cache[t.key], t)) ==> Ends(s, {n}, Do(s, CheckTarget(n)))
  {
  }

  lemma ResultEnds(s: State, n: nat, o: Outcome)
    requires Enabled(s, Result(n, o))
    ensures Ends(s, {n}, Do(s, Result(n, o)))
  {
  }

  function ProbesOf(s: State, tick: nat): set<nat> {
    set n | n in s.out && s.out[n].tick == tick
  }

  lemma CancelEnds(s: State, tick: nat)
    ensures Ends(s, ProbesOf(s, tick), Do(s, CancelTick(tick)))
  {
    assert Do(s, CancelTick(tick)).out == s.out - ProbesOf(s, tick);
  }

  // ----- every step -----

  lemma StartOneKeepsEntry(s: State, key: Key, now: int, k: Key)
    requires Sound(s) && key in s.cache && Due(s.cache[key], now) && k in s.cache
    ensures EntrySound(StartOne(s, key, now), k, StartOne(s, key, now).cache[k])
  {
    var s' := StartOne(s, key, now);
    assert EntrySound(s, k, s.cache[k]);
    if k == key {
      assert s'.out[s.nextProbe].target == TargetOf(key, s.cache[key]) && Owns(s'.cache[key], s'.out[s.nextProbe].target);
    } else if s.cache[k].inFlight {
      var n :| n in s.out && s.out[n].target.key == k && Owns(s.cache[k], s.out[n].target);
      assert s'.out[n] == s.out[n];
    }
  }

  lemma StartOneKeeps(s: State, key: Key, now: int)
    requires Sound(s)
    requires forall n :: n in s.out && s.out[n].tick == s.nextTick ==> key !in s.cache || s.out[n].target.key != key || s.cache[key].inFlight
    ensures Sound(StartOne(s, key, now))
  {
    if key in s.cache && Due(s.cache[key], now) {
      var s' := StartOne(s, key, now);
      assert EntrySound(s, key, s.cache[key]);
      forall k | k in s'.cache ensures EntrySound(s', k, s'.cache[k]) {
        StartOneKeepsEntry(s, key, now, k);
      }
      forall n | n in s.out
        ensures ProbeSound(s', s.out[n]) && Apart(s.out[n], s'.out[s.nextProbe]) && Apart(s'.out[s.nextProbe], s.out[n])
      {
        assert ProbeSound(s, s.out[n]);
      }
      assert ProbeSound(s', s'.out[s.nextProbe]);
    }
  }

  /** While a tick starts, the entries it has marked stay marked. */
  ghost predicate StillMarked(s: State) {
    forall n :: n in s.out && s.out[n].tick == s.nextTick && s.out[n].target.key in s.cache ==> s.cache[s.out[n].target.key].inFlight
  }

  lemma {:induction false} StartEachKeeps(s: State, keys: seq<Key>, now: int)
    requires Sound(s) && StillMarked(s)
    ensures var r := StartEach(s, keys, now); Sound(r) && StillMarked(r) && r.nextTick == s.nextTick && r.counts == s.counts
    decreases |keys|
  {
    if keys != [] {
      StartEachKeeps(s, keys[..|keys| - 1], now);
      StartOneKeeps(StartEach(s, keys[..|keys| - 1], now), keys[|keys| - 1], now);
    }
  }

  lemma StartKeeps(s: State, keys: seq<Key>, now: int)
    requires Sound(s) && TicksStarted(s)
    ensures Sound(Do(s, StartTick(keys, now))) && TicksStarted(Do(s, StartTick(keys, now)))
  {
    StartEachKeeps(s, keys, now);
    var r := StartEach(s, keys, now);
    var s' := r.(nextTick := r.nextTick + 1);
    forall key | key in s'.cache ensures EntrySound(s', key, s'.cache[key]) {
      assert EntrySound(r, key, r.cache[key]);
    }
    forall n | n in s'.out ensures ProbeSound(s', s'.out[n]) && s'.out[n].tick < s'.nextTick {
      assert ProbeSound(r, r.out[n]);
    }
  }

  lemma CheckedKeepsOwner(s: State, n: nat, key: Key)
    requires Sound(s) && n in s.out && key in s.cache
    ensures EntrySound(s.(out := s.out[n := s.out[n].(checked := true)]), key, s.cache[key])
  {
    var out := s.out[n := s.out[n].(checked := true)];
    assert EntrySound(s, key, s.cache[key]);
    if s.cache[key].inFlight {
      var m :| m in s.out && s.out[m].target.key == key && Owns(s.cache[key], s.out[m].target);
      assert out[m].target == s.out[m].target;
    }
  }

  lemma CheckedKeeps(s: State, n: nat)
    requires Sound(s) && n in s.out
    ensures Sound(s.(out := s.out[n := s.out[n].(checked := true)]))
  {
    var s' := s.(out := s.out[n := s.out[n].(checked := true)]);
    forall m | m in s'.out ensures m in s.out && s'.out[m] == s.out[m].(checked := s'.out[m].checked) {
    }
    forall key | key in s'.cache ensures EntrySound(s', key, s'.cache[key]) {
      CheckedKeepsOwner(s, n, key);
    }
    forall m | m in s'.out ensures ProbeSound(s', s'.out[m]) {
      assert ProbeSound(s, s.out[m]);
    }
    forall k, m | k in s'.out && m in s'.out && k != m ensures Apart(s'.out[k], s'.out[m]) {
      assert Apart(s.out[k], s.out[m]);
    }
  }

  lemma PolicyKeepsProbe(s: State, key: Key, p: Policy, now: int, n: nat)
    requires Sound(s) && key in s.cache && n in s.out
    ensures ProbeSound(Do(s, ChangePolicy(key, p, now)), s.out[n])
  {
    assert ProbeSound(s, s.out[n]) && EntrySound(s, key, s.cache[key]);
  }

  lemma PolicyKeepsEntry(s: State, key: Key, p: Policy, now: int, k: Key)
    requires Sound(s) && key in s.cache && k in s.cache
    ensures var s' := Do(s, ChangePolicy(key, p, now)); EntrySound(s', k, s'.cache[k])
  {
    var s' := Do(s, ChangePolicy(key, p, now));
    assert EntrySound(s, k, s.cache[k]) && EntrySound(s, key, s.cache[key]);
    RevisionNext(s.counts[s.cache[key].inst].edits);
    if s'.cache[k].inFlight {
      var n :| n in s.out && s.out[n].target.key == k && Owns(s.cache[k], s.out[n].target);
      assert Owns(s'.cache[k], s'.out[n].target);
    }
  }

  lemma PolicyKeeps(s: State, key: Key, p: Policy, now: int)
    requires Sound(s) && key in s.cache
    ensures Sound(Do(s, ChangePolicy(key, p, now)))
  {
    var s' := Do(s, ChangePolicy(key, p, now));
    forall k | k in s'.cache ensures EntrySound(s', k, s'.cache[k]) {
      PolicyKeepsEntry(s, key, p, now, k);
    }
    forall n | n in s'.out ensures ProbeSound(s', s'.out[n]) {
      PolicyKeepsProbe(s, key, p, now, n);
    }
  }

  lemma InsertKeeps(s: State, key: Key, p: Policy, now: int)
    requires Sound(s)
    ensures Sound(Do(s, Insert(key, p, now)))
  {
    var s' := Do(s, Insert(key, p, now));
    forall k | k in s'.cache ensures EntrySound(s', k, s'.cache[k]) {
      assert k != key ==> EntrySound(s, k, s.cache[k]);
    }
    forall n | n in s'.out ensures ProbeSound(s', s'.out[n]) {
      assert ProbeSound(s, s.out[n]);
    }
  }

  lemma DeleteKeeps(s: State, key: Key)
    requires Sound(s)
    ensures Sound(Do(s, Delete(key)))
  {
    var s' := Do(s, Delete(key));
    forall k | k in s'.cache ensures EntrySound(s', k, s'.cache[k]) {
      assert EntrySound(s, k, s.cache[k]);
    }
    forall n | n in s'.out ensures ProbeSound(s', s'.out[n]) {
      assert ProbeSound(s, s.out[n]);
    }
  }

  lemma PingKeeps(s: State, key: Key, at: int)
    requires Sound(s) && key in s.cache
    ensures Sound(Do(s, Ping(key, at)))
  {
    var s' := Do(s, Ping(key, at));
    forall k | k in s'.cache ensures EntrySound(s', k, s'.cache[k]) {
      assert EntrySound(s, k, s.cache[k]);
      assert HasOwner(s.out, k, s.cache[k]) ==> HasOwner(s'.out, k, s'.cache[k]);
    }
    forall n | n in s'.out ensures ProbeSound(s', s'.out[n]) {
      assert ProbeSound(s, s.out[n]);
    }
  }

  lemma CheckKeeps(s: State, n: nat)
    requires Sound(s) && Enabled(s, CheckTarget(n))
    ensures Sound(Do(s, CheckTarget(n)))
  {
    var t := s.out[n].target;
    if t.key in s.cache && Matches(s.cache[t.key], t) {
      CheckedKeeps(s, n);
    } else {
      CheckEnds(s, n);
      EndsKeeps(s, {n}, Do(s, CheckTarget(n)));
    }
  }

  lemma StepKeeps(s: State, step: Step)
    requires Sound(s) && TicksStarted(s) && Enabled(s, step)
    ensures Sound(Do(s, step)) && TicksStarted(Do(s, step))
  {
    match step
    case StartTick(keys, now) => StartKeeps(s, keys, now);
    case CheckTarget(n) => CheckKeeps(s, n);
    case Result(n, o) =>
      ResultEnds(s, n, o);
      EndsKeeps(s, {n}, Do(s, step));
    case CancelTick(tick) =>
      CancelEnds(s, tick);
      EndsKeeps(s, ProbesOf(s, tick), Do(s, step));
    case ChangePolicy(key, p, now) => PolicyKeeps(s, key, p, now);
    case Insert(key, p, now) => InsertKeeps(s, key, p, now);
    case Delete(key) => DeleteKeeps(s, key);
    case Ping(key, at) => PingKeeps(s, key, at);
  }

  lemma {:induction false} RunKeeps(s: State, steps: seq<Step>)
    requires Sound(s) && TicksStarted(s) && IsRun(s, steps)
    ensures Sound(After(s, steps)) && TicksStarted(After(s, steps))
    decreases |steps|
  {
    if steps != [] {
      StepKeeps(s, steps[0]);
      RunKeeps(Do(s, steps[0]), steps[1..]);
    }
  }

  // ----- one connection and its probes -----

  /** No outstanding probe of a cached connection is as many policy changes old as there are revisions. */
  ghost predicate Young(s: State, inst: Inst) {
    forall n :: n in s.out && s.out[n].target.inst == inst && Cached(s, s.out[n]) ==>
      CountsOf(s, inst).edits - s.out[n].at.edits < MAX_REVISION
  }

  /** Either its probes are young, or the connection has never been switched off. */
  ghost predicate Tame(s: State, inst: Inst) {
    Young(s, inst) || CountsOf(s, inst).offs == 0
  }

  /** A probe holds the mark until a switching off, and two probes have one between them. */
  ghost predicate Held(s: State, inst: Inst) {
    && (forall n :: n in s.out && s.out[n].target.inst == inst && Cached(s, s.out[n]) && s.out[n].at.offs == CountsOf(s, inst).offs ==>
          Owns(s.cache[s.out[n].target.key], s.out[n].target))
    && (forall m, n :: m in s.out && n in s.out && m != n && s.out[m].target.inst == inst && s.out[n].target.inst == inst ==>
          s.out[m].at.offs != s.out[n].at.offs)
  }

  /** A tame connection's mark is owned by one probe only. */
  lemma OneOwner(s: State, key: Key, m: nat, n: nat)
    requires Sound(s) && key in s.cache && m in s.out && n in s.out
    requires Held(s, s.cache[key].inst) && Tame(s, s.cache[key].inst)
    requires Owns(s.cache[key], s.out[m].target) && Owns(s.cache[key], s.out[n].target)
    ensures m == n
  {
    var inst := s.cache[key].inst;
    assert ProbeSound(s, s.out[m]) && ProbeSound(s, s.out[n]);
    assert Cached(s, s.out[m]) && Cached(s, s.out[n]);
    if m != n {
      assert Apart(s.out[m], s.out[n]) && Apart(s.out[n], s.out[m]);
      assert s.out[m].at.offs != s.out[n].at.offs;
      RevisionsTell(s.out[m].at.edits, s.out[n].at.edits);
    }
  }

  lemma EndsHeld(s: State, gone: set<nat>, s': State, inst: Inst)
    requires Sound(s) && Ends(s, gone, s') && Held(s, inst) && Tame(s, inst)
    ensures Held(s', inst)
  {
    forall n | n in s'.out && s'.out[n].target.inst == inst && Cached(s', s'.out[n]) && s'.out[n].at.offs == CountsOf(s', inst).offs
      ensures Owns(s'.cache[s'.out[n].target.key], s'.out[n].target)
    {
      var key := s.out[n].target.key;
      assert Cached(s, s.out[n]);
      if OwnedBySome(s, gone, key) {
        var m :| m in gone && m in s.out && s.out[m].target.key == key && Owns(s.cache[key], s.out[m].target);
        OneOwner(s, key, m, n);
      }
    }
  }

  lemma StartOneHeld(s: State, key: Key, now: int, inst: Inst)
    requires Sound(s) && Held(s, inst)
    ensures Held(StartOne(s, key, now), inst)
  {
    if key in s.cache && Due(s.cache[key], now) {
      var s' := StartOne(s, key, now);
      forall n | n in s.out && s.out[n].target.inst == inst && s.cache[key].inst == inst
        ensures s.out[n].at.offs != CountsOf(s, inst).offs
      {
        assert Cached(s, s.out[n]);
      }
      forall n | n in s.out && s.out[n].target.inst == inst && Cached(s', s.out[n]) ensures Cached(s, s.out[n]) {
      }
    }
  }

  lemma {:induction false} StartEachHeld(s: State, keys: seq<Key>, now: int, inst: Inst)
    requires Sound(s) && StillMarked(s) && Held(s, inst)
    ensures Held(StartEach(s, keys, now), inst)
    decreases |keys|
  {
    if keys != [] {
      StartEachKeeps(s, keys[..|keys| - 1], now);
      StartEachHeld(s, keys[..|keys| - 1], now, inst);
      StartOneHeld(StartEach(s, keys[..|keys| - 1], now), keys[|keys| - 1], now, inst);
    }
  }

  lemma PolicyHeld(s: State, key: Key, p: Policy, now: int, inst: Inst)
    requires Sound(s) && key in s.cache && Held(s, inst)
    ensures Held(Do(s, ChangePolicy(key, p, now)), inst)
  {
    var s' := Do(s, ChangePolicy(key, p, now));
    forall n | n in s'.out && s'.out[n].target.inst == inst && Cached(s', s'.out[n]) && s'.out[n].at.offs == CountsOf(s', inst).offs
      ensures Owns(s'.cache[s'.out[n].target.key], s'.out[n].target)
    {
      assert ProbeSound(s, s.out[n]) && Cached(s, s.out[n]) && EntrySound(s, key, s.cache[key]);
    }
  }

  lemma InsertHeld(s: State, key: Key, p: Policy, now: int, inst: Inst)
    requires Sound(s) && Held(s, inst)
    ensures Held(Do(s, Insert(key, p, now)), inst)
  {
    var s' := Do(s, Insert(key, p, now));
    forall n | n in s'.out && s'.out[n].target.inst == inst && Cached(s', s'.out[n])
      ensures Cached(s, s.out[n]) && s'.cache[s.out[n].target.key] == s.cache[s.out[n].target.key] && CountsOf(s', inst) == CountsOf(s, inst)
    {
      assert ProbeSound(s, s.out[n]);
    }
  }

  lemma CheckedHeld(s: State, n: nat, inst: Inst)
    requires n in s.out && Held(s, inst)
    ensures Held(s.(out := s.out[n := s.out[n].(checked := true)]), inst)
  {
    var s' := s.(out := s.out[n := s.out[n].(checked := true)]);
    assert forall m :: m in s'.out ==> m in s.out && s'.out[m] == s.out[m].(checked := s'.out[m].checked);
    assert forall m :: m in s'.out && Cached(s', s'.out[m]) ==> Cached(s, s.out[m]);
  }

  lemma CheckHeld(s: State, n: nat, inst: Inst)
    requires Sound(s) && Enabled(s, CheckTarget(n)) && Held(s, inst) && Tame(s, inst)
    ensures Held(Do(s, CheckTarget(n)), inst)
  {
    var t := s.out[n].target;
    if t.key in s.cache && Matches(s.cache[t.key], t) {
      CheckedHeld(s, n, inst);
    } else {
      CheckEnds(s, n);
      EndsHeld(s, {n}, Do(s, CheckTarget(n)), inst);
    }
  }

  lemma QuietHeld(s: State, s': State, inst: Inst)
    requires Held(s, inst) && s'.out == s.out && s'.counts == s.counts && s'.cache.Keys <= s.cache.Keys
    requires forall key :: key in s'.cache ==> s'.cache[key] == s.cache[key].(lastPing := s'.cache[key].lastPing)
    ensures Held(s', inst)
  {
    assert forall n :: n in s'.out && Cached(s', s'.out[n]) ==> Cached(s, s.out[n]);
  }

  lemma StepHeld(s: State, step: Step, inst: Inst)
    requires Sound(s) && TicksStarted(s) && Enabled(s, step) && Held(s, inst) && Tame(s, inst)
    ensures Held(Do(s, step), inst)
  {
    match step
    case StartTick(keys, now) =>
      StartEachHeld(s, keys, now, inst);
      StartTickHeld(StartEach(s, keys, now), inst);
    case CheckTarget(n) => CheckHeld(s, n, inst);
    case Result(n, o) =>
      ResultEnds(s, n, o);
      EndsHeld(s, {n}, Do(s, step), inst);
    case CancelTick(tick) =>
      CancelEnds(s, tick);
      EndsHeld(s, ProbesOf(s, tick), Do(s, step), inst);
    case ChangePolicy(key, p, now) => PolicyHeld(s, key, p, now, inst);
    case Insert(key, p, now) => InsertHeld(s, key, p, now, inst);
    case Delete(key) => QuietHeld(s, Do(s, step), inst);
    case Ping(key, at) => QuietHeld(s, Do(s, step), inst);
  }

  lemma StartTickHeld(r: State, inst: Inst)
    requires Held(r, inst)
    ensures Held(r.(nextTick := r.nextTick + 1), inst)
  {
    QuietHeld(r, r.(nextTick := r.nextTick + 1), inst);
  }

  /** The connection is tame throughout the run. */
  ghost predicate StaysTame(s: State, steps: seq<Step>, inst: Inst)
    requires IsRun(s, steps)
    decreases |steps|
  {
    Tame(s, inst) && (steps == [] || StaysTame(Do(s, steps[0]), steps[1..], inst))
  }

  lemma {:induction false} RunHeld(s: State, steps: seq<Step>, inst: Inst)
    requires Sound(s) && TicksStarted(s) && IsRun(s, steps) && Held(s, inst) && StaysTame(s, steps, inst)
    ensures Held(After(s, steps), inst) && Tame(After(s, steps), inst)
    decreases |steps|
  {
    if steps != [] {
      StepKeeps(s, steps[0]);
      StepHeld(s, steps[0], inst);
      RunHeld(Do(s, steps[0]), steps[1..], inst);
    }
  }

  // ----- the steps are those of the code -----

  /** `r` is `s` after a tick collected `ts` and left the cache as `c`. */
  ghost predicate Collected(s: State, r: State, c: Cache, ts: seq<Target>) {
    && r.cache == c
    && r.nextProbe == s.nextProbe + |ts|
    && r.nextTick == s.nextTick
    && r.counts == s.counts
    && forall n :: s.nextProbe <= n < r.nextProbe ==>
         n in r.out && r.out[n] == Probe(ts[n - s.nextProbe], s.nextTick, false, CountsOf(s, ts[n - s.nextProbe].inst))
  }

  lemma CollectedOne(s: State, r: State, c: Cache, ts: seq<Target>, key: Key, now: int)
    requires Collected(s, r, c, ts) && key in c && Due(c[key], now)
    ensures Collected(s, StartOne(r, key, now), c[key := Marked(c[key])], ts + [TargetOf(key, c[key])])
  {
  }

  /** Starting a tick does to the cache what collecting does, and its probes are the targets collected. */
  lemma {:induction false} StartCollects(s: State, keys: seq<Key>, now: int)
    ensures Collected(s, StartEach(s, keys, now), Collect(s.cache, keys, now).0, Collect(s.cache, keys, now).1)
    decreases |keys|
  {
    if keys != [] {
      var front, key := keys[..|keys| - 1], keys[|keys| - 1];
      StartCollects(s, front, now);
      var (c, ts) := Collect(s.cache, front, now);
      if key in c && Due(c[key], now) {
        CollectedOne(s, StartEach(s, front, now), c, ts, key, now);
      }
    }
  }

  /** An entry whose policy is on, with no probe on its way, and for which the interval is over. */
  ghost predicate ProbeDue(e: Entry, now: int) {
    && e.policy.enabled && e.policy.interval > 0 && !e.inFlight
    && (e.lastKeepAliveAt.Some? ==> now - e.lastKeepAliveAt.value >= e.policy.interval)
  }

  /** The target carries what the entry said when it was collected. */
  ghost predicate TakenFrom(t: Target, e: Entry) {
    t.inst == e.inst && t.sql == e.policy.sql && t.dbType == e.policy.dbType && t.revision == e.revision
  }

  /** Collecting marks the entries that are due with their revision, gives one target for each, and changes
      nothing else. */
  lemma CollectsExactlyDue(c: Cache, keys: seq<Key>, now: int)
    ensures var (c', ts) := Collect(c, keys, now);
            && c'.Keys == c.Keys
            && (forall key :: key in c ==>
                  c'[key] == if key in keys && ProbeDue(c[key], now) then c[key].(inFlight := true, inFlightRevision := c[key].revision)
                             else c[key])
            && (forall t :: t in ts <==> t.key in keys && t.key in c && ProbeDue(c[t.key], now) && TakenFrom(t, c[t.key]))
            && (forall i, j :: 0 <= i < j < |ts| ==> ts[i].key != ts[j].key)
  {
    CollectsDue(c, keys, now);
  }

  lemma {:induction false} CollectsDue(c: Cache, keys: seq<Key>, now: int)
    ensures var (c', ts) := Collect(c, keys, now);
            && c'.Keys == c.Keys
            && (forall key :: key in c ==> c'[key] == if key in keys && Due(c[key], now) then Marked(c[key]) else c[key])
            && (forall t :: t in ts <==> t.key in keys && t.key in c && Due(c[t.key], now) && t == TargetOf(t.key, c[t.key]))
            && (forall i, j :: 0 <= i < j < |ts| ==> ts[i].key != ts[j].key)
    decreases |keys|
  {
    if keys != [] {
      var front, last := keys[..|keys| - 1], keys[|keys| - 1];
      CollectsDue(c, front, now);
      assert keys == front + [last];
      var (c', ts) := Collect(c, front, now);
      assert forall i :: 0 <= i < |ts| ==> ts[i] in ts;
    }
  }

  /** The mark of the entry is the target's: of its connection and of its revision. */
  ghost predicate MarkIsOf(e: Entry, t: Target) {
    e.inFlight && e.inst == t.inst && e.inFlightRevision == t.revision
  }

  /** Releasing targets in any order takes back exactly the marks that are theirs. */
  lemma ReleaseAllExactly(c: Cache, ts: seq<Target>, key: Key)
    requires key in c
    ensures key in ReleaseAll(c, ts)
    ensures ReleaseAll(c, ts)[key]
         == if exists i :: 0 <= i < |ts| && ts[i].key == key && MarkIsOf(c[key], ts[i])
            then c[key].(inFlight := false, inFlightRevision := 0) else c[key]
  {
    ReleasesOwned(c, ts, key);
    assert forall i :: 0 <= i < |ts| ==> (Owns(c[key], ts[i]) <==> MarkIsOf(c[key], ts[i]));
  }

  lemma {:induction false} ReleasesOwned(c: Cache, ts: seq<Target>, key: Key)
    requires key in c
    ensures key in ReleaseAll(c, ts)
    ensures ReleaseAll(c, ts)[key]
         == if exists i :: 0 <= i < |ts| && ts[i].key == key && Owns(c[key], ts[i]) then Released(c[key]) else c[key]
    decreases |ts|
  {
    if ts != [] {
      var t, rest := ts[0], ts[1..];
      ReleasesOwned(Release(c, t), rest, key);
      assert forall i :: 0 < i < |ts| ==> ts[i] == rest[i - 1];
      assert forall i :: 0 <= i < |rest| ==> rest[i] == ts[i + 1];
    }
  }

  /** Cancelling a tick does to the cache what releasing its outstanding targets does. */
  lemma CancelReleases(s: State, tick: nat, ts: seq<Target>)
    requires forall t :: t in ts <==> exists n :: n in s.out && s.out[n].tick == tick && s.out[n].target == t
    ensures ReleaseAll(s.cache, ts) == CancelMarks(s, tick)
  {
    var c := ReleaseAll(s.cache, ts);
    forall key | key in s.cache ensures key in c && c[key] == CancelMarks(s, tick)[key] {
      ReleasesOwned(s.cache, ts, key);
      OwnedInList(s, tick, ts, key);
    }
    ReleaseAllKeys(s.cache, ts);
  }

  lemma OwnedInList(s: State, tick: nat, ts: seq<Target>, key: Key)
    requires forall t :: t in ts <==> exists n :: n in s.out && s.out[n].tick == tick && s.out[n].target == t
    requires key in s.cache
    ensures (exists i :: 0 <= i < |ts| && ts[i].key == key && Owns(s.cache[key], ts[i]))
            <==> exists n :: n in s.out && s.out[n].tick == tick && s.out[n].target.key == key && Owns(s.cache[key], s.out[n].target)
  {
    if i :| 0 <= i < |ts| && ts[i].key == key && Owns(s.cache[key], ts[i]) {
      assert ts[i] in ts;
    }
    if n :| n in s.out && s.out[n].tick == tick && s.out[n].target.key == key && Owns(s.cache[key], s.out[n].target) {
      assert s.out[n].target in ts;
    }
  }

  lemma {:induction false} ReleaseAllKeys(c: Cache, ts: seq<Target>)
    ensures ReleaseAll(c, ts).Keys == c.Keys
    decreases |ts|
  {
    if ts != [] {
      ReleaseAllKeys(Release(c, ts[0]), ts[1..]);
    }
  }

  /** Before a probe runs: its target is current if its mark is there and revision, statement and type are still
      those of an entry that is on; one that is not gives its mark back, and nothing else changes. */
  lemma CheckExactly(c: Cache, t: Target)
    ensures var (c', current) := Check(c, t);
            && (current <==> t.key in c && MarkIsOf(c[t.key], t) && c[t.key].policy.enabled && TakenFrom(t, c[t.key]))
            && c' == if !current && t.key in c && MarkIsOf(c[t.key], t)
                     then c[t.key := c[t.key].(inFlight := false, inFlightRevision := 0)] else c
  {
  }

  /** The steps of the rest of the program: a deleted entry is gone, a ping changes its time only, an inserted entry
      has a connection that no entry and no probe has, and other entries and all probes stay as they were. */
  lemma OtherSteps(s: State, step: Step, key: Key, p: Policy, now: int)
    requires Sound(s) && Enabled(s, step) && step in {Delete(key), Ping(key, now), Insert(key, p, now)}
    ensures var r := Do(s, step);
            && r.out == s.out && r.cache - {key} == s.cache - {key}
            && (step == Delete(key) ==> key !in r.cache)
            && (step == Ping(key, now) ==> key in r.cache && r.cache[key] == s.cache[key].(lastPing := Some(now)))
            && (step == Insert(key, p, now) ==>
                  && key in r.cache && r.cache[key] == NewEntry(r.cache[key].inst, p, now)
                  && (forall k :: k in s.cache ==> s.cache[k].inst != r.cache[key].inst)
                  && (forall n :: n in s.out ==> s.out[n].target.inst != r.cache[key].inst))
  {
    forall k | k in s.cache ensures s.cache[k].inst < |s.counts| {
      assert EntrySound(s, k, s.cache[k]);
    }
    forall n | n in s.out ensures s.out[n].target.inst < |s.counts| {
      assert ProbeSound(s, s.out[n]);
    }
  }

  // ----- which runs are tame -----

  lemma {:induction false} StartKeepsCounts(s: State, keys: seq<Key>, now: int)
    ensures StartEach(s, keys, now).counts == s.counts
    decreases |keys|
  {
    if keys != [] {
      StartKeepsCounts(s, keys[..|keys| - 1], now);
    }
  }

  lemma StepCounts(s: State, step: Step, inst: Inst)
    requires Enabled(s, step)
    ensures CountsOf(s, inst).edits <= CountsOf(Do(s, step), inst).edits <= CountsOf(s, inst).edits + 1
    ensures CountsOf(s, inst).offs <= CountsOf(Do(s, step), inst).offs
  {
    if step.StartTick? {
      StartKeepsCounts(s, step.keys, step.now);
    }
  }

  /** Runs with fewer steps than there are revisions are tame. */
  lemma {:induction false} ShortRunsStayTame(s: State, steps: seq<Step>, inst: Inst)
    requires IsRun(s, steps) && CountsOf(s, inst).edits + |steps| < MAX_REVISION
    ensures StaysTame(s, steps, inst)
    decreases |steps|
  {
    if steps != [] {
      StepCounts(s, steps[0], inst);
      ShortRunsStayTame(Do(s, steps[0]), steps[1..], inst);
    }
  }

  /** So are runs of any length for a connection that is not switched off. */
  lemma {:induction false} NeverOffStaysTame(s: State, steps: seq<Step>, inst: Inst)
    requires IsRun(s, steps) && CountsOf(After(s, steps), inst).offs == 0
    ensures StaysTame(s, steps, inst) && CountsOf(s, inst).offs == 0
    decreases |steps|
  {
    if steps != [] {
      StepCounts(s, steps[0], inst);
      NeverOffStaysTame(Do(s, steps[0]), steps[1..], inst);
    }
  }

  // ----- main results -----

  /** In every run each mark is owned by an outstanding probe. */
  lemma MarksNeverLeak(steps: seq<Step>, key: Key)
    requires IsRun(EMPTY, steps)
    requires key in After(EMPTY, steps).cache && After(EMPTY, steps).cache[key].inFlight
    ensures HasOwner(After(EMPTY, steps).out, key, After(EMPTY, steps).cache[key])
  {
    RunKeeps(EMPTY, steps);
    assert EntrySound(After(EMPTY, steps), key, After(EMPTY, steps).cache[key]);
  }

  /** In every run in which the connection stays tame, only one owns it. */
  lemma MarksHaveOneOwner(steps: seq<Step>, key: Key, m: nat, n: nat)
    requires IsRun(EMPTY, steps) && key in After(EMPTY, steps).cache
    requires StaysTame(EMPTY, steps, After(EMPTY, steps).cache[key].inst)
    requires var s := After(EMPTY, steps);
             m in s.out && n in s.out && Owns(s.cache[key], s.out[m].target) && Owns(s.cache[key], s.out[n].target)
    ensures m == n
  {
    var s := After(EMPTY, steps);
    RunKeeps(EMPTY, steps);
    RunHeld(EMPTY, steps, s.cache[key].inst);
    OneOwner(s, key, m, n);
  }

  /** In every run a tick that is through owns no mark. */
  lemma FinishedTickOwnsNothing(steps: seq<Step>, tick: nat)
    requires IsRun(EMPTY, steps)
    requires forall n :: n in After(EMPTY, steps).out ==> After(EMPTY, steps).out[n].tick != tick
    ensures var s := After(EMPTY, steps);
            forall key :: key in s.cache && s.cache[key].inFlight ==>
              exists n :: n in s.out && s.out[n].tick != tick && s.out[n].target.key == key && Owns(s.cache[key], s.out[n].target)
  {
    var s := After(EMPTY, steps);
    forall key | key in s.cache && s.cache[key].inFlight
      ensures exists n :: n in s.out && s.out[n].tick != tick && s.out[n].target.key == key && Owns(s.cache[key], s.out[n].target)
    {
      MarksNeverLeak(steps, key);
    }
  }

  /** In every run, of the outstanding probes of one tick no two are of one key. */
  lemma TickProbesDistinct(steps: seq<Step>, m: nat, n: nat)
    requires IsRun(EMPTY, steps) && m in After(EMPTY, steps).out && n in After(EMPTY, steps).out && m != n
    requires After(EMPTY, steps).out[m].tick == After(EMPTY, steps).out[n].tick
    ensures After(EMPTY, steps).out[m].target.key != After(EMPTY, steps).out[n].target.key
  {
    RunKeeps(EMPTY, steps);
    assert Apart(After(EMPTY, steps).out[m], After(EMPTY, steps).out[n]);
  }

  /** In every run a connection that has not been switched off has at most one outstanding probe. */
  lemma OneProbePerConnection(steps: seq<Step>, m: nat, n: nat)
    requires IsRun(EMPTY, steps) && m in After(EMPTY, steps).out && n in After(EMPTY, steps).out
    requires var s := After(EMPTY, steps);
             s.out[m].target.inst == s.out[n].target.inst && CountsOf(s, s.out[m].target.inst).offs == 0
    ensures m == n
  {
    var s := After(EMPTY, steps);
    var inst := s.out[m].target.inst;
    RunKeeps(EMPTY, steps);
    NeverOffStaysTame(EMPTY, steps, inst);
    RunHeld(EMPTY, steps, inst);
    assert ProbeSound(s, s.out[m]) && ProbeSound(s, s.out[n]);
  }

  /** In every run in which the connection stays tame, two outstanding probes of it have a switching off
      between them: at most one is outstanding for each time that it was on. */
  lemma ProbesDistinct(steps: seq<Step>, m: nat, n: nat)
    requires IsRun(EMPTY, steps) && m in After(EMPTY, steps).out && n in After(EMPTY, steps).out && m != n
    requires After(EMPTY, steps).out[m].target.inst == After(EMPTY, steps).out[n].target.inst
    requires StaysTame(EMPTY, steps, After(EMPTY, steps).out[m].target.inst)
    ensures After(EMPTY, steps).out[m].at.offs != After(EMPTY, steps).out[n].at.offs
    ensures After(EMPTY, steps).out[m].at.edits != After(EMPTY, steps).out[n].at.edits
  {
    var s := After(EMPTY, steps);
    RunKeeps(EMPTY, steps);
    RunHeld(EMPTY, steps, s.out[m].target.inst);
    assert Apart(s.out[m], s.out[n]) && Apart(s.out[n], s.out[m]);
  }

  /** In every run a probe whose connection is the entry's is current if and only if the number of policy
      changes since is a multiple of the number of revisions, the mark carries its revision, and the
      policy is on with the statement and the type that were collected. */
  lemma CurrentIff(steps: seq<Step>, n: nat)
    requires IsRun(EMPTY, steps) && n in After(EMPTY, steps).out && Cached(After(EMPTY, steps), After(EMPTY, steps).out[n])
    ensures var s := After(EMPTY, steps);
            var p := s.out[n];
            var e := s.cache[p.target.key];
            Matches(e, p.target) <==>
              && (CountsOf(s, e.inst).edits - p.at.edits) % MAX_REVISION == 0
              && e.inFlight && e.inFlightRevision == p.target.revision
              && e.policy.enabled && e.policy.sql == p.target.sql && e.policy.dbType == p.target.dbType
  {
    RunKeeps(EMPTY, steps);
    var s := After(EMPTY, steps);
    var p := s.out[n];
    assert ProbeSound(s, p) && EntrySound(s, p.target.key, s.cache[p.target.key]);
    RevisionsTell(CountsOf(s, p.target.inst).edits, p.at.edits);
  }

  /** In every run in which the connection stays tame and its probes are young at the end, that means:
      if and only if its policy has not been changed since. */
  lemma CurrentIffUnchanged(steps: seq<Step>, n: nat)
    requires IsRun(EMPTY, steps) && n in After(EMPTY, steps).out && Cached(After(EMPTY, steps), After(EMPTY, steps).out[n])
    requires var inst := After(EMPTY, steps).out[n].target.inst;
             StaysTame(EMPTY, steps, inst) && Young(After(EMPTY, steps), inst)
    ensures var s := After(EMPTY, steps);
            var p := s.out[n];
            Matches(s.cache[p.target.key], p.target) <==> CountsOf(s, p.target.inst).edits == p.at.edits
  {
    var s := After(EMPTY, steps);
    var p := s.out[n];
    RunKeeps(EMPTY, steps);
    RunHeld(EMPTY, steps, p.target.inst);
    assert ProbeSound(s, p) && EntrySound(s, p.target.key, s.cache[p.target.key]);
    RevisionsTell(CountsOf(s, p.target.inst).edits, p.at.edits);
  }

  /** In every run a result that comes after the connection was replaced, or after a number of policy
      changes that is no multiple of the number of revisions, touches no time, evicts nothing and leaves
      every other entry alone: it can only give back its own mark. */
  lemma LateResultHarmless(steps: seq<Step>, n: nat, o: Outcome)
    requires IsRun(EMPTY, steps) && n in After(EMPTY, steps).out
    requires var s := After(EMPTY, steps);
             var p := s.out[n];
             !Cached(s, p) || (CountsOf(s, p.target.inst).edits - p.at.edits) % MAX_REVISION != 0
    ensures var s := After(EMPTY, steps);
            var c := Settle(s.cache, s.out[n].target, o);
            && c.Keys == s.cache.Keys
            && forall key :: key in c ==>
                 || c[key] == s.cache[key]
                 || (key == s.out[n].target.key && MarkIsOf(s.cache[key], s.out[n].target)
                     && c[key] == s.cache[key].(inFlight := false, inFlightRevision := 0))
  {
    if Cached(After(EMPTY, steps), After(EMPTY, steps).out[n]) {
      CurrentIff(steps, n);
    }
  }

  /** The result of a probe that is current is recorded: after a success or a skip the entry has its mark
      back and is not due again within its interval, after a failure it is gone; nothing else changes. */
  lemma CurrentResultRecorded(s: State, n: nat, o: Outcome)
    requires n in s.out && s.out[n].target.key in s.cache && Matches(s.cache[s.out[n].target.key], s.out[n].target)
    ensures var key := s.out[n].target.key;
            var c := Settle(s.cache, s.out[n].target, o);
            && c - {key} == s.cache - {key}
            && (key in c <==> o != Failed)
            && (key in c ==> !c[key].inFlight && c[key].inst == s.cache[key].inst && c[key].policy == s.cache[key].policy)
            && (key in c ==> forall now :: Due(c[key], now) <==> now - o.at >= c[key].policy.interval > 0)
            && (o.Succeeded? ==> c[key].lastPing == Some(o.at))
            && (o.Skipped? ==> c[key].lastPing == s.cache[key].lastPing)
  {
  }

  /** What a change of the policy does to the schedule: switching off takes the mark away and ends the probes;
      switching on, or a first probe still to come, counts the interval from now; any other change counts the
      new interval from the last probe and leaves the mark. A new entry counts from when it was made. */
  lemma PolicyChangeSchedules(e: Entry, p: Policy, now: int, inst: Inst, at: int)
    ensures var e' := ApplyPolicy(e, p, now);
            && e'.policy == p && e'.inst == e.inst && e'.lastPing == e.lastPing
            && (p == e.policy ==> e' == e)
            && (p != e.policy ==> e'.revision == if e.revision == 0xffff_ffff_ffff_ffff then 1 else e.revision + 1)
            && (p != e.policy && !p.enabled ==> !e'.inFlight && e'.lastKeepAliveAt == None)
            && (p != e.policy && p.enabled ==> e'.inFlight == e.inFlight && e'.inFlightRevision == e.inFlightRevision)
            && (p != e.policy && p.enabled && !e.inFlight ==>
                  var from := if e.policy.enabled && e.lastKeepAliveAt.Some? then e.lastKeepAliveAt.value else now;
                  ProbeDue(e', at) <==> p.interval > 0 && at - from >= p.interval)
    ensures ProbeDue(NewEntry(inst, p, now), at) <==> p.enabled && p.interval > 0 && at - now >= p.interval
    ensures NewEntry(inst, p, now).inst == inst && NewEntry(inst, p, now).policy == p
  {
  }

  // ----- two probes of one connection -----

  function On(sql: string): Policy {
    Policy(true, 1, sql, "")
  }

  const OFF := Policy(false, 1, "", "")

  /** Switching a connection off and on again lets the next tick collect it while the probe of the tick
      before is still out. */
  lemma OffAndOnLetsInASecond(key: Key) returns (steps: seq<Step>)
    ensures IsRun(EMPTY, steps)
    ensures var s := After(EMPTY, steps);
            && 0 in s.out && 1 in s.out
            && s.out[0].target.key == s.out[1].target.key == key
            && s.out[0].target.inst == s.out[1].target.inst
            && s.out[1].at.offs == s.out[0].at.offs + 1
  {
    steps := [Insert(key, On(""), 0), StartTick([key], 1), ChangePolicy(key, OFF, 1), ChangePolicy(key, On(""), 1), StartTick([key], 2)];
    var a := Do(EMPTY, steps[0]);
    StartsOne(a, key, 1);
    var b := Do(a, steps[1]);
    var c := Do(Do(b, steps[2]), steps[3]);
    StartsOne(c, key, 2);
    TwoSteps(EMPTY, steps);
    TwoSteps(b, steps[2..]);
    OneStep(c, steps[4..][0]);
  }

  lemma StartsOne(s: State, key: Key, now: int)
    ensures Do(s, StartTick([key], now)) == StartOne(s, key, now).(nextTick := s.nextTick + 1)
  {
    assert [key][..0] == [];
    assert StartEach(s, [], now) == s;
    assert StartEach(s, [key], now) == StartOne(s, key, now);
  }

  lemma OneStep(s: State, step: Step)
    requires Enabled(s, step)
    ensures IsRun(s, [step]) && After(s, [step]) == Do(s, step)
  {
  }

  lemma TwoSteps(s: State, steps: seq<Step>)
    requires |steps| >= 2 && Enabled(s, steps[0]) && Enabled(Do(s, steps[0]), steps[1])
    ensures IsRun(s, steps) <==> IsRun(Do(Do(s, steps[0]), steps[1]), steps[2..])
    ensures IsRun(s, steps) ==> After(s, steps) == After(Do(Do(s, steps[0]), steps[1]), steps[2..])
  {
    assert steps[1..][1..] == steps[2..];
  }

  lemma {:induction false} RunConcat(s: State, a: seq<Step>, b: seq<Step>)
    requires IsRun(s, a) && IsRun(After(s, a), b)
    ensures IsRun(s, a + b) && After(s, a + b) == After(After(s, a), b)
    decreases |a|
  {
    if a == [] {
      assert a + b == b;
    } else {
      assert (a + b)[1..] == a[1..] + b;
      RunConcat(Do(s, a[0]), a[1..], b);
    }
  }

  // ----- why the age matters -----

  /** Three policies in turn, all of them on. */
  function PolicyNumber(k: nat): Policy {
    On(if k % 3 == 0 then "" else if k % 3 == 1 then "a" else "bb")
  }

  function Turning(key: Key, j: nat, k: nat): seq<Step> {
    seq(k, i requires 0 <= i < k => ChangePolicy(key, PolicyNumber(j + i + 1), 0))
  }

  function Turned(key: Key, s: State, now: Counts, marked: bool): State {
    s.(cache := map[key := Entry(0, Some(0), Some(0), PolicyNumber(now.edits), RevisionOf(now.edits), marked, if marked then 1 else 0)],
       counts := [now])
  }

  lemma TurnOnce(key: Key, s: State, now: Counts, marked: bool)
    ensures Do(Turned(key, s, now, marked), ChangePolicy(key, PolicyNumber(now.edits + 1), 0))
         == Turned(key, s, now.(edits := now.edits + 1), marked)
  {
    RevisionNext(now.edits);
    assert |PolicyNumber(now.edits).sql| == now.edits % 3 && |PolicyNumber(now.edits + 1).sql| == (now.edits + 1) % 3;
  }

  /** Changing the policy any number of times keeps the mark, or its absence, and the probes. */
  lemma {:induction false} TurningTurns(key: Key, s: State, now: Counts, marked: bool, k: nat)
    ensures var steps, at := Turning(key, now.edits, k), Turned(key, s, now, marked);
            IsRun(at, steps) && After(at, steps) == Turned(key, s, now.(edits := now.edits + k), marked)
    decreases k
  {
    if k > 0 {
      var steps := Turning(key, now.edits, k);
      assert steps[1..] == Turning(key, now.edits + 1, k - 1);
      TurnOnce(key, s, now, marked);
      TurningTurns(key, s, now.(edits := now.edits + 1), marked, k - 1);
    }
  }

  function FirstProbe(key: Key): Probe {
    Probe(Target(key, 0, "", "", 1), 0, false, Counts(0, 0))
  }

  /** The first probe is out. */
  function Begun(key: Key): State {
    State(map[], map[0 := FirstProbe(key)], 1, 1, [])
  }

  function Begin(key: Key): seq<Step> {
    [Insert(key, On(""), 0), StartTick([key], 1)]
  }

  lemma Begins(key: Key)
    ensures IsRun(EMPTY, Begin(key)) && After(EMPTY, Begin(key)) == Turned(key, Begun(key), Counts(0, 0), true)
  {
    var a := Do(EMPTY, Begin(key)[0]);
    StartsOne(a, key, 1);
    TwoSteps(EMPTY, Begin(key));
    assert PolicyNumber(0) == On("");
    assert Do(a, Begin(key)[1]) == Turned(key, Begun(key), Counts(0, 0), true);
  }

  /** A run in which the revision of an entry has gone all the way round while a probe was out: the
      probe is taken for current, although the policy has been changed since. */
  lemma OldProbeMistaken(key: Key) returns (steps: seq<Step>)
    ensures IsRun(EMPTY, steps)
    ensures var s := After(EMPTY, steps);
            && 0 in s.out && s.out[0].target.key == key && Cached(s, s.out[0])
            && Matches(s.cache[key], s.out[0].target)
            && CountsOf(s, 0).edits == s.out[0].at.edits + MAX_REVISION
  {
    var turning := Turning(key, 0, MAX_REVISION);
    steps := Begin(key) + turning;
    Begins(key);
    TurningTurns(key, Begun(key), Counts(0, 0), true, MAX_REVISION);
    RunConcat(EMPTY, Begin(key), turning);
    RevisionsTell(MAX_REVISION, 0);
  }

  lemma SwitchesOff(key: Key)
    ensures var steps, at := [ChangePolicy(key, OFF, 0), ChangePolicy(key, PolicyNumber(2), 0)], Turned(key, Begun(key), Counts(0, 0), true);
            IsRun(at, steps) && After(at, steps) == Turned(key, Begun(key), Counts(2, 1), false)
  {
    var steps, at := [ChangePolicy(key, OFF, 0), ChangePolicy(key, PolicyNumber(2), 0)], Turned(key, Begun(key), Counts(0, 0), true);
    RevisionNext(0);
    RevisionNext(1);
    TwoSteps(at, steps);
    assert Do(Do(at, steps[0]), steps[1]) == Turned(key, Begun(key), Counts(2, 1), false);
  }

  /** The old probe gives back the mark of a new one, and the next tick collects the connection again. */
  lemma OldProbeReleases(key: Key, at: State)
    requires at == Turned(key, Begun(key), Counts(MAX_REVISION, 1), false)
    ensures var steps := [StartTick([key], 1), CheckTarget(0), Result(0, Succeeded(1)), StartTick([key], 2)];
            && IsRun(at, steps)
            && var s := After(at, steps);
            && 1 in s.out && 2 in s.out
            && s.out[1].target == s.out[2].target && s.out[1].at == s.out[2].at
  {
    var steps := [StartTick([key], 1), CheckTarget(0), Result(0, Succeeded(1)), StartTick([key], 2)];
    RevisionsTell(MAX_REVISION, 0);
    StartsOne(at, key, 1);
    var b := Do(at, steps[0]);
    assert Matches(b.cache[key], b.out[0].target);
    var c := Do(b, steps[1]);
    var d := Do(c, steps[2]);
    StartsOne(d, key, 2);
    TwoSteps(at, steps);
    TwoSteps(c, steps[2..]);
  }

  /** A run in which two probes of one connection are out with no switching off between them: an older
      probe with the same revision has given back the first one's mark. */
  lemma OldProbeLetsInASecond(key: Key) returns (steps: seq<Step>)
    ensures IsRun(EMPTY, steps)
    ensures var s := After(EMPTY, steps);
            1 in s.out && 2 in s.out && s.out[1].target == s.out[2].target && s.out[1].at == s.out[2].at
  {
    var off := [ChangePolicy(key, OFF, 0), ChangePolicy(key, PolicyNumber(2), 0)];
    var turning := Turning(key, 2, MAX_REVISION - 2);
    var last := [StartTick([key], 1), CheckTarget(0), Result(0, Succeeded(1)), StartTick([key], 2)];
    Begins(key);
    SwitchesOff(key);
    RunConcat(EMPTY, Begin(key), off);
    TurningTurns(key, Begun(key), Counts(2, 1), false, MAX_REVISION - 2);
    RunConcat(EMPTY, Begin(key) + off, turning);
    OldProbeReleases(key, After(EMPTY, Begin(key) + off + turning));
    RunConcat(EMPTY, Begin(key) + off + turning, last);
    steps := Begin(key) + off + turning + last;
  }
}
