/** The connection and the transaction sessions that a driver agent holds. Drivers are outside: what
    they answer comes with each request. */
module AgentSessions {
  import opened Options
  import opened AgentQueue

  /** Connections and sessions, numbered as the drivers create them. */
  type Handle = nat

  type SessionId = int

  datatype Opening = Unsupported | OpenFails | OpensNothing | Opens

  datatype Connecting = NoConfig | NoDriver | ConnectFails | Connects

  datatype Call = Connect(c: Connecting) | Close | OpenSession(o: Opening) | CloseSession(id: Option<SessionId>) | Lookup(id: Option<SessionId>)

  datatype Runtime = Runtime(
    inst: Option<Handle>,
    sessions: map<SessionId, Option<Handle>>,
    nextSessionID: int,
    made: nat,
    closed: multiset<Handle>,
    issued: seq<SessionId>)

  const START := Runtime(None, map[], 0, 0, multiset{}, [])

  // ----- the requests -----

  function SessionHandles(sessions: map<SessionId, Option<Handle>>): (r: set<Handle>)
    ensures forall id :: id in sessions && sessions[id].Some? ==> sessions[id].value in r
    ensures forall h :: h in r ==> exists id :: id in sessions && sessions[id] == Some(h)
  {
    set id | id in sessions && sessions[id].Some? :: sessions[id].value
  }

  function InstHandles(inst: Option<Handle>): set<Handle> {
    if inst.Some? then {inst.value} else {}
  }

  /** `close`: every session and the connection are closed and forgotten. */
  function CloseAll(r: Runtime): Runtime {
    r.(inst := None, sessions := map[],
       closed := r.closed + multiset(SessionHandles(r.sessions)) + multiset(InstHandles(r.inst)))
  }

  function ConnectWith(r: Runtime, c: Connecting): Runtime {
    match c
    case NoConfig => r
    case NoDriver => CloseAll(r)
    case ConnectFails => CloseAll(r)
    case Connects => CloseAll(r).(inst := Some(r.made), made := r.made + 1)
  }

  function Open(r: Runtime, o: Opening): Runtime {
    if r.inst == None || o == Unsupported || o == OpenFails then r
    else
      var id := Increment(r.nextSessionID);
      var next := r.(nextSessionID := id, issued := r.issued + [id]);
      if o == OpensNothing then next.(sessions := r.sessions[id := None])
      else next.(sessions := r.sessions[id := Some(r.made)], made := r.made + 1)
  }

  function CloseOne(r: Runtime, id: Option<SessionId>): Runtime {
    if id == None || id.value !in r.sessions then r
    else
      var session := r.sessions[id.value];
      r.(sessions := r.sessions - {id.value}, closed := r.closed + multiset(InstHandles(session)))
  }

  function Serve(r: Runtime, call: Call): Runtime {
    match call
    case Connect(c) => ConnectWith(r, c)
    case Close => if r.inst.Some? then CloseAll(r) else r
    case OpenSession(o) => Open(r, o)
    case CloseSession(id) => CloseOne(r, id)
    case Lookup(_) => r
  }

  function ServeAll(r: Runtime, calls: seq<Call>): Runtime
    decreases |calls|
  {
    if calls == [] then r else ServeAll(Serve(r, calls[0]), calls[1..])
  }

  /** A session a request may use. */
  function SessionFor(r: Runtime, id: Option<SessionId>): Option<Handle> {
    if id.Some? && id.value in r.sessions then r.sessions[id.value] else None
  }

  // ----- what always holds -----

  ghost predicate Live(r: Runtime, h: Handle) {
    r.inst == Some(h) || h in SessionHandles(r.sessions)
  }

  /** Different sessions are different objects, and none of them is the connection. */
  ghost predicate Apart(r: Runtime) {
    && (forall a, b :: a in r.sessions && b in r.sessions && a != b && r.sessions[a].Some? ==> r.sessions[a] != r.sessions[b])
    && (r.inst.Some? ==> r.inst.value !in SessionHandles(r.sessions))
  }

  /** Closed at most once, never while held, and never before it was opened. */
  ghost predicate ClosedAtMostOnce(r: Runtime) {
    forall h: Handle :: r.closed[h] <= if h < r.made && !Live(r, h) then 1 else 0
  }

  ghost predicate Sound(r: Runtime) {
    && (r.inst == None ==> r.sessions == map[])
    && Apart(r)
    && (forall h: Handle :: Live(r, h) ==> h < r.made)
    && ClosedAtMostOnce(r)
  }

  /** Opened, no longer held, and never closed. */
  ghost predicate Lost(r: Runtime, h: Handle) {
    h < r.made && !Live(r, h) && r.closed[h] == 0
  }

  /** The session that a call pushes out of the table, if the id it gives out is still held. */
  function Displaced(r: Runtime, call: Call): Option<Handle> {
    if call.OpenSession? && r.inst.Some? && (call.o == Opens || call.o == OpensNothing) then
      SessionFor(r, Some(Increment(r.nextSessionID)))
    else None
  }

  lemma CloseAllCounts(r: Runtime, h: Handle)
    requires Apart(r)
    ensures CloseAll(r).closed[h] == r.closed[h] + if Live(r, h) then 1 else 0
  {
    assert multiset(SessionHandles(r.sessions))[h] == if h in SessionHandles(r.sessions) then 1 else 0;
    assert multiset(InstHandles(r.inst))[h] == if h in InstHandles(r.inst) then 1 else 0;
    assert CloseAll(r).closed[h] == r.closed[h] + multiset(SessionHandles(r.sessions))[h] + multiset(InstHandles(r.inst))[h];
    assert Live(r, h) <==> h in SessionHandles(r.sessions) || h in InstHandles(r.inst);
  }

  lemma CloseAllSound(r: Runtime)
    requires Sound(r)
    ensures Sound(CloseAll(r)) && forall h: Handle :: Lost(CloseAll(r), h) <==> Lost(r, h)
  {
    forall h: Handle ensures CloseAll(r).closed[h] == r.closed[h] + if Live(r, h) then 1 else 0 {
      CloseAllCounts(r, h);
    }
  }

  lemma ReplacedHandles(sessions: map<SessionId, Option<Handle>>, id: SessionId, session: Option<Handle>)
    ensures SessionHandles(sessions[id := session]) == SessionHandles(sessions - {id}) + InstHandles(session)
  {
    AddedHandles(sessions - {id}, id, session);
    assert (sessions - {id})[id := session] == sessions[id := session];
  }

  lemma OpenedLive(r: Runtime, o: Opening, h: Handle)
    requires Sound(r) && r.inst.Some? && (o == Opens || o == OpensNothing)
    ensures Live(Open(r, o), h) <==> (Live(r, h) && Displaced(r, OpenSession(o)) != Some(h)) || (o == Opens && h == r.made)
  {
    var id := Increment(r.nextSessionID);
    var session := if o == Opens then Some(r.made) else None;
    assert Open(r, o).sessions == r.sessions[id := session];
    ReplacedHandles(r.sessions, id, session);
    if id in r.sessions {
      RemovedHandles(r.sessions, id);
    } else {
      assert r.sessions - {id} == r.sessions;
    }
  }

  lemma OpenedApart(r: Runtime, o: Opening)
    requires Sound(r)
    ensures Apart(Open(r, o))
  {
    var r' := Open(r, o);
    if r' != r {
      assert forall k :: k in r.sessions && r.sessions[k].Some? ==> Live(r, r.sessions[k].value);
      assert Live(r, r.inst.value);
      OpenedLive(r, o, r.inst.value);
      var id := Increment(r.nextSessionID);
      assert forall k :: k in r'.sessions && k != id ==> r'.sessions[k] == r.sessions[k];
      assert r.inst.value !in SessionHandles(r'.sessions);
    }
  }

  lemma OpenSound(r: Runtime, o: Opening)
    requires Sound(r)
    ensures Sound(Open(r, o))
    ensures forall h: Handle :: Lost(Open(r, o), h) <==> Lost(r, h) || Displaced(r, OpenSession(o)) == Some(h)
  {
    OpenedApart(r, o);
    var r' := Open(r, o);
    if r' != r {
      forall h ensures Live(r', h) <==> (Live(r, h) && Displaced(r, OpenSession(o)) != Some(h)) || (o == Opens && h == r.made) {
        OpenedLive(r, o, h);
      }
      assert Displaced(r, OpenSession(o)).Some? ==> Live(r, Displaced(r, OpenSession(o)).value);
    }
  }

  lemma CloseOneSound(r: Runtime, id: Option<SessionId>)
    requires Sound(r)
    ensures Sound(CloseOne(r, id)) && forall h: Handle :: Lost(CloseOne(r, id), h) <==> Lost(r, h)
  {
    if id.Some? && id.value in r.sessions {
      StillApart(r, id.value);
      RemovedHandles(r.sessions, id.value);
      var session := r.sessions[id.value];
      assert forall h: Handle :: Live(CloseOne(r, id), h) <==> Live(r, h) && session != Some(h);
      forall h: Handle ensures CloseOne(r, id).closed[h] == r.closed[h] + if session == Some(h) then 1 else 0 {
        assert multiset(InstHandles(session))[h] == if h in InstHandles(session) then 1 else 0;
      }
    }
  }

  lemma RemovedHandles(sessions: map<SessionId, Option<Handle>>, id: SessionId)
    requires id in sessions
    requires forall a, b :: a in sessions && b in sessions && a != b && sessions[a].Some? ==> sessions[a] != sessions[b]
    ensures SessionHandles(sessions) == SessionHandles(sessions - {id}) + InstHandles(sessions[id])
    ensures InstHandles(sessions[id]) !! SessionHandles(sessions - {id})
  {
    var rest := sessions - {id};
    assert forall k :: k in sessions && k != id ==> k in rest && rest[k] == sessions[k];
  }

  lemma MultisetJoin(a: set<Handle>, b: set<Handle>)
    requires a !! b
    ensures multiset(a + b) == multiset(a) + multiset(b)
  {
  }

  /** Closing a session first makes no difference to closing everything. */
  lemma CloseOneThenAll(r: Runtime, id: SessionId)
    requires Apart(r) && id in r.sessions
    ensures CloseAll(CloseOne(r, Some(id))) == CloseAll(r) && Apart(CloseOne(r, Some(id)))
    ensures |CloseOne(r, Some(id)).sessions| < |r.sessions|
  {
    var one := multiset(InstHandles(r.sessions[id]));
    var rest := multiset(SessionHandles(r.sessions - {id}));
    RemovedHandles(r.sessions, id);
    FewerSessions(r.sessions, id);
    SumSwaps(r.closed, one, rest, multiset(InstHandles(r.inst)));
    StillApart(r, id);
    MultisetJoin(SessionHandles(r.sessions - {id}), InstHandles(r.sessions[id]));
  }

  lemma StillApart(r: Runtime, id: SessionId)
    requires Apart(r) && id in r.sessions
    ensures Apart(CloseOne(r, Some(id)))
  {
    RemovedHandles(r.sessions, id);
  }

  lemma SumSwaps(a: multiset<Handle>, b: multiset<Handle>, c: multiset<Handle>, d: multiset<Handle>)
    ensures a + b + c + d == a + (c + b) + d
  {
  }

  lemma FewerSessions(sessions: map<SessionId, Option<Handle>>, id: SessionId)
    requires id in sessions
    ensures |sessions - {id}| < |sessions|
  {
    assert sessions.Keys == (sessions - {id}).Keys + {id};
  }

  lemma AddedHandles(sessions: map<SessionId, Option<Handle>>, id: SessionId, session: Option<Handle>)
    requires id !in sessions
    ensures SessionHandles(sessions[id := session]) == SessionHandles(sessions) + InstHandles(session)
  {
    var more := sessions[id := session];
    assert more[id] == session;
    assert forall k :: k in sessions ==> more[k] == sessions[k];
  }

  // ----- session ids -----

  /** The number that `n` increments of a 64-bit counter from zero give. */
  function Wrapped(n: nat): int {
    (n + 0x8000_0000_0000_0000) % 0x1_0000_0000_0000_0000 - 0x8000_0000_0000_0000
  }

  lemma WrappedNext(n: nat)
    ensures Increment(Wrapped(n)) == Wrapped(n + 1)
  {
  }

  /** Two counts give the same number exactly when they are a multiple of 2^64 apart. */
  lemma WrappedSame(m: nat, n: nat)
    ensures Wrapped(m) == Wrapped(n) <==> (n - m) % 0x1_0000_0000_0000_0000 == 0
  {
    var k := 0x1_0000_0000_0000_0000;
    var a, b := m + 0x8000_0000_0000_0000, n + 0x8000_0000_0000_0000;
    assert b - a == k * (b / k - a / k) + (b % k - a % k);
    assert -k < b % k - a % k < k;
    if b % k == a % k {
      assert b - a == k * (b / k - a / k);
    }
  }

  /** The ids given out so far are the values of the counter, and held sessions have such ids. */
  ghost predicate Numbered(r: Runtime) {
    && r.nextSessionID == Wrapped(|r.issued|)
    && (forall i :: 0 <= i < |r.issued| ==> r.issued[i] == Wrapped(i + 1))
    && (forall id :: id in r.sessions ==> id in r.issued)
  }

  lemma NewIdIsNew(r: Runtime)
    requires Numbered(r) && |r.issued| < 0x1_0000_0000_0000_0000
    ensures Increment(r.nextSessionID) !in r.issued && Increment(r.nextSessionID) !in r.sessions
  {
    WrappedNext(|r.issued|);
    forall i | 0 <= i < |r.issued| ensures r.issued[i] != Increment(r.nextSessionID) {
      WrappedSame(i + 1, |r.issued| + 1);
    }
  }

  lemma ServeNumbered(r: Runtime, call: Call)
    requires Numbered(r)
    ensures Numbered(Serve(r, call))
    ensures |Serve(r, call).issued| <= |r.issued| + 1
  {
    WrappedNext(|r.issued|);
  }

  lemma ServeSound(r: Runtime, call: Call)
    requires Sound(r)
    ensures Sound(Serve(r, call))
    ensures forall h: Handle :: Lost(Serve(r, call), h) <==> Lost(r, h) || Displaced(r, call) == Some(h)
  {
    match call
    case Connect(c) => CloseAllSound(r);
    case Close => CloseAllSound(r);
    case OpenSession(o) => OpenSound(r, o);
    case CloseSession(id) => CloseOneSound(r, id);
    case Lookup(_) =>
  }

  /** No call gives out an id under which a session is still held. */
  ghost predicate NeverDisplaces(r: Runtime, calls: seq<Call>)
    decreases |calls|
  {
    calls == [] || (Displaced(r, calls[0]) == None && NeverDisplaces(Serve(r, calls[0]), calls[1..]))
  }

  ghost predicate NoneLost(r: Runtime) {
    forall h: Handle :: !Lost(r, h)
  }

  lemma {:induction false} ServeAllSound(r: Runtime, calls: seq<Call>)
    requires Sound(r)
    ensures Sound(ServeAll(r, calls))
    ensures NoneLost(ServeAll(r, calls)) <==> NoneLost(r) && NeverDisplaces(r, calls)
    decreases |calls|
  {
    if calls != [] {
      var next := Serve(r, calls[0]);
      ServeSound(r, calls[0]);
      ServeAllSound(next, calls[1..]);
      if Displaced(r, calls[0]).Some? {
        assert Lost(next, Displaced(r, calls[0]).value);
      }
    }
  }

  lemma StartSound()
    ensures Sound(START) && NoneLost(START) && Numbered(START)
  {
  }

  // ----- main results -----

  /** Over any requests, and then the close at exit: nothing is held, and every connection and session
      that was opened has been closed exactly once if and only if no open gave out an id under which a
      session was still held. */
  lemma ClosedExactlyOnce(calls: seq<Call>)
    ensures var r := CloseAll(ServeAll(START, calls));
            && r.inst == None && r.sessions == map[]
            && ((forall h: Handle :: r.closed[h] == if h < r.made then 1 else 0) <==> NeverDisplaces(START, calls))
  {
    var end := ServeAll(START, calls);
    StartSound();
    ServeAllSound(START, calls);
    CloseAllSound(end);
    var r := CloseAll(end);
    assert forall h: Handle :: h < r.made ==> (Lost(end, h) <==> r.closed[h] == 0);
    if forall h: Handle :: r.closed[h] == if h < r.made then 1 else 0 {
      assert NoneLost(end);
    }
  }

  /** In particular over any requests that do not take the 64-bit counter all the way round. */
  lemma {:induction false} FewRequestsNeverDisplace(r: Runtime, calls: seq<Call>)
    requires Numbered(r) && |r.issued| + |calls| <= 0x1_0000_0000_0000_0000
    ensures NeverDisplaces(r, calls)
    decreases |calls|
  {
    if calls != [] {
      NewIdIsNew(r);
      ServeNumbered(r, calls[0]);
      FewRequestsNeverDisplace(Serve(r, calls[0]), calls[1..]);
    }
  }

  // ----- a run that loses a session -----

  lemma {:induction false} ServeAllConcat(r: Runtime, before: seq<Call>, after: seq<Call>)
    ensures ServeAll(r, before + after) == ServeAll(ServeAll(r, before), after)
    ensures NeverDisplaces(r, before + after) <==> NeverDisplaces(r, before) && NeverDisplaces(ServeAll(r, before), after)
    decreases |before|
  {
    if before == [] {
      assert before + after == after;
    } else {
      assert (before + after)[1..] == before[1..] + after;
      ServeAllConcat(Serve(r, before[0]), before[1..], after);
    }
  }

  /** Connect and open a session that stays open, then open and close another one `n` times. */
  function Rounds(n: nat): seq<Call> {
    if n == 0 then [Connect(Connects), OpenSession(Opens)]
    else Rounds(n - 1) + [OpenSession(Opens), CloseSession(Some(Wrapped(n + 1)))]
  }

  lemma OneRound(r: Runtime, n: nat)
    requires r.inst.Some? && r.sessions == map[1 := Some(1)] && r.nextSessionID == Wrapped(n) && 1 <= n < 0x1_0000_0000_0000_0000
    ensures var r' := ServeAll(r, [OpenSession(Opens), CloseSession(Some(Wrapped(n + 1)))]);
            r'.inst == r.inst && r'.sessions == r.sessions && r'.nextSessionID == Wrapped(n + 1)
  {
    var open, close := OpenSession(Opens), CloseSession(Some(Wrapped(n + 1)));
    WrappedNext(n);
    WrappedSame(1, n + 1);
    assert Wrapped(1) == 1;
    assert [open, close][1..] == [close] && [close][1..] == [];
    assert ServeAll(r, [open, close]) == ServeAll(Serve(Serve(r, open), close), []);
    assert r.sessions[Wrapped(n + 1) := Some(r.made)] - {Wrapped(n + 1)} == r.sessions;
  }

  lemma {:induction false} AfterRounds(n: nat)
    requires n < 0x1_0000_0000_0000_0000
    ensures var r := ServeAll(START, Rounds(n));
            r.inst.Some? && r.sessions == map[1 := Some(1)] && r.nextSessionID == Wrapped(n + 1)
  {
    if n == 0 {
      var connect, open := Connect(Connects), OpenSession(Opens);
      assert [connect, open][1..] == [open] && [open][1..] == [];
      assert ServeAll(START, [connect, open]) == ServeAll(Serve(Serve(START, connect), open), []);
      WrappedNext(0);
    } else {
      AfterRounds(n - 1);
      ServeAllConcat(START, Rounds(n - 1), [OpenSession(Opens), CloseSession(Some(Wrapped(n + 1)))]);
      OneRound(ServeAll(START, Rounds(n - 1)), n);
    }
  }

  /** The run in which it does happen: with the first session still open the counter goes all the way
      round, the next open gives out the first id again, and the first session is never closed. */
  lemma CounterRoundLosesSession()
    ensures var calls := Rounds(0x1_0000_0000_0000_0000 - 1) + [OpenSession(Opens)];
            !NeverDisplaces(START, calls) && ServeAll(START, calls).made > 1 && CloseAll(ServeAll(START, calls)).closed[1] == 0
  {
    var n: nat := 0x1_0000_0000_0000_0000 - 1;
    var open := OpenSession(Opens);
    var r := ServeAll(START, Rounds(n));
    AfterRounds(n);
    WrappedNext(n + 1);
    assert Displaced(r, open) == Some(1);
    ServeAllConcat(START, Rounds(n), [open]);
    assert ServeAll(r, [open]) == Serve(r, open);
    StartSound();
    ServeAllSound(START, Rounds(n));
    ServeSound(r, open);
    assert Lost(Serve(r, open), 1);
    CloseAllSound(Serve(r, open));
  }

  /** A connect succeeded, and since then there was no close and no other connect with a configuration. */
  ghost predicate Connected(calls: seq<Call>) {
    exists i :: 0 <= i < |calls| && calls[i] == Connect(Connects) && forall j :: i < j < |calls| ==> LeavesConnection(calls[j])
  }

  predicate LeavesConnection(call: Call) {
    call != Close && (call.Connect? ==> call.c == NoConfig)
  }

  lemma ConnectedSnoc(front: seq<Call>, last: Call)
    ensures Connected(front + [last]) <==> last == Connect(Connects) || (LeavesConnection(last) && Connected(front))
  {
    var calls := front + [last];
    if Connected(calls) {
      var i :| 0 <= i < |calls| && calls[i] == Connect(Connects) && forall j :: i < j < |calls| ==> LeavesConnection(calls[j]);
      if i < |front| {
        assert calls[|front|] == last;
        assert front[i] == Connect(Connects) && forall j :: i < j < |front| ==> front[j] == calls[j];
      }
    }
    if last == Connect(Connects) {
      assert calls[|front|] == Connect(Connects);
    } else if LeavesConnection(last) && Connected(front) {
      var i :| 0 <= i < |front| && front[i] == Connect(Connects) && forall j :: i < j < |front| ==> LeavesConnection(front[j]);
      assert calls[i] == Connect(Connects) && forall j :: i < j < |front| ==> calls[j] == front[j];
    }
  }

  /** There is a connection exactly if the last connect with a configuration succeeded and no close came
      after it: a connect that fails gives up the connection there was. */
  lemma {:induction false} ConnectionHeldIff(calls: seq<Call>)
    ensures ServeAll(START, calls).inst.Some? <==> Connected(calls)
    decreases |calls|
  {
    if calls != [] {
      var front, last := calls[..|calls| - 1], calls[|calls| - 1];
      assert calls == front + [last];
      ConnectionHeldIff(front);
      ServeAllConcat(START, front, [last]);
      assert ServeAll(ServeAll(START, front), [last]) == Serve(ServeAll(START, front), last);
      ConnectedSnoc(front, last);
    }
  }

  /** At any time: without a connection there is no session, and nothing has been closed twice or while
      it is still held. */
  lemma NoSessionWithoutConnection(calls: seq<Call>)
    ensures var r := ServeAll(START, calls);
            && (r.inst == None ==> r.sessions == map[])
            && forall h: Handle :: r.closed[h] <= 1 && (Live(r, h) ==> r.closed[h] == 0)
  {
    StartSound();
    ServeAllSound(START, calls);
  }

  lemma {:induction false} IssuedAre(r: Runtime, calls: seq<Call>)
    requires Numbered(r)
    ensures Numbered(ServeAll(r, calls))
    decreases |calls|
  {
    if calls != [] {
      ServeNumbered(r, calls[0]);
      IssuedAre(Serve(r, calls[0]), calls[1..]);
    }
  }

  /** Two session ids given out in one run, reconnects or not, are equal only if the 64-bit counter went
      all the way round between them. */
  lemma IdsReusedOnlyByWrapAround(calls: seq<Call>, i: nat, j: nat)
    requires i < |ServeAll(START, calls).issued| && j < |ServeAll(START, calls).issued|
    ensures ServeAll(START, calls).issued[i] == ServeAll(START, calls).issued[j] <==> (j - i) % 0x1_0000_0000_0000_0000 == 0
  {
    IssuedAre(START, calls);
    WrappedSame(i + 1, j + 1);
    assert (j + 1) - (i + 1) == j - i;
  }

  /** `id` is given out by one of these calls. */
  ghost predicate GivenOut(r: Runtime, calls: seq<Call>, id: SessionId)
    decreases |calls|
  {
    calls != [] && (Serve(r, calls[0]).issued == r.issued + [id] || GivenOut(Serve(r, calls[0]), calls[1..], id))
  }

  /** Calls that leave session `id` alone. */
  predicate Spares(call: Call, id: SessionId) {
    call != Close && call != CloseSession(Some(id)) && (call.Connect? ==> call.c == NoConfig)
  }

  lemma SparedOnce(r: Runtime, call: Call, id: SessionId, h: Handle)
    requires h < r.made && Spares(call, id)
    ensures h < Serve(r, call).made
    ensures SessionFor(Serve(r, call), Some(id)) == Some(h) <==>
              SessionFor(r, Some(id)) == Some(h) && Serve(r, call).issued != r.issued + [id]
  {
    assert r.issued != r.issued + [id];
    if call.OpenSession? {
      assert r.issued + [Increment(r.nextSessionID)] == r.issued + [id] <==> Increment(r.nextSessionID) == id by {
        assert (r.issued + [id])[|r.issued|] == id;
        assert (r.issued + [Increment(r.nextSessionID)])[|r.issued|] == Increment(r.nextSessionID);
      }
    }
  }

  lemma {:induction false} SparedStaysIff(r: Runtime, calls: seq<Call>, id: SessionId, h: Handle)
    requires h < r.made && forall i :: 0 <= i < |calls| ==> Spares(calls[i], id)
    ensures SessionFor(ServeAll(r, calls), Some(id)) == Some(h) <==>
              SessionFor(r, Some(id)) == Some(h) && !GivenOut(r, calls, id)
    decreases |calls|
  {
    if calls != [] {
      assert Spares(calls[0], id);
      SparedOnce(r, calls[0], id, h);
      assert forall i :: 0 <= i < |calls[1..]| ==> calls[1..][i] == calls[i + 1];
      SparedStaysIff(Serve(r, calls[0]), calls[1..], id, h);
    }
  }

  /** An opened session is reached by the id it was given until it is closed or its connection goes,
      exactly as long as that id is not given out again. */
  lemma SessionReachable(before: seq<Call>, after: seq<Call>)
    requires ServeAll(START, before).inst.Some?
    requires var id := Increment(ServeAll(START, before).nextSessionID);
             forall i :: 0 <= i < |after| ==> Spares(after[i], id)
    ensures var r := ServeAll(START, before);
            var next, id := Serve(r, OpenSession(Opens)), Increment(r.nextSessionID);
            && next.issued == r.issued + [id]
            && (SessionFor(ServeAll(next, after), Some(id)) == Some(r.made) <==> !GivenOut(next, after, id))
  {
    var r := ServeAll(START, before);
    SparedStaysIff(Serve(r, OpenSession(Opens)), after, Increment(r.nextSessionID), r.made);
  }

  /** Every session in the table was opened since there were `m` objects, under an id of these calls. */
  lemma {:induction false} HeldSince(r: Runtime, calls: seq<Call>, m: nat, id: SessionId)
    requires m <= r.made && SessionFor(ServeAll(r, calls), Some(id)).Some?
    requires SessionFor(r, Some(id)).Some? ==> SessionFor(r, Some(id)).value >= m
    ensures SessionFor(ServeAll(r, calls), Some(id)).value >= m
    ensures SessionFor(r, Some(id)) == None ==> GivenOut(r, calls, id)
    decreases |calls|
  {
    if calls != [] {
      HeldSince(Serve(r, calls[0]), calls[1..], m, id);
    }
  }

  /** After a close or a reconnect an id from before reaches nothing; if it is given out again, it
      reaches only a session opened since. */
  lemma StaleIdsRejected(before: seq<Call>, c: Call, after: seq<Call>, id: SessionId)
    requires c == Close || (c.Connect? && c.c != NoConfig)
    ensures var r := ServeAll(START, before);
            var cut := Serve(r, c);
            var reached := SessionFor(ServeAll(cut, after), Some(id));
            reached.Some? ==> GivenOut(cut, after, id) && reached.value >= r.made
  {
    StartSound();
    ServeAllSound(START, before);
    var r := ServeAll(START, before);
    var cut := Serve(r, c);
    assert cut.sessions == map[];
    if SessionFor(ServeAll(cut, after), Some(id)).Some? {
      HeldSince(cut, after, r.made, id);
    }
  }

  // ----- the runtime as an object -----

  class AgentRuntime {
    var inst: Option<Handle>
    var sessions: map<SessionId, Option<Handle>>
    var nextSessionID: int
    ghost var made: nat
    ghost var closed: multiset<Handle>
    ghost var issued: seq<SessionId>

    constructor ()
      ensures State() == START
    {
      inst, sessions, nextSessionID, made, closed, issued := None, map[], 0, 0, multiset{}, [];
    }

    ghost function State(): Runtime
      reads this
    {
      Runtime(inst, sessions, nextSessionID, made, closed, issued)
    }

    /** `closeSession`, and one round of the loop in `close`. */
    method CloseSessionObject(id: SessionId)
      requires id in sessions
      modifies this
      ensures State() == CloseOne(old(State()), Some(id))
    {
      var session := sessions[id];
      sessions := sessions - {id};
      if session.Some? {
        closed := closed + multiset(InstHandles(session));
      }
    }

    /** Closes the sessions one by one, in whatever order the map gives them, then the connection. */
    method CloseEverything()
      requires Apart(State())
      modifies this
      ensures State() == CloseAll(old(State()))
    {
      while sessions != map[]
        invariant CloseAll(State()) == CloseAll(old(State()))
        invariant Apart(State())
        decreases |sessions|
      {
        var id := AnyKey(sessions);
        CloseOneThenAll(State(), id);
        CloseSessionObject(id);
      }
      assert SessionHandles(sessions) == {};
      if inst.Some? {
        closed := closed + multiset(InstHandles(inst));
        inst := None;
      }
    }

    method NextID() returns (id: SessionId)
      modifies this
      ensures id == Increment(old(nextSessionID)) && nextSessionID == id && issued == old(issued) + [id]
      ensures inst == old(inst) && sessions == old(sessions) && made == old(made) && closed == old(closed)
    {
      nextSessionID := Increment(nextSessionID);
      issued := issued + [nextSessionID];
      id := nextSessionID;
    }

    /** `answer` is the object the driver hands out if the request opens one. */
    method ServeCall(call: Call, answer: Handle) returns (given: Option<SessionId>)
      requires Apart(State()) && answer == made
      modifies this
      ensures State() == Serve(old(State()), call)
      ensures given.Some? <==> call.OpenSession? && old(inst).Some? && (call.o == Opens || call.o == OpensNothing)
      ensures given.Some? ==> issued == old(issued) + [given.value] && nextSessionID == given.value
      ensures given.Some? ==> given.value in sessions && sessions[given.value] == if call.o == Opens then Some(answer) else None
    {
      given := None;
      match call {
        case Connect(c) =>
          if c == NoConfig {
            return;
          }
          CloseEverything();
          if c == Connects {
            inst := Some(answer);
            made := made + 1;
          }
        case Close =>
          if inst.Some? {
            CloseEverything();
          }
        case OpenSession(o) =>
          if inst == None || o == Unsupported || o == OpenFails {
            return;
          }
          var id := NextID();
          if o == OpensNothing {
            sessions := sessions[id := None];
          } else {
            sessions := sessions[id := Some(answer)];
            made := made + 1;
          }
          given := Some(id);
        case CloseSession(id) =>
          if id.Some? && id.value in sessions {
            CloseSessionObject(id.value);
          }
        case Lookup(_) =>
      }
    }
  }

  /** The next key of a map in its unspecified iteration order. */
  method AnyKey<K(==), V>(m: map<K, V>) returns (k: K)
    requires m != map[]
    ensures k in m
  {
    k :| k in m;
  }
}
