/** Keep-alive probes of cached connections. A probe runs without the lock; by the time its result is
    there, the entry it was taken from may have been changed, replaced or deleted. */
module KeepAlive {
  import opened Options

  type Key(==, 0, !new)

  /** Cached connections, numbered as they are opened. */
  type Inst = nat

  /** What a connection's settings make of keeping it alive. */
  datatype Policy = Policy(enabled: bool, interval: int, sql: string, dbType: string)

  /** Times are None where the source has the zero time. */
  datatype Entry = Entry(
    inst: Inst,
    lastPing: Option<int>,
    lastKeepAliveAt: Option<int>,
    policy: Policy,
    revision: int,
    inFlight: bool,
    inFlightRevision: int)

  datatype Target = Target(key: Key, inst: Inst, sql: string, dbType: string, revision: int)

  type Cache = map<Key, Entry>

  const MAX_REVISION: int := 0xffff_ffff_ffff_ffff

  /** The 64-bit revision counter, which skips zero. */
  function NextRevision(n: int): int {
    if n == MAX_REVISION then 1 else n + 1
  }

  // ----- what the probe code does under the lock -----

  predicate Owns(e: Entry, t: Target) {
    e.inst == t.inst && e.inFlight && e.inFlightRevision == t.revision
  }

  predicate Matches(e: Entry, t: Target) {
    Owns(e, t) && e.policy.enabled && e.revision == t.revision && e.policy.sql == t.sql && e.policy.dbType == t.dbType
  }

  function Released(e: Entry): Entry {
    e.(inFlight := false, inFlightRevision := 0)
  }

  predicate Due(e: Entry, now: int) {
    && e.policy.enabled && e.policy.interval > 0 && !e.inFlight
    && (e.lastKeepAliveAt == None || now - e.lastKeepAliveAt.value >= e.policy.interval)
  }

  function Marked(e: Entry): Entry {
    e.(inFlight := true, inFlightRevision := e.revision)
  }

  function TargetOf(key: Key, e: Entry): Target {
    Target(key, e.inst, e.policy.sql, e.policy.dbType, e.revision)
  }

  /** Releases the mark of a target that still owns one. */
  function Release(c: Cache, t: Target): Cache {
    if t.key in c && Owns(c[t.key], t) then c[t.key := Released(c[t.key])] else c
  }

  function ReleaseAll(c: Cache, ts: seq<Target>): Cache
    decreases |ts|
  {
    if ts == [] then c else ReleaseAll(Release(c, ts[0]), ts[1..])
  }

  /** Before probing: a target that is no longer current is released. */
  function Check(c: Cache, t: Target): (Cache, bool) {
    if t.key in c && Matches(c[t.key], t) then (c, true) else (Release(c, t), false)
  }

  datatype Outcome = Succeeded(at: int) | Skipped(at: int) | Failed

  /** The result of a probe arrives. */
  function Settle(c: Cache, t: Target, o: Outcome): Cache {
    if t.key in c && Matches(c[t.key], t) then
      match o
      case Succeeded(at) => c[t.key := Released(c[t.key]).(lastPing := Some(at), lastKeepAliveAt := Some(at))]
      case Skipped(at) => c[t.key := Released(c[t.key]).(lastKeepAliveAt := Some(at))]
      case Failed => c - {t.key}
    else Release(c, t)
  }

  /** Marks the due entries among `keys` and returns a target for each. */
  function Collect(c: Cache, keys: seq<Key>, now: int): (Cache, seq<Target>)
    decreases |keys|
  {
    if keys == [] then (c, [])
    else
      var (c', ts) := Collect(c, keys[..|keys| - 1], now);
      var key := keys[|keys| - 1];
      if key in c' && Due(c'[key], now) then (c'[key := Marked(c'[key])], ts + [TargetOf(key, c'[key])])
      else (c', ts)
  }

  // ----- what the rest of the program does -----

  /** `connectionKeepAlivePolicy.apply`. */
  function ApplyPolicy(e: Entry, p: Policy, now: int): Entry {
    if e.policy == p then e
    else
      var bumped := e.(revision := NextRevision(e.revision), policy := p);
      if !p.enabled then bumped.(inFlight := false, inFlightRevision := 0, lastKeepAliveAt := None)
      else if !e.policy.enabled || e.lastKeepAliveAt == None then bumped.(lastKeepAliveAt := Some(now))
      else bumped
  }

  function NewEntry(inst: Inst, p: Policy, now: int): Entry {
    Entry(inst, Some(now), Some(now), p, 1, false, 0)
  }

  // ----- the cache as an object -----

  class ConnectionCache {
    var dbCache: Cache

    method IsTargetCurrent(t: Target) returns (current: bool)
      modifies this
      ensures (dbCache, current) == Check(old(dbCache), t)
    {
      if t.key !in dbCache {
        return false;
      }
      var entry := dbCache[t.key];
      if Matches(entry, t) {
        return true;
      }
      if Owns(entry, t) {
        dbCache := dbCache[t.key := Released(entry)];
      }
      current := false;
    }

    method ReleaseTargets(ts: seq<Target>)
      modifies this
      ensures dbCache == ReleaseAll(old(dbCache), ts)
    {
      for i := 0 to |ts|
        invariant ReleaseAll(dbCache, ts[i..]) == ReleaseAll(old(dbCache), ts)
      {
        assert ts[i..][1..] == ts[i + 1..];
        var t := ts[i];
        if t.key in dbCache && Owns(dbCache[t.key], t) {
          dbCache := dbCache[t.key := Released(dbCache[t.key])];
        }
      }
    }

    method CollectDue(keys: seq<Key>, now: int) returns (targets: seq<Target>)
      modifies this
      ensures (dbCache, targets) == Collect(old(dbCache), keys, now)
    {
      targets := [];
      for i := 0 to |keys|
        invariant (dbCache, targets) == Collect(old(dbCache), keys[..i], now)
      {
        assert keys[..i + 1][..i] == keys[..i];
        var key := keys[i];
        if key in dbCache {
          var entry := dbCache[key];
          if entry.policy.enabled && entry.policy.interval > 0 && !entry.inFlight
             && (entry.lastKeepAliveAt == None || now - entry.lastKeepAliveAt.value >= entry.policy.interval) {
            dbCache := dbCache[key := Marked(entry)];
            targets := targets + [TargetOf(key, entry)];
          }
        }
      }
      assert keys[..|keys|] == keys;
    }

    method MarkSuccess(t: Target, at: int)
      modifies this
      ensures dbCache == Settle(old(dbCache), t, Succeeded(at))
    {
      if t.key !in dbCache {
        return;
      }
      var entry := dbCache[t.key];
      if Matches(entry, t) {
        dbCache := dbCache[t.key := Released(entry).(lastPing := Some(at), lastKeepAliveAt := Some(at))];
      } else if Owns(entry, t) {
        dbCache := dbCache[t.key := Released(entry)];
      }
    }

    method MarkSkipped(t: Target, at: int) returns (skipped: bool)
      modifies this
      ensures dbCache == Settle(old(dbCache), t, Skipped(at))
      ensures skipped == (t.key in old(dbCache) && Matches(old(dbCache)[t.key], t))
    {
      if t.key !in dbCache {
        return false;
      }
      var entry := dbCache[t.key];
      if Matches(entry, t) {
        dbCache := dbCache[t.key := Released(entry).(lastKeepAliveAt := Some(at))];
        return true;
      }
      if Owns(entry, t) {
        dbCache := dbCache[t.key := Released(entry)];
      }
      skipped := false;
    }

    /** The instance to close, if the entry went. */
    method EvictAfterFailure(t: Target) returns (inst: Option<Inst>)
      modifies this
      ensures dbCache == Settle(old(dbCache), t, Failed)
      ensures inst == if t.key in old(dbCache) && Matches(old(dbCache)[t.key], t) then Some(t.inst) else None
    {
      inst := None;
      if t.key in dbCache && Matches(dbCache[t.key], t) {
        inst := Some(dbCache[t.key].inst);
        dbCache := dbCache - {t.key};
      } else if t.key in dbCache && Owns(dbCache[t.key], t) {
        dbCache := dbCache[t.key := Released(dbCache[t.key])];
      }
    }
  }
}
