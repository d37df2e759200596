/** The memoised projection of the application state that is written to local storage: rebuilt when a
    dependency changes, patched when only the active tab does. */
module PersistMemo {
  import opened Options

  /** A value as `Object.is` sees it; the objects behind it are never changed in place. */
  type Ref(==, 0, !new)

  /** Everything in the projection but the tabs and the active tab. */
  type Rest(==, 0, !new)

  datatype Tab = Tab(id: string)

  datatype Projection = Projection(tabs: seq<Tab>, activeTabId: Option<string>, rest: Rest)

  /** How many state keys the projection depends on, and where the tabs and the active tab are. */
  const KEY_COUNT: nat := 46

  const TABS_KEY: nat := 0

  const ACTIVE_KEY: nat := 1

  predicate IsState(deps: seq<Ref>) {
    |deps| == KEY_COUNT
  }

  /** How the fields are built: the tabs from the tabs, the active tab's trimmed id from its key, and the
      rest from the other keys. */
  datatype Builder = Builder(tabsOf: Ref -> seq<Tab>, idOf: Ref -> string, restOf: seq<Ref> -> Rest)

  function Others(deps: seq<Ref>): seq<Ref>
    requires IsState(deps)
  {
    deps[..ACTIVE_KEY] + deps[ACTIVE_KEY + 1..]
  }

  /** `sanitizeActiveTabId`: the id if a tab has it, else the first tab's, if that is not empty. */
  function ActiveTab(id: string, tabs: seq<Tab>): Option<string> {
    if id != "" && Tab(id) in tabs then Some(id)
    else if tabs != [] && tabs[0].id != "" then Some(tabs[0].id)
    else None
  }

  /** `buildPersistedStateProjection`. */
  function Build(b: Builder, deps: seq<Ref>): Projection
    requires IsState(deps)
  {
    var tabs := b.tabsOf(deps[TABS_KEY]);
    Projection(tabs, ActiveTab(b.idOf(deps[ACTIVE_KEY]), tabs), b.restOf(Others(deps)))
  }

  // ----- memoising -----

  datatype Memo = Nothing | Remembered(deps: seq<Ref>, projection: Projection)

  function Changed(before: seq<Ref>, deps: seq<Ref>): set<nat>
    requires IsState(before) && IsState(deps)
  {
    set k | 0 <= k < KEY_COUNT && before[k] != deps[k]
  }

  predicate IsMemo(m: Memo) {
    m.Remembered? ==> IsState(m.deps)
  }

  /** One call: what is remembered afterwards; its projection is the answer. */
  function Project(b: Builder, m: Memo, deps: seq<Ref>): (r: Memo)
    requires IsMemo(m) && IsState(deps)
    ensures r.Remembered? && IsState(r.deps)
  {
    if m.Remembered? && Changed(m.deps, deps) == {} then m
    else if m.Remembered? && Changed(m.deps, deps) == {ACTIVE_KEY} then
      Remembered(m.deps[ACTIVE_KEY := deps[ACTIVE_KEY]],
                 m.projection.(activeTabId := ActiveTab(b.idOf(deps[ACTIVE_KEY]), m.projection.tabs)))
    else Remembered(deps, Build(b, deps))
  }

  class MemoizedProjection {
    const builder: Builder
    var previousDependencies: array?<Ref>
    var previousProjection: Option<Projection>

    constructor (b: Builder)
      ensures builder == b && Valid() && State() == Nothing
    {
      builder, previousDependencies, previousProjection := b, null, None;
    }

    ghost predicate Valid()
      reads this, previousDependencies
    {
      && (previousDependencies == null <==> previousProjection == None)
      && (previousDependencies != null ==> previousDependencies.Length == KEY_COUNT)
    }

    ghost function State(): (m: Memo)
      reads this, previousDependencies
      requires Valid()
      ensures IsMemo(m)
    {
      if previousDependencies == null then Nothing else Remembered(previousDependencies[..], previousProjection.value)
    }

    /** Finds the key that changed: None if none did, Some(-1) if several did. */
    method FindChanged(deps: seq<Ref>) returns (changed: Option<int>)
      requires Valid() && previousDependencies != null && IsState(deps)
      ensures changed == None <==> Changed(previousDependencies[..], deps) == {}
      ensures changed.Some? && changed.value >= 0 ==> Changed(previousDependencies[..], deps) == {changed.value}
      ensures changed == Some(-1) ==>
                exists j, k :: j != k && j in Changed(previousDependencies[..], deps) && k in Changed(previousDependencies[..], deps)
      ensures changed.Some? ==> -1 <= changed.value < KEY_COUNT
    {
      changed := None;
      ghost var before := previousDependencies[..];
      for index := 0 to KEY_COUNT
        invariant changed.Some? ==> 0 <= changed.value < index
        invariant forall k :: 0 <= k < index ==> (before[k] != deps[k] <==> changed == Some(k))
      {
        if previousDependencies[index] != deps[index] {
          if changed.Some? {
            assert changed.value in Changed(before, deps) && index in Changed(before, deps);
            return Some(-1);
          }
          changed := Some(index);
        }
      }
      assert changed.Some? ==> changed.value in Changed(before, deps);
    }

    method Call(deps: seq<Ref>) returns (projection: Projection)
      requires Valid() && IsState(deps)
      modifies this, previousDependencies
      ensures Valid() && State() == Project(builder, old(State()), deps)
      ensures projection == State().projection
    {
      if previousDependencies != null {
        var changed := FindChanged(deps);
        if changed == None {
          return previousProjection.value;
        }
        if changed == Some(ACTIVE_KEY) {
          previousDependencies[ACTIVE_KEY] := deps[ACTIVE_KEY];
          var p := previousProjection.value;
          projection := p.(activeTabId := ActiveTab(builder.idOf(deps[ACTIVE_KEY]), p.tabs));
          previousProjection := Some(projection);
          return;
        }
      }
      projection := Build(builder, deps);
      previousDependencies := new Ref[KEY_COUNT](i requires 0 <= i < KEY_COUNT => deps[i]);
      previousProjection := Some(projection);
    }
  }

  // ----- the memo never shows -----

  /** What is remembered is what a rebuild from the remembered keys gives. */
  ghost predicate Current(b: Builder, m: Memo) {
    m.Remembered? ==> IsState(m.deps) && m.projection == Build(b, m.deps)
  }

  lemma SameKeys(before: seq<Ref>, deps: seq<Ref>)
    requires IsState(before) && IsState(deps) && Changed(before, deps) == {}
    ensures before == deps
  {
    forall k | 0 <= k < KEY_COUNT ensures before[k] == deps[k] {
      assert k !in Changed(before, deps);
    }
  }

  /** Switching tabs leaves the other keys alone. */
  lemma SameOthers(before: seq<Ref>, deps: seq<Ref>)
    requires IsState(before) && IsState(deps) && Changed(before, deps) == {ACTIVE_KEY}
    ensures Others(before) == Others(deps) && before[TABS_KEY] == deps[TABS_KEY]
    ensures before[ACTIVE_KEY := deps[ACTIVE_KEY]] == deps
  {
    forall k | 0 <= k < KEY_COUNT && k != ACTIVE_KEY ensures before[k] == deps[k] {
      assert k !in Changed(before, deps);
    }
  }

  lemma ProjectIsBuild(b: Builder, m: Memo, deps: seq<Ref>)
    requires Current(b, m) && IsState(deps)
    ensures Project(b, m, deps) == Remembered(deps, Build(b, deps))
  {
    if m.Remembered? {
      if Changed(m.deps, deps) == {} {
        SameKeys(m.deps, deps);
      } else if Changed(m.deps, deps) == {ACTIVE_KEY} {
        SameOthers(m.deps, deps);
      }
    }
  }

  /** The answers of one memo to a sequence of states. */
  function Answers(b: Builder, m: Memo, states: seq<seq<Ref>>): seq<Projection>
    requires IsMemo(m) && forall i :: 0 <= i < |states| ==> IsState(states[i])
    decreases |states|
  {
    if states == [] then []
    else
      var m' := Project(b, m, states[0]);
      [m'.projection] + Answers(b, m', states[1..])
  }

  /** `a` is the projection of these keys: the tabs from the first key, the other fields from the keys behind the
      second, and as active tab the one that the second key asks for, if there is such a tab, else the first. */
  ghost predicate IsProjection(b: Builder, deps: seq<Ref>, a: Projection)
    requires IsState(deps)
  {
    && a.tabs == b.tabsOf(deps[0])
    && a.rest == b.restOf([deps[0]] + deps[2..])
    && var asked := b.idOf(deps[1]);
    a.activeTabId ==
      if asked != "" && (exists i :: 0 <= i < |a.tabs| && a.tabs[i].id == asked) then Some(asked)
      else if |a.tabs| > 0 && a.tabs[0].id != "" then Some(a.tabs[0].id)
      else None
  }

  lemma BuildIsProjection(b: Builder, deps: seq<Ref>)
    requires IsState(deps)
    ensures IsProjection(b, deps, Build(b, deps))
  {
    var tabs, asked := b.tabsOf(deps[0]), b.idOf(deps[1]);
    assert deps[..ACTIVE_KEY] == [deps[0]];
    if i :| 0 <= i < |tabs| && tabs[i].id == asked {
      assert tabs[i] == Tab(asked);
    }
  }

  /** For every sequence of states, each answer is the projection of that state alone. */
  lemma MemoIsRebuild(b: Builder, m: Memo, states: seq<seq<Ref>>)
    requires Current(b, m) && forall i :: 0 <= i < |states| ==> IsState(states[i])
    ensures |Answers(b, m, states)| == |states|
    ensures forall i :: 0 <= i < |states| ==> IsProjection(b, states[i], Answers(b, m, states)[i])
  {
    AnswersAreBuilt(b, m, states);
    forall i | 0 <= i < |states| ensures IsProjection(b, states[i], Answers(b, m, states)[i]) {
      BuildIsProjection(b, states[i]);
    }
  }

  lemma {:induction false} AnswersAreBuilt(b: Builder, m: Memo, states: seq<seq<Ref>>)
    requires Current(b, m) && forall i :: 0 <= i < |states| ==> IsState(states[i])
    ensures Answers(b, m, states) == seq(|states|, i requires 0 <= i < |states| => Build(b, states[i]))
    decreases |states|
  {
    if states != [] {
      ProjectIsBuild(b, m, states[0]);
      AnswersAreBuilt(b, Project(b, m, states[0]), states[1..]);
      assert forall i :: 0 < i < |states| ==> states[i] == states[1..][i - 1];
    }
  }
}
