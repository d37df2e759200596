/** The loops of the repair, each proved to compute its phase of `NormalizeTags`. */
module SidebarRepair {
  import opened Options
  import opened Seqs
  import opened ParentChain
  import opened SidebarTags
  import opened SidebarNormal

  method CollectTags(value: seq<Tag>) returns (tags: seq<Tag>)
    ensures tags == CleanTags(value)
  {
    tags := [];
    var idSet: set<Id> := {};
    for i := 0 to |value|
      invariant tags == CleanTags(value[..i])
      invariant idSet == Ids(tags)
    {
      var entry := value[i];
      assert value[..i + 1][..i] == value[..i];
      if entry.id !in idSet {
        idSet := idSet + {entry.id};
        var added := entry.(conns := Dedup(entry.conns), order := Dedup(entry.order));
        IdsConcat(tags, [added]);
        tags := tags + [added];
      }
    }
    assert value[..|value|] == value;
  }

  /** Clears the parent of each named tag. */
  function WithoutParents(tags: seq<Tag>, cut: set<Id>): (r: seq<Tag>)
    ensures |r| == |tags|
  {
    seq(|tags|, i requires 0 <= i < |tags| => if tags[i].id in cut then tags[i].(parent := None) else tags[i])
  }

  method ForgetUnknownParents(value: seq<Tag>) returns (tags: seq<Tag>)
    ensures tags == ClearUnknownParents(value)
  {
    tags := value;
    var known := Ids(value);
    for i := 0 to |value|
      invariant |tags| == |value|
      invariant forall k :: 0 <= k < i ==> tags[k] == ClearUnknownParents(value)[k]
      invariant forall k :: i <= k < |value| ==> tags[k] == value[k]
    {
      var t := tags[i];
      if t.parent.Some? && (t.parent.value == t.id || t.parent.value !in known) {
        tags := tags[i := t.(parent := None)];
      }
    }
  }

  // ----- cycles -----

  lemma WithoutParentsAt(tags: seq<Tag>, cut: set<Id>, x: Id)
    requires DistinctIds(tags)
    ensures x in Parents(WithoutParents(tags, cut)) <==> x in Parents(tags) && x !in cut
    ensures x in Parents(WithoutParents(tags, cut)) ==> Parents(WithoutParents(tags, cut))[x] == Parents(tags)[x]
  {
    var r := WithoutParents(tags, cut);
    CutIds(tags, r);
    if x in Ids(tags) {
      var i := IdIndex(tags, x);
      ParentsOf(tags, tags[i]);
      assert r[i] in r;
      ParentsOf(r, r[i]);
    }
  }

  lemma WithoutParentsMap(tags: seq<Tag>, cut: set<Id>)
    requires DistinctIds(tags)
    ensures DistinctIds(WithoutParents(tags, cut))
    ensures Parents(WithoutParents(tags, cut)) == Parents(tags) - cut
  {
    forall x ensures x in Parents(WithoutParents(tags, cut)) <==> x in Parents(tags) - cut {
      WithoutParentsAt(tags, cut, x);
    }
    forall x | x in Parents(tags) - cut ensures Parents(WithoutParents(tags, cut))[x] == (Parents(tags) - cut)[x] {
      WithoutParentsAt(tags, cut, x);
    }
  }

  /** `path` is the chain walked so far from `start`; `current` is what comes next. */
  ghost predicate IsTrail(up: map<Id, Id>, start: Id, path: seq<Id>, current: Id) {
    && NoDup(path)
    && (forall k :: 0 <= k < |path| ==> path[k] in up)
    && (forall k :: 0 <= k < |path| - 1 ==> up[path[k]] == path[k + 1])
    && (if path == [] then current == start else path[0] == start && up[path[|path| - 1]] == current)
  }

  lemma TrailFits(up: map<Id, Id>, start: Id, path: seq<Id>, current: Id)
    requires IsTrail(up, start, path, current)
    ensures |path| <= |up.Keys|
  {
    NoDupLength(path);
    SubsetSize(Elems(path), up.Keys);
  }

  lemma TrailStep(up: map<Id, Id>, start: Id, path: seq<Id>, current: Id)
    requires IsTrail(up, start, path, current) && current in up && current !in path
    ensures IsTrail(up, start, path + [current], up[current])
  {
    NoDupSnoc(path, current);
  }

  /** Follows the parents of one tag until they run out (`at` is None) or meet the trail again. */
  method FollowParents(tags: seq<Tag>, start: Id) returns (path: seq<Id>, current: Id, at: Option<nat>)
    requires DistinctIds(tags)
    ensures IsTrail(Parents(tags), start, path, current)
    ensures at.None? ==> current !in Parents(tags)
    ensures at.Some? ==> at.value < |path| && path[at.value] == current
  {
    ghost var up := Parents(tags);
    path, current := [], start;
    var pathIndex: map<Id, nat> := map[];
    while true
      invariant IsTrail(up, start, path, current)
      invariant pathIndex.Keys == Elems(path)
      invariant forall x :: x in pathIndex ==> pathIndex[x] < |path| && path[pathIndex[x]] == x
      decreases |up.Keys| - |path|
    {
      var found := Find(tags, current);
      if found.None? || found.value.parent.None? {
        return path, current, None;
      }
      if current in pathIndex {
        return path, current, Some(pathIndex[current]);
      }
      TrailStep(up, start, path, current);
      TrailFits(up, start, path + [current], up[current]);
      pathIndex := pathIndex[current := |path|];
      path := path + [current];
      current := found.value.parent.value;
    }
  }

  /** Cuts made so far: only tags on a cycle, and every cycle as a whole or not at all. */
  ghost predicate WholeCycles(up: map<Id, Id>, cut: set<Id>) {
    && (forall x :: x in cut ==> OnCycle(up, x))
    && (forall x :: OnCycle(up, x) ==> x in up && (x in cut <==> up[x] in cut))
  }

  lemma TrailInUncut(up: map<Id, Id>, cut: set<Id>, start: Id, path: seq<Id>, current: Id)
    requires IsTrail(up - cut, start, path, current)
    ensures IsTrail(up, start, path, current)
  {
  }

  /** The end of a closed trail is a cycle, closed under parents. */
  lemma TrailLoop(up: map<Id, Id>, start: Id, path: seq<Id>, at: nat)
    requires at < |path| && IsTrail(up, start, path, path[at])
    ensures forall x :: x in path[at..] ==> OnCycle(up, x) && x in up && up[x] in path[at..]
    ensures OnCycle(up, start) ==> start in path[at..]
  {
    var loop := path[at..];
    assert loop[0] == path[at];
    forall x | x in loop ensures OnCycle(up, x) && x in up && up[x] in loop {
      var k :| 0 <= k < |loop| && loop[k] == x;
      LoopIsCycle(up, loop, k);
      assert up[x] == if k == |loop| - 1 then loop[0] else loop[k + 1];
    }
    if OnCycle(up, start) {
      ChainAncestor(up, path, 0, at);
      CycleReturns(up, start, at);
      var m: nat :| Ancestor(up, path[at], m) == Some(start);
      ClosedUnderAncestor(up, path[at], m, Elems(loop));
    }
  }

  /** Cutting a cycle as a whole keeps the cuts whole. */
  lemma CutLoop(up: map<Id, Id>, cut: set<Id>, loop: set<Id>)
    requires WholeCycles(up, cut)
    requires forall x :: x in loop ==> OnCycle(up, x) && x in up && up[x] in loop
    ensures WholeCycles(up, cut + loop)
  {
    forall x | OnCycle(up, x) ensures x in up && (x in cut + loop <==> up[x] in cut + loop) {
      if up[x] in loop {
        ClosedHoldsCycle(up, x, loop);
      }
    }
  }

  /** A trail that runs out did not start on an uncut cycle. */
  lemma {:induction false} TrailFollowsCycle(up: map<Id, Id>, cut: set<Id>, start: Id, path: seq<Id>, current: Id)
    requires IsTrail(up - cut, start, path, current) && WholeCycles(up, cut)
    requires OnCycle(up, start) && start !in cut
    ensures OnCycle(up, current) && current in up && current !in cut
    decreases |path|
  {
    if path != [] {
      var front, last := path[..|path| - 1], path[|path| - 1];
      assert path == front + [last];
      NoDupParts(front, [last]);
      TrailFollowsCycle(up, cut, start, front, last);
      CycleParent(up, last);
    }
  }

  method ClearParents(tags: seq<Tag>, ids: seq<Id>) returns (r: seq<Tag>)
    ensures r == WithoutParents(tags, Elems(ids))
  {
    r := tags;
    for i := 0 to |ids|
      invariant r == WithoutParents(tags, Elems(ids[..i]))
    {
      assert Elems(ids[..i + 1]) == Elems(ids[..i]) + {ids[i]};
      r := WithoutParents(r, {ids[i]});
    }
    assert ids[..|ids|] == ids;
  }

  lemma OpenTrail(tags: seq<Tag>, cut: set<Id>, start: Id, path: seq<Id>, last: Id)
    requires DistinctIds(tags) && WholeCycles(Parents(tags), cut)
    requires IsTrail(Parents(WithoutParents(tags, cut)), start, path, last)
    requires last !in Parents(WithoutParents(tags, cut))
    ensures OnCycle(Parents(tags), start) ==> start in cut
  {
    WithoutParentsMap(tags, cut);
    if OnCycle(Parents(tags), start) && start !in cut {
      TrailFollowsCycle(Parents(tags), cut, start, path, last);
    }
  }

  lemma ClosedTrail(tags: seq<Tag>, cut: set<Id>, start: Id, path: seq<Id>, at: nat)
    requires DistinctIds(tags) && WholeCycles(Parents(tags), cut)
    requires at < |path| && IsTrail(Parents(WithoutParents(tags, cut)), start, path, path[at])
    ensures WholeCycles(Parents(tags), cut + Elems(path[at..]))
    ensures OnCycle(Parents(tags), start) ==> start in Elems(path[at..])
  {
    WithoutParentsMap(tags, cut);
    TrailInUncut(Parents(tags), cut, start, path, path[at]);
    TrailLoop(Parents(tags), start, path, at);
    CutLoop(Parents(tags), cut, Elems(path[at..]));
  }

  lemma WithoutParentsTwice(tags: seq<Tag>, a: set<Id>, b: set<Id>)
    ensures WithoutParents(WithoutParents(tags, a), b) == WithoutParents(tags, a + b)
  {
  }

  lemma WithoutParentsDistinct(tags: seq<Tag>, cut: set<Id>)
    requires DistinctIds(tags)
    ensures DistinctIds(WithoutParents(tags, cut))
  {
  }

  /** Cuts the cycle that the parents of one tag lead into, if any. */
  method CutFrom(ghost tags: seq<Tag>, current: seq<Tag>, start: Id, ghost cut: set<Id>)
      returns (next: seq<Tag>, ghost cut': set<Id>)
    requires DistinctIds(tags) && current == WithoutParents(tags, cut)
    requires WholeCycles(Parents(tags), cut)
    ensures next == WithoutParents(tags, cut') && cut <= cut'
    ensures WholeCycles(Parents(tags), cut')
    ensures OnCycle(Parents(tags), start) ==> start in cut'
  {
    WithoutParentsDistinct(tags, cut);
    var path, last, at := FollowParents(current, start);
    next, cut' := current, cut;
    match at {
      case None =>
        OpenTrail(tags, cut, start, path, last);
      case Some(cycleStart) =>
        ClosedTrail(tags, cut, start, path, cycleStart);
        WithoutParentsTwice(tags, cut, Elems(path[cycleStart..]));
        next := ClearParents(current, path[cycleStart..]);
        cut' := cut + Elems(path[cycleStart..]);
    }
  }

  /** The cycles through the first `i` tags, and no more than whole cycles, have been cut. */
  ghost predicate CutUpTo(tags: seq<Tag>, i: nat, cut: set<Id>)
    requires i <= |tags|
  {
    && WholeCycles(Parents(tags), cut)
    && forall k :: 0 <= k < i && OnCycle(Parents(tags), tags[k].id) ==> tags[k].id in cut
  }

  method CutNext(ghost tags: seq<Tag>, current: seq<Tag>, i: nat, ghost cut: set<Id>)
      returns (next: seq<Tag>, ghost cut': set<Id>)
    requires DistinctIds(tags) && i < |tags| && current == WithoutParents(tags, cut)
    requires CutUpTo(tags, i, cut)
    ensures next == WithoutParents(tags, cut') && CutUpTo(tags, i + 1, cut')
  {
    next, cut' := CutFrom(tags, current, current[i].id, cut);
  }

  lemma AllCut(tags: seq<Tag>, cut: set<Id>)
    requires CutUpTo(tags, |tags|, cut)
    ensures WithoutParents(tags, cut) == CutCycles(tags)
  {
  }

  lemma NothingCut(tags: seq<Tag>)
    ensures WithoutParents(tags, {}) == tags && WholeCycles(Parents(tags), {})
  {
    forall x | OnCycle(Parents(tags), x) ensures x in Parents(tags) {
      CycleParent(Parents(tags), x);
    }
  }

  /** Every tag on a parent cycle, and no other, loses its parent. */
  method BreakParentCycles(tags: seq<Tag>) returns (r: seq<Tag>)
    requires DistinctIds(tags)
    ensures r == CutCycles(tags)
  {
    r := tags;
    ghost var cut: set<Id> := {};
    NothingCut(tags);
    for i := 0 to |tags|
      invariant r == WithoutParents(tags, cut)
      invariant CutUpTo(tags, i, cut)
    {
      r, cut := CutNext(tags, r, i, cut);
    }
    AllCut(tags, cut);
  }

  // ----- owners and orders -----

  lemma UnclaimedSnoc(front: seq<Id>, last: Id, before: set<Id>)
    ensures Drop(Dedup(front + [last]), before)
         == if last in before || last in front then Drop(Dedup(front), before) else Drop(Dedup(front), before) + [last]
  {
    DedupSnoc(front, last);
    DropSnoc(Dedup(front), last, before);
  }

  lemma TakenSnoc(front: seq<Id>, last: Id, before: set<Id>)
    ensures before + Elems(front + [last]) == before + Elems(front) + {last}
    ensures last in before + Elems(front) ==> before + Elems(front + [last]) == before + Elems(front)
    ensures last in before + Elems(front) <==> last in before || last in front
  {
  }

  lemma DedupSnoc(front: seq<Id>, last: Id)
    ensures Dedup(front + [last]) == if last in front then Dedup(front) else Dedup(front) + [last]
  {
    assert (front + [last])[..|front|] == front;
  }

  /** The connections that no earlier tag has, each once; all of them are taken afterwards. */
  method TakeUnclaimed(conns: seq<Id>, before: set<Id>) returns (mine: seq<Id>, taken: set<Id>)
    ensures mine == Drop(Dedup(conns), before)
    ensures taken == before + Elems(conns)
  {
    mine, taken := [], before;
    ghost var done: seq<Id> := [];
    for i := 0 to |conns|
      invariant done == conns[..i]
      invariant mine == Drop(Dedup(done), before)
      invariant taken == before + Elems(done)
    {
      UnclaimedSnoc(done, conns[i], before);
      TakenSnoc(done, conns[i], before);
      done := done + [conns[i]];
      if conns[i] !in taken {
        taken := taken + {conns[i]};
        mine := mine + [conns[i]];
      }
    }
    assert done == conns;
  }

  lemma ClaimStep(tags: seq<Tag>, i: nat)
    requires i < |tags|
    ensures ClaimConnections(tags[..i + 1])
         == ClaimConnections(tags[..i]) + [tags[i].(conns := Drop(Dedup(tags[i].conns), Owned(tags[..i])))]
    ensures Owned(tags[..i + 1]) == Owned(tags[..i]) + Elems(tags[i].conns)
  {
    assert tags[..i + 1] == tags[..i] + [tags[i]];
    assert tags[..i + 1][..i] == tags[..i];
    OwnedSnoc(tags[..i], tags[i]);
  }

  method AssignOwners(tags: seq<Tag>) returns (r: seq<Tag>)
    ensures r == ClaimConnections(tags)
  {
    r := [];
    var taken: set<Id> := {};
    for i := 0 to |tags|
      invariant r == ClaimConnections(tags[..i])
      invariant taken == Owned(tags[..i])
    {
      var mine: seq<Id>;
      mine, taken := TakeUnclaimed(tags[i].conns, taken);
      ClaimStep(tags, i);
      r := r + [tags[i].(conns := mine)];
    }
    assert tags[..|tags|] == tags;
  }

  /** The valid tokens of a stored order, each once. */
  method FilterOrder(order: seq<Token>, validTokens: set<Token>) returns (r: seq<Token>)
    ensures r == Dedup(Keep(order, validTokens))
  {
    r := [];
    for i := 0 to |order|
      invariant r == Dedup(Keep(order[..i], validTokens))
    {
      assert order[..i + 1][..i] == order[..i];
      if order[i] in validTokens {
        var kept := Keep(order[..i], validTokens);
        assert (kept + [order[i]])[..|kept|] == kept;
        if order[i] !in r {
          r := r + [order[i]];
        }
      }
    }
    assert order[..|order|] == order;
  }

  method ResolveOrder(order: seq<Token>, known: seq<Token>) returns (r: seq<Token>)
    ensures r == Resolve(order, known)
  {
    r := FilterOrder(order, Elems(known));
    r := AddMissing(r, Keep(order, Elems(known)), known);
  }

  /** Appends whatever is not there yet. */
  method AddMissing(start: seq<Token>, ghost kept: seq<Token>, known: seq<Token>) returns (r: seq<Token>)
    requires start == Dedup(kept)
    ensures r == Dedup(kept + known)
  {
    r := start;
    assert kept + known[..0] == kept;
    for i := 0 to |known|
      invariant r == Dedup(kept + known[..i])
    {
      assert (kept + known[..i + 1])[..|kept| + i] == kept + known[..i];
      if known[i] !in r {
        r := r + [known[i]];
      }
    }
    assert known[..|known|] == known;
  }

  method ResolveChildOrders(tags: seq<Tag>) returns (r: seq<Tag>)
    ensures r == ResolveOrders(tags)
  {
    r := [];
    ghost var spec := ResolveOrders(tags);
    for i := 0 to |tags|
      invariant r == spec[..i]
    {
      var t := tags[i];
      var childOrder := ResolveOrder(t.order, ConnTokens(t.conns) + ChildTokens(tags, Some(t.id)));
      r := r + [t.(order := childOrder, conns := ConnIds(childOrder))];
      assert spec[..i + 1] == spec[..i] + [spec[i]];
    }
  }

  /** The whole repair. */
  method NormalizeConnectionTagTree(value: seq<Tag>) returns (r: seq<Tag>)
    ensures r == NormalizeTags(value)
    ensures Consistent(r) && Aligned(r) && Ids(r) == Ids(value)
  {
    var clean := CollectTags(value);
    CleanTagsIds(value);
    var known := ForgetUnknownParents(clean);
    CutIds(clean, known);
    var cut := BreakParentCycles(known);
    var claimed := AssignOwners(cut);
    r := ResolveChildOrders(claimed);
    NormalizeTagsConsistent(value);
  }

  /** `isConnectionTagSelfOrDescendant`: whether `candidate` is the tag or lies below it. */
  method IsSelfOrDescendant(tags: seq<Tag>, tagId: Id, candidate: Id) returns (r: bool)
    requires DistinctIds(tags)
    ensures r <==> Below(Parents(tags), candidate, tagId)
  {
    ghost var up := Parents(tags);
    var visited: set<Id> := {};
    var current := Some(candidate);
    BelowSelf(up, candidate);
    ghost var bound := {candidate} + up.Values;
    while current.Some? && current.value !in visited
      invariant current.Some? ==> Below(up, candidate, current.value)
      invariant tagId !in visited
      invariant candidate in visited || current == Some(candidate)
      invariant forall v :: v in visited && v in up ==> up[v] in visited || current == Some(up[v])
      invariant current.Some? ==> current.value in bound
      invariant visited <= bound
      decreases bound - visited
    {
      if current.value == tagId {
        return true;
      }
      ghost var here := current.value;
      visited := visited + {current.value};
      var found := Find(tags, current.value);
      current := if found.Some? then found.value.parent else None;
      if current.Some? {
        BelowSelf(up, current.value);
        BelowParent(up, here, current.value);
        BelowTrans(up, candidate, here, current.value);
      }
    }
    if Below(up, candidate, tagId) {
      var n: nat :| Ancestor(up, candidate, n) == Some(tagId);
      ClosedHoldsAncestors(up, visited, candidate, n);
    }
    return false;
  }
}
