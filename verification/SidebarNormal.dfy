/** What the repair achieves: `NormalizeTags` makes any tag list consistent, leaves a consistent one
    alone, and the repaired layout is one forest. The phases are taken one by one: what each of them
    leaves of ids, parents, owners and orders, and what it does to a list that has nothing for it to
    repair. Owner lists and order lists depend on each other, so the last phase is shown to make both
    complete without changing who owns what. */
module SidebarNormal {
  import opened Options
  import opened Seqs
  import opened ParentChain
  import opened SidebarTags

  // ----- lists that agree on ids and parents -----

  ghost predicate SameSkeleton(a: seq<Tag>, b: seq<Tag>) {
    |a| == |b| && forall i :: 0 <= i < |a| ==> a[i].id == b[i].id && a[i].parent == b[i].parent
  }

  lemma {:induction false} SkeletonFind(a: seq<Tag>, b: seq<Tag>, x: Id)
    requires SameSkeleton(a, b)
    ensures Find(a, x).Some? <==> Find(b, x).Some?
    ensures Find(a, x).Some? ==> Find(a, x).value.parent == Find(b, x).value.parent
  {
    if a != [] {
      SkeletonFind(a[1..], b[1..], x);
    }
  }

  lemma SkeletonParents(a: seq<Tag>, b: seq<Tag>)
    requires SameSkeleton(a, b)
    ensures Ids(a) == Ids(b)
    ensures Parents(a) == Parents(b)
    ensures DistinctIds(a) <==> DistinctIds(b)
  {
    forall x ensures x in Ids(a) <==> x in Ids(b) {
      SkeletonFind(a, b, x);
    }
    forall x | x in Ids(a) ensures x in Parents(a) <==> x in Parents(b) {
      SkeletonFind(a, b, x);
    }
    forall x | x in Parents(a) ensures Parents(a)[x] == Parents(b)[x] {
      SkeletonFind(a, b, x);
    }
  }

  lemma {:induction false} SkeletonChildTokens(a: seq<Tag>, b: seq<Tag>, parent: Option<Id>)
    requires SameSkeleton(a, b)
    ensures ChildTokens(a, parent) == ChildTokens(b, parent)
  {
    if a != [] {
      SkeletonChildTokens(a[..|a| - 1], b[..|b| - 1], parent);
    }
  }

  // ----- token lists -----

  lemma {:induction false} ConnIdsNoDup(order: seq<Token>)
    requires NoDup(order)
    ensures NoDup(ConnIds(order))
  {
    if order != [] {
      assert order == order[..|order| - 1] + [order[|order| - 1]];
      NoDupParts(order[..|order| - 1], [order[|order| - 1]]);
      ConnIdsNoDup(order[..|order| - 1]);
      if order[|order| - 1].ConnToken? {
        NoDupSnoc(ConnIds(order[..|order| - 1]), order[|order| - 1].conn);
      }
    }
  }

  /** Resolving keeps exactly the known tokens, each once. */
  lemma ResolveMembers(order: seq<Token>, known: seq<Token>)
    ensures NoDup(Resolve(order, known))
    ensures forall tok :: tok in Resolve(order, known) <==> tok in known
  {
  }

  /** An order that already has exactly the known tokens is kept. */
  lemma ResolveFixed(order: seq<Token>, known: seq<Token>)
    requires NoDup(order) && forall tok :: tok in order <==> tok in known
    ensures Resolve(order, known) == order
  {
    KeepAll(order, Elems(known));
    DedupConcat(order, known);
    DedupNoDup(order);
    DropAll(Dedup(known), Elems(order));
  }

  /** In general: the known part of the order, then the missing tokens in their default order. */
  lemma ResolveParts(order: seq<Token>, known: seq<Token>)
    requires NoDup(order)
    ensures Resolve(order, known) == Keep(order, Elems(known)) + Drop(Dedup(known), Elems(order))
  {
    var kept := Keep(order, Elems(known));
    NoDupKeep(order, Elems(known));
    DedupConcat(kept, known);
    DedupNoDup(kept);
    DropSame(Dedup(known), Elems(kept), Elems(order));
  }

  lemma {:induction false} DropAllBut(s: seq<Token>, gone: set<Token>, x: Token)
    requires NoDup(s) && x in s && x !in gone
    requires forall y :: y in s ==> y in gone || y == x
    ensures Drop(s, gone) == [x]
  {
    var pre, post := NoDupSplit(s, x);
    DropConcat(pre + [x], post, gone);
    DropSnoc(pre, x, gone);
    DropAll(pre, gone);
    DropAll(post, gone);
  }

  /** A single missing token is added at the end. */
  lemma ResolveLacking(order: seq<Token>, known: seq<Token>, tok: Token)
    requires NoDup(order) && tok !in order
    requires forall x :: x in order || x == tok <==> x in known
    ensures Resolve(order, known) == order + [tok]
  {
    ResolveParts(order, known);
    KeepAll(order, Elems(known));
    DropAllBut(Dedup(known), Elems(order), tok);
  }

  /** A list that holds every known token, and maybe unknown ones, only loses the unknown. */
  lemma ResolveDrops(order: seq<Token>, known: seq<Token>, stale: set<Token>)
    requires NoDup(order)
    requires forall x :: x in known <==> x in order && x !in stale
    ensures Resolve(order, known) == Drop(order, stale)
  {
    ResolveParts(order, known);
    KeepIsDrop(order, Elems(known), stale);
    DropAll(Dedup(known), Elems(order));
  }

  // ----- the phases -----

  lemma {:induction false} IdsConcat(a: seq<Tag>, b: seq<Tag>)
    ensures Ids(a + b) == Ids(a) + Ids(b)
  {
    if a == [] {
      assert a + b == b;
    } else {
      assert (a + b)[1..] == a[1..] + b;
      IdsConcat(a[1..], b);
    }
  }

  /** The tag behind an id. */
  lemma IdIndex(tags: seq<Tag>, x: Id) returns (i: nat)
    requires x in Ids(tags)
    ensures i < |tags| && tags[i].id == x
  {
    var t := Find(tags, x).value;
    i :| 0 <= i < |tags| && tags[i] == t;
  }

  lemma DistinctSnoc(tags: seq<Tag>, last: Tag)
    requires DistinctIds(tags) && last.id !in Ids(tags)
    ensures DistinctIds(tags + [last])
  {
    forall i | 0 <= i < |tags| ensures tags[i].id != last.id {
      assert tags[i] in tags;
    }
  }

  lemma IdsSnoc(tags: seq<Tag>, last: Tag)
    ensures Ids(tags + [last]) == Ids(tags) + {last.id}
  {
    IdsConcat(tags, [last]);
    assert [last][1..] == [];
  }

  lemma {:induction false} CleanTagsIds(tags: seq<Tag>)
    ensures DistinctIds(CleanTags(tags)) && Ids(CleanTags(tags)) == Ids(tags)
  {
    if tags != [] {
      var front, last := tags[..|tags| - 1], tags[|tags| - 1];
      CleanTagsIds(front);
      assert tags == front + [last];
      IdsSnoc(front, last);
      if last.id !in Ids(CleanTags(front)) {
        var last' := last.(conns := Dedup(last.conns), order := Dedup(last.order));
        IdsSnoc(CleanTags(front), last');
        DistinctSnoc(CleanTags(front), last');
      }
    }
  }

  lemma LastIdIsNew(tags: seq<Tag>)
    requires DistinctIds(tags) && tags != []
    ensures tags[|tags| - 1].id !in Ids(tags[..|tags| - 1])
  {
    if tags[|tags| - 1].id in Ids(tags[..|tags| - 1]) {
      var i := IdIndex(tags[..|tags| - 1], tags[|tags| - 1].id);
    }
  }

  lemma {:induction false} CleanTagsFixed(tags: seq<Tag>)
    requires DistinctIds(tags)
    requires forall t :: t in tags ==> NoDup(t.conns) && NoDup(t.order)
    ensures CleanTags(tags) == tags
  {
    if tags != [] {
      var front, last := tags[..|tags| - 1], tags[|tags| - 1];
      assert tags == front + [last];
      CleanTagsFixed(front);
      LastIdIsNew(tags);
      assert last in tags;
      DedupNoDup(last.conns);
      DedupNoDup(last.order);
    }
  }

  lemma ParentsOf(tags: seq<Tag>, t: Tag)
    requires DistinctIds(tags) && t in tags
    ensures t.id in Parents(tags) <==> t.parent.Some?
    ensures t.parent.Some? ==> Parents(tags)[t.id] == t.parent.value
  {
    FindMember(tags, t);
  }

  /** Exactly the pointers of the tags on a cycle are gone, and no cycle is left. */
  lemma CutCyclesExact(tags: seq<Tag>)
    requires DistinctIds(tags)
    ensures forall x :: x in Parents(CutCycles(tags)) <==> x in Parents(tags) && !OnCycle(Parents(tags), x)
    ensures forall x :: x in Parents(CutCycles(tags)) ==> Parents(CutCycles(tags))[x] == Parents(tags)[x]
    ensures Acyclic(Parents(CutCycles(tags)))
  {
    var before, after := Parents(tags), Parents(CutCycles(tags));
    forall x ensures x in after <==> x in before && !OnCycle(before, x) {
      CutParent(tags, x);
    }
    forall x | x in after ensures after[x] == before[x] {
      CutParent(tags, x);
    }
    CutIsAcyclic(before, after);
  }

  lemma CutCyclesSound(tags: seq<Tag>)
    requires DistinctIds(tags)
    requires forall t :: t in tags && t.parent.Some? ==> t.parent.value in Ids(tags)
    ensures DistinctIds(CutCycles(tags)) && SoundParents(CutCycles(tags))
  {
    CutKeepsIds(tags);
    CutCyclesExact(tags);
    CutKnownParents(tags);
  }

  lemma CutKeepsIds(tags: seq<Tag>)
    ensures Ids(CutCycles(tags)) == Ids(tags)
    ensures DistinctIds(tags) ==> DistinctIds(CutCycles(tags))
  {
    CutIds(tags, CutCycles(tags));
  }

  lemma CutKnownParents(tags: seq<Tag>)
    requires forall t :: t in tags && t.parent.Some? ==> t.parent.value in Ids(tags)
    ensures forall t :: t in CutCycles(tags) && t.parent.Some? ==> t.parent.value in Ids(CutCycles(tags))
  {
    CutKeepsIds(tags);
    var r := CutCycles(tags);
    forall t | t in r && t.parent.Some? ensures t.parent.value in Ids(r) {
      var i :| 0 <= i < |r| && r[i] == t;
      assert tags[i] in tags;
    }
  }

  lemma {:induction false} CutIds(a: seq<Tag>, b: seq<Tag>)
    requires |a| == |b| && forall i :: 0 <= i < |a| ==> a[i].id == b[i].id
    ensures Ids(a) == Ids(b)
  {
    if a != [] {
      CutIds(a[1..], b[1..]);
    }
  }

  lemma CutParent(tags: seq<Tag>, x: Id)
    requires DistinctIds(tags)
    ensures x in Parents(CutCycles(tags)) <==> x in Parents(tags) && !OnCycle(Parents(tags), x)
    ensures x in Parents(CutCycles(tags)) ==> Parents(CutCycles(tags))[x] == Parents(tags)[x]
  {
    var r := CutCycles(tags);
    CutIds(tags, r);
    if x in Ids(tags) {
      var i := IdIndex(tags, x);
      ParentsOf(tags, tags[i]);
      assert r[i] in r;
      ParentsOf(r, r[i]);
    }
  }

  lemma OwnedSnoc(front: seq<Tag>, last: Tag)
    ensures Owned(front + [last]) == Owned(front) + Elems(last.conns)
  {
    forall c ensures c in Owned(front + [last]) <==> c in Owned(front) || c in last.conns {
      assert forall t :: t in front + [last] <==> t in front || t == last;
    }
  }

  lemma {:induction false} ClaimSkeleton(tags: seq<Tag>)
    ensures SameSkeleton(tags, ClaimConnections(tags))
    ensures Owned(ClaimConnections(tags)) == Owned(tags)
  {
    if tags != [] {
      var front, last := tags[..|tags| - 1], tags[|tags| - 1];
      assert tags == front + [last];
      ClaimSkeleton(front);
      OwnedSnoc(front, last);
      OwnedSnoc(ClaimConnections(front), last.(conns := Drop(Dedup(last.conns), Owned(front))));
    }
  }

  lemma SoleOwnersSnoc(front: seq<Tag>, last: Tag)
    requires SoleOwners(front) && NoDup(last.conns)
    requires forall c :: c in last.conns ==> c !in Owned(front)
    ensures SoleOwners(front + [last])
  {
    assert forall t :: t in front + [last] <==> t in front || t == last;
  }

  lemma {:induction false} ClaimSound(tags: seq<Tag>)
    ensures SoleOwners(ClaimConnections(tags))
  {
    if tags != [] {
      var front, last := tags[..|tags| - 1], tags[|tags| - 1];
      ClaimSound(front);
      ClaimSkeleton(front);
      NoDupDrop(Dedup(last.conns), Owned(front));
      SoleOwnersSnoc(ClaimConnections(front), last.(conns := Drop(Dedup(last.conns), Owned(front))));
    }
  }

  lemma {:induction false} ClaimFixed(tags: seq<Tag>)
    requires DistinctIds(tags) && SoleOwners(tags)
    ensures ClaimConnections(tags) == tags
  {
    if tags != [] {
      var front, last := tags[..|tags| - 1], tags[|tags| - 1];
      assert tags == front + [last];
      assert last in tags;
      ClaimFixed(front);
      DedupNoDup(last.conns);
      forall t, c | t in front && c in last.conns ensures c !in t.conns {
        assert t in tags;
      }
      DropNone(last.conns, Owned(front));
    }
  }

  /** `b` is `a` with the owner and order lists rewritten, each owner list keeping its members. */
  ghost predicate SameOwners(a: seq<Tag>, b: seq<Tag>) {
    SameSkeleton(a, b) && forall i, c :: 0 <= i < |a| ==> (c in a[i].conns <==> c in b[i].conns)
  }

  lemma SameOwnersOwned(a: seq<Tag>, b: seq<Tag>)
    requires SameOwners(a, b)
    ensures Owned(a) == Owned(b)
  {
    forall c ensures c in Owned(a) <==> c in Owned(b) {
      if c in Owned(a) {
        var t :| t in a && c in t.conns;
        var i :| 0 <= i < |a| && a[i] == t;
        assert b[i] in b;
      }
      if c in Owned(b) {
        var t :| t in b && c in t.conns;
        var i :| 0 <= i < |b| && b[i] == t;
        assert a[i] in a;
      }
    }
  }

  lemma SameOwnersSole(a: seq<Tag>, b: seq<Tag>)
    requires SameOwners(a, b) && SoleOwners(a)
    requires forall t :: t in b ==> NoDup(t.conns)
    ensures SoleOwners(b)
  {
    forall t, u, c | t in b && u in b && c in t.conns && c in u.conns ensures t.id == u.id {
      var i :| 0 <= i < |b| && b[i] == t;
      var j :| 0 <= j < |b| && b[j] == u;
      assert a[i] in a && a[j] in a;
    }
  }

  lemma SkeletonSoundParents(a: seq<Tag>, b: seq<Tag>)
    requires SameSkeleton(a, b) && SoundParents(a)
    ensures SoundParents(b)
  {
    SkeletonParents(a, b);
    forall t | t in b && t.parent.Some? ensures t.parent.value in Ids(b) {
      var i :| 0 <= i < |b| && b[i] == t;
      assert a[i] in a;
    }
  }

  /** Completed order lists hold exactly the children, and owners stay who they were. */
  lemma ResolveOrdersSound(tags: seq<Tag>)
    requires DistinctIds(tags) && SoundParents(tags) && SoleOwners(tags)
    ensures Consistent(ResolveOrders(tags)) && Aligned(ResolveOrders(tags))
    ensures SameOwners(tags, ResolveOrders(tags))
  {
    var r := ResolveOrders(tags);
    SkeletonParents(tags, r);
    SkeletonSoundParents(tags, r);
    ResolvedOwners(tags);
    SameOwnersSole(tags, r);
    ResolvedComplete(tags);
  }

  lemma ResolvedComplete(tags: seq<Tag>)
    requires DistinctIds(tags) && SoleOwners(tags)
    ensures var r := ResolveOrders(tags); forall t :: t in r ==> CompleteOrder(r, t) && t.conns == ConnIds(t.order)
  {
    var r := ResolveOrders(tags);
    forall t | t in r ensures CompleteOrder(r, t) && t.conns == ConnIds(t.order) {
      var i :| 0 <= i < |r| && r[i] == t;
      ResolveOrderAt(tags, i);
    }
  }

  lemma ResolvedOwners(tags: seq<Tag>)
    requires DistinctIds(tags) && SoleOwners(tags)
    ensures SameOwners(tags, ResolveOrders(tags))
    ensures forall t :: t in ResolveOrders(tags) ==> NoDup(t.conns)
  {
    var r := ResolveOrders(tags);
    forall i, c | 0 <= i < |tags| ensures c in tags[i].conns <==> c in r[i].conns {
      ResolveOrderAt(tags, i);
    }
    forall t | t in r ensures NoDup(t.conns) {
      var i :| 0 <= i < |r| && r[i] == t;
      ResolveOrderAt(tags, i);
    }
  }

  lemma ResolveOrderAt(tags: seq<Tag>, i: nat)
    requires DistinctIds(tags) && SoleOwners(tags) && i < |tags|
    ensures var r := ResolveOrders(tags);
            && NoDup(r[i].conns)
            && (forall c :: c in r[i].conns <==> c in tags[i].conns)
            && CompleteOrder(r, r[i])
  {
    var r := ResolveOrders(tags);
    var known := ConnTokens(tags[i].conns) + ChildTokens(tags, Some(tags[i].id));
    ResolveMembers(tags[i].order, known);
    ConnIdsNoDup(r[i].order);
    forall c ensures c in r[i].conns <==> c in tags[i].conns {
      assert ConnToken(c) in known <==> c in tags[i].conns;
    }
    SkeletonChildTokens(tags, r, Some(tags[i].id));
    forall tok ensures tok in r[i].order <==> IsChild(r, r[i], tok) {
      assert tok in known <==> tok in ConnTokens(tags[i].conns) || tok in ChildTokens(r, Some(r[i].id));
    }
  }

  /** The repair makes any tag list consistent. */
  lemma NormalizeTagsConsistent(value: seq<Tag>)
    ensures Consistent(NormalizeTags(value)) && Aligned(NormalizeTags(value))
    ensures Ids(NormalizeTags(value)) == Ids(value)
  {
    var clean := CleanTags(value);
    CleanTagsIds(value);
    PointersRepaired(clean);
    OwnersRepaired(CutCycles(ClearUnknownParents(clean)));
  }

  /** The two phases that repair the parent pointers. */
  lemma PointersRepaired(clean: seq<Tag>)
    requires DistinctIds(clean)
    ensures var cut := CutCycles(ClearUnknownParents(clean));
            DistinctIds(cut) && SoundParents(cut) && Ids(cut) == Ids(clean)
  {
    var known := ClearUnknownParents(clean);
    CutIds(clean, known);
    forall t | t in known ensures t.parent.Some? ==> t.parent.value in Ids(known) {
      var i :| 0 <= i < |known| && known[i] == t;
      assert clean[i] in clean;
    }
    CutCyclesSound(known);
    CutKeepsIds(known);
  }

  /** The two phases that repair owners and orders. */
  lemma OwnersRepaired(cut: seq<Tag>)
    requires DistinctIds(cut) && SoundParents(cut)
    ensures var r := ResolveOrders(ClaimConnections(cut));
            Consistent(r) && Aligned(r) && Ids(r) == Ids(cut)
  {
    var claimed := ClaimConnections(cut);
    ClaimSound(cut);
    ClaimSkeleton(cut);
    SkeletonParents(cut, claimed);
    SkeletonSoundParents(cut, claimed);
    ResolveOrdersSound(claimed);
    SkeletonParents(claimed, ResolveOrders(claimed));
  }

  /** `tags` with every owner list rewritten in display order. */
  function Align(tags: seq<Tag>): seq<Tag> {
    seq(|tags|, i requires 0 <= i < |tags| => tags[i].(conns := ConnIds(tags[i].order)))
  }

  /** On a consistent list only the owner lists can change, and only their order. */
  lemma NormalizeConsistent(tags: seq<Tag>)
    requires Consistent(tags)
    ensures NormalizeTags(tags) == Align(tags)
  {
    forall t | t in tags ensures NoDup(t.conns) && NoDup(t.order) {
      assert CompleteOrder(tags, t);
    }
    CleanTagsFixed(tags);
    SoundParentsFixed(tags);
    ClaimFixed(tags);
    CompleteOrdersFixed(tags);
  }

  /** Sound pointers are left alone. */
  lemma SoundParentsFixed(tags: seq<Tag>)
    requires DistinctIds(tags) && SoundParents(tags)
    ensures ClearUnknownParents(tags) == tags && CutCycles(tags) == tags
  {
    forall i | 0 <= i < |tags| ensures ClearUnknownParents(tags)[i] == tags[i] {
      var t := tags[i];
      assert t in tags;
      if t.parent == Some(t.id) {
        SelfParentIsCycle(tags, t);
      }
    }
  }

  lemma CompleteOrdersFixed(tags: seq<Tag>)
    requires forall t :: t in tags ==> CompleteOrder(tags, t)
    ensures ResolveOrders(tags) == Align(tags)
  {
    forall i | 0 <= i < |tags| ensures ChildOrder(tags[i], tags) == tags[i].order {
      CompleteOrderFixed(tags, tags[i]);
    }
  }

  lemma SelfParentIsCycle(tags: seq<Tag>, t: Tag)
    requires DistinctIds(tags) && t in tags && t.parent == Some(t.id)
    ensures OnCycle(Parents(tags), t.id)
  {
    ParentsOf(tags, t);
    assert Ancestor(Parents(tags), t.id, 1) == Ancestor(Parents(tags), t.id, 0);
  }

  lemma CompleteOrderFixed(tags: seq<Tag>, t: Tag)
    requires t in tags && CompleteOrder(tags, t)
    ensures ChildOrder(t, tags) == t.order
  {
    var known := ConnTokens(t.conns) + ChildTokens(tags, Some(t.id));
    forall tok ensures tok in t.order <==> tok in known {
      assert tok in t.order <==> IsChild(tags, t, tok);
    }
    ResolveFixed(t.order, known);
  }

  lemma AlignedFixed(tags: seq<Tag>)
    requires Aligned(tags)
    ensures Align(tags) == tags
  {
    forall i | 0 <= i < |tags| ensures Align(tags)[i] == tags[i] {
      assert tags[i] in tags;
    }
  }

  // ----- the root order -----

  lemma RootOrderComplete(order: seq<Token>, tags: seq<Tag>, connections: seq<Id>)
    ensures CompleteRoot(tags, RootOrder(order, tags, connections), connections)
  {
    var known := ChildTokens(tags, None) + UngroupedTokens(tags, connections);
    ResolveMembers(order, known);
    forall tok ensures tok in known <==> IsRoot(tags, connections, tok) {
      assert tok in known <==> tok in ChildTokens(tags, None) || tok in UngroupedTokens(tags, connections);
    }
  }

  lemma RootOrderFixed(order: seq<Token>, tags: seq<Tag>, connections: seq<Id>)
    requires CompleteRoot(tags, order, connections)
    ensures RootOrder(order, tags, connections) == order
  {
    var known := ChildTokens(tags, None) + UngroupedTokens(tags, connections);
    forall tok ensures tok in order <==> tok in known {
      assert tok in order <==> IsRoot(tags, connections, tok);
    }
    ResolveFixed(order, known);
  }

  // ----- main results -----

  /** Any layout, however corrupted, is repaired. */
  lemma NormalizeIsNormal(l: Layout, connections: seq<Id>)
    ensures Normal(Normalize(l, connections), connections)
  {
    NormalizeTagsConsistent(l.tags);
    RootOrderComplete(l.root, NormalizeTags(l.tags), connections);
  }

  /** A normal layout is left exactly as it is, so the repair is idempotent. */
  lemma NormalIsFixed(l: Layout, connections: seq<Id>)
    requires Normal(l, connections)
    ensures Normalize(l, connections) == l
  {
    NormalizeConsistent(l.tags);
    AlignedFixed(l.tags);
    RootOrderFixed(l.root, l.tags, connections);
  }

  lemma NormalizeIdempotent(l: Layout, connections: seq<Id>)
    ensures Normalize(Normalize(l, connections), connections) == Normalize(l, connections)
  {
    NormalizeIsNormal(l, connections);
    NormalIsFixed(Normalize(l, connections), connections);
  }
}
