/** What adding and changing a group come to: `addConnectionTag` and `updateConnectionTag`. Both hand
    some connections to one group, which takes them out of every other list, and leave the rest to the
    repair. The lemmas follow the repair for a list in which only owners and orders changed (a changed
    group) and for a list with one new tag at its end (an added group), and then the root order. */
module SidebarRegroup {
  import opened Options
  import opened Seqs
  import opened ParentChain
  import opened SidebarTags
  import opened SidebarNormal
  import opened SidebarPlacement
  import opened SidebarEdits
  import opened SidebarMoveTag
  import opened SidebarRemove
  import opened SidebarRemoveTree
  import opened SidebarGroups

  // ----- the outcomes, said outright -----

  /** A tag that keeps its children and loses some connections. */
  function Reduced(t: Tag, taken: seq<Id>): Tag {
    var order := Drop(t.order, Elems(ConnTokens(taken)));
    t.(order := order, conns := ConnIds(order))
  }

  /** The asked order as far as it names children, then the children it does not name. */
  function Arranged(asked: seq<Token>, children: seq<Token>): seq<Token> {
    Keep(asked, Elems(children)) + Drop(Dedup(children), Elems(asked))
  }

  function ChangedTag(tags: seq<Tag>, t: Tag, change: Change): Tag {
    var asked := if change.order.Some? then Dedup(change.order.value) else t.order;
    var order := Arranged(asked, ConnTokens(Dedup(change.conns)) + ChildTokens(tags, Some(t.id)));
    t.(info := change.info, order := order, conns := ConnIds(order))
  }

  function ChangedTags(tags: seq<Tag>, id: Id, change: Change): (r: seq<Tag>)
    ensures |r| == |tags|
  {
    seq(|tags|, i requires 0 <= i < |tags| =>
      if tags[i].id == id then ChangedTag(tags, tags[i], change) else Reduced(tags[i], change.conns))
  }

  /** The root without the connections that were taken, and with those that lost their group at its end,
      in the order of `connections`. */
  function RegroupedRoot(root: seq<Token>, connections: seq<Id>, taken: seq<Id>, freed: set<Id>): seq<Token> {
    Drop(root, Elems(ConnTokens(taken))) + Dedup(ConnTokens(Keep(connections, freed)))
  }

  /** The group has what was asked for; what it had before and was not asked for goes to the root. */
  function ChangedLayout(n: Layout, connections: seq<Id>, existing: Tag, change: Change): Layout {
    Layout(ChangedTags(n.tags, existing.id, change),
           RegroupedRoot(n.root, connections, change.conns, Elems(existing.conns) - Elems(change.conns)))
  }

  // ----- a changed group: the tag list -----

  lemma DedupTokens(ids: seq<Id>)
    ensures Elems(ConnTokens(Dedup(ids))) == Elems(ConnTokens(ids)) && Elems(Dedup(ids)) == Elems(ids)
  {
  }

  lemma ChangedSole(tags: seq<Tag>, id: Id, change: Change)
    requires DistinctIds(tags) && SoleOwners(tags)
    ensures SoleOwners(Changed(tags, id, change))
  {
    var r := Changed(tags, id, change);
    forall t | t in r ensures NoDup(t.conns) {
      var i :| 0 <= i < |r| && r[i] == t;
      assert tags[i] in tags;
      NoDupDrop(tags[i].conns, Elems(Dedup(change.conns)));
    }
    forall t, u, c | t in r && u in r && c in t.conns && c in u.conns ensures t.id == u.id {
      var i :| 0 <= i < |r| && r[i] == t;
      var j :| 0 <= j < |r| && r[j] == u;
      assert tags[i] in tags && tags[j] in tags;
    }
  }

  lemma ChangedSound(tags: seq<Tag>, id: Id, change: Change)
    requires Consistent(tags)
    ensures Sound(Changed(tags, id, change))
  {
    var r := Changed(tags, id, change);
    SkeletonParents(tags, r);
    SkeletonSoundParents(tags, r);
    ChangedSole(tags, id, change);
    forall t | t in r ensures NoDup(t.order) {
      var i :| 0 <= i < |r| && r[i] == t;
      assert tags[i] in tags && CompleteOrder(tags, tags[i]);
      NoDupDrop(tags[i].order, Elems(ConnTokens(Dedup(change.conns))));
    }
  }

  lemma ChangedOrder(tags: seq<Tag>, id: Id, change: Change, i: nat)
    requires Consistent(tags) && i < |tags|
    ensures ResolveOrders(Changed(tags, id, change))[i] == ChangedTags(tags, id, change)[i]
  {
    var r, direct := Changed(tags, id, change), Dedup(change.conns);
    var t := tags[i];
    assert t in tags && CompleteOrder(tags, t);
    SkeletonChildTokens(tags, r, Some(t.id));
    if t.id == id {
      ResolveParts(r[i].order, ConnTokens(direct) + ChildTokens(tags, Some(id)));
    } else {
      DedupTokens(change.conns);
      ReducedOrder(tags, t, direct);
    }
  }

  /** A list that lost the taken connections has nothing else to repair. */
  lemma ReducedOrder(tags: seq<Tag>, t: Tag, direct: seq<Id>)
    requires CompleteOrder(tags, t)
    ensures var gone := Elems(ConnTokens(direct));
            Resolve(Drop(t.order, gone), ConnTokens(Drop(t.conns, Elems(direct))) + ChildTokens(tags, Some(t.id))) == Drop(t.order, gone)
  {
    var gone := Elems(ConnTokens(direct));
    var known := ConnTokens(Drop(t.conns, Elems(direct))) + ChildTokens(tags, Some(t.id));
    NoDupDrop(t.order, gone);
    forall tok ensures tok in Drop(t.order, gone) <==> tok in known {
      assert tok in t.order <==> IsChild(tags, t, tok);
      assert tok in known <==> tok in ConnTokens(Drop(t.conns, Elems(direct))) || tok in ChildTokens(tags, Some(t.id));
    }
    ResolveFixed(Drop(t.order, gone), known);
  }

  lemma ChangedNormalized(tags: seq<Tag>, id: Id, change: Change)
    requires Consistent(tags)
    ensures NormalizeTags(Changed(tags, id, change)) == ChangedTags(tags, id, change)
    ensures Consistent(ChangedTags(tags, id, change)) && Aligned(ChangedTags(tags, id, change))
  {
    var r := Changed(tags, id, change);
    ChangedSound(tags, id, change);
    NormalizeSound(r);
    forall i | 0 <= i < |tags| ensures ResolveOrders(r)[i] == ChangedTags(tags, id, change)[i] {
      ChangedOrder(tags, id, change, i);
    }
    assert ResolveOrders(r) == ChangedTags(tags, id, change);
    NormalizeTagsConsistent(r);
  }

  // ----- the root order -----

  /** `tags` differs from the tags of `n` in that `taken` are owned and `freed` are not. */
  ghost predicate Regrouped(n: Layout, tags: seq<Tag>, taken: seq<Id>, freed: set<Id>) {
    && (forall c :: c in Owned(tags) <==> c in taken || (c in Owned(n.tags) && c !in freed))
    && (forall c :: c in freed ==> c in Owned(n.tags) && c !in taken)
  }

  lemma RegroupedKnown(n: Layout, connections: seq<Id>, tags: seq<Tag>, taken: seq<Id>, freed: set<Id>, tok: Token)
    requires CompleteRoot(n.tags, n.root, connections) && Regrouped(n, tags, taken, freed) && tok in n.root
    requires ChildTokens(tags, None) == ChildTokens(n.tags, None)
    ensures tok in ChildTokens(tags, None) + UngroupedTokens(tags, connections) <==> tok !in Elems(ConnTokens(taken))
  {
    assert IsRoot(n.tags, connections, tok);
    KnownRoots(n.tags, connections, tok);
    KnownRoots(tags, connections, tok);
    match tok
    case ConnToken(c) =>
    case TagToken(k) => assert tok in ChildTokens(n.tags, None);
  }

  lemma RegroupedRootOrder(n: Layout, connections: seq<Id>, tags: seq<Tag>, taken: seq<Id>, freed: set<Id>)
    requires CompleteRoot(n.tags, n.root, connections) && Regrouped(n, tags, taken, freed)
    requires ChildTokens(tags, None) == ChildTokens(n.tags, None)
    ensures RootOrder(n.root, tags, connections) == RegroupedRoot(n.root, connections, taken, freed)
  {
    var first, rest := ChildTokens(tags, None), UngroupedTokens(tags, connections);
    forall tok | tok in n.root ensures tok in Elems(first + rest) <==> tok !in Elems(ConnTokens(taken)) {
      RegroupedKnown(n, connections, tags, taken, freed, tok);
    }
    KeepIsDrop(n.root, Elems(first + rest), Elems(ConnTokens(taken)));
    ResolveParts(n.root, first + rest);
    forall tok | tok in first ensures tok in Elems(n.root) {
      KnownRoots(n.tags, connections, tok);
    }
    LackingRest(first, rest, Elems(n.root));
    forall c | c in connections ensures c in freed <==> c !in Owned(tags) && ConnToken(c) !in Elems(n.root) {
      assert ConnToken(c) in n.root <==> IsRoot(n.tags, connections, ConnToken(c));
    }
    FreedTokens(connections, Owned(tags), freed, Elems(n.root));
  }

  // ----- a changed group: putting it together -----

  /** Who owns what after the change. */
  lemma ChangedOwned(tags: seq<Tag>, existing: Tag, change: Change, c: Id)
    requires DistinctIds(tags) && SoleOwners(tags) && existing in tags
    ensures c in Owned(Changed(tags, existing.id, change)) <==>
            c in change.conns || (c in Owned(tags) && c !in existing.conns)
  {
    var r := Changed(tags, existing.id, change);
    if c in Owned(r) && c !in change.conns {
      var t :| t in r && c in t.conns;
      var j :| 0 <= j < |r| && r[j] == t;
      assert tags[j] in tags && c in tags[j].conns && tags[j].id != existing.id;
    }
    if c in change.conns {
      var i :| 0 <= i < |tags| && tags[i] == existing;
      assert r[i] in r;
    } else if c in Owned(tags) && c !in existing.conns {
      var t :| t in tags && c in t.conns;
      var j :| 0 <= j < |tags| && tags[j] == t;
      FindMember(tags, t);
      FindMember(tags, existing);
      assert r[j] in r;
    }
  }

  lemma SettledOwned(tags: seq<Tag>, id: Id, change: Change)
    requires Consistent(tags)
    ensures Owned(ChangedTags(tags, id, change)) == Owned(Changed(tags, id, change))
  {
    var r := Changed(tags, id, change);
    ChangedSound(tags, id, change);
    ResolvedOwners(r);
    SameOwnersOwned(r, ResolveOrders(r));
    NormalizeSound(r);
    ChangedNormalized(tags, id, change);
  }

  lemma ChangedRegroups(n: Layout, existing: Tag, change: Change)
    requires Consistent(n.tags) && existing in n.tags
    ensures Regrouped(n, ChangedTags(n.tags, existing.id, change), change.conns, Elems(existing.conns) - Elems(change.conns))
  {
    SettledOwned(n.tags, existing.id, change);
    forall c ensures c in Owned(ChangedTags(n.tags, existing.id, change)) <==>
                     c in change.conns || (c in Owned(n.tags) && c !in existing.conns)
    {
      ChangedOwned(n.tags, existing, change, c);
    }
  }

  lemma ChangedRoot(n: Layout, connections: seq<Id>, existing: Tag, change: Change)
    requires Normal(n, connections) && existing in n.tags
    ensures RootOrder(n.root, ChangedTags(n.tags, existing.id, change), connections)
         == ChangedLayout(n, connections, existing, change).root
  {
    SkeletonChildTokens(n.tags, ChangedTags(n.tags, existing.id, change), None);
    ChangedRegroups(n, existing, change);
    RegroupedRootOrder(n, connections, ChangedTags(n.tags, existing.id, change), change.conns,
                       Elems(existing.conns) - Elems(change.conns));
  }

  /** The layout before the group is moved, if it is to be moved. */
  lemma ChangedIsNormal(n: Layout, connections: seq<Id>, existing: Tag, change: Change)
    requires Normal(n, connections) && existing in n.tags
    ensures Normalize(Layout(NormalizeTags(Changed(n.tags, existing.id, change)), n.root), connections)
         == ChangedLayout(n, connections, existing, change)
  {
    var tags := ChangedTags(n.tags, existing.id, change);
    ChangedNormalized(n.tags, existing.id, change);
    NormalizeConsistent(tags);
    AlignedFixed(tags);
    ChangedRoot(n, connections, existing, change);
  }

  lemma ChangedMayMove(tags: seq<Tag>, id: Id, change: Change, parent: Option<Id>)
    ensures MayMove(ChangedTags(tags, id, change), id, parent) <==> MayMove(tags, id, parent)
  {
    SkeletonParents(tags, ChangedTags(tags, id, change));
  }

  /** Changing a group: nothing happens if there is no such group or a sibling has the name. Otherwise the
      group has its new connections and order, every other list loses these connections, those it no longer
      has go to the end of the root, and then the group is moved last under the parent asked for, if that is
      another one that exists and is not below it. */
  lemma UpdateGroupExact(l: Layout, connections: seq<Id>, id: Id, change: Change, nameTaken: bool)
    ensures var n := Normalize(l, connections);
            UpdateGroup(l, connections, id, change, nameTaken)
            == match Find(n.tags, id)
               case None => n
               case Some(existing) =>
                 if nameTaken then n
                 else
                   var changed := ChangedLayout(n, connections, existing, change);
                   var parent := change.parent.GetOr(existing.parent);
                   if parent != existing.parent && MayMove(n.tags, id, parent) then MovedLayout(changed, id, parent, None, false)
                   else changed
  {
    var n := Normalize(l, connections);
    NormalizeIsNormal(l, connections);
    if id in Ids(n.tags) && !nameTaken {
      var existing := Find(n.tags, id).value;
      var parent := change.parent.GetOr(existing.parent);
      var next := Layout(NormalizeTags(Changed(n.tags, id, change)), n.root);
      ChangedIsNormal(n, connections, existing, change);
      ChangedMayMove(n.tags, id, change, parent);
      MoveTagExact(next, connections, id, parent, None, false);
    }
  }

  // ----- an added group: the outcome, said outright -----

  /** The asked parent if there is such a group, else the root. */
  function AddedParent(tags: seq<Tag>, added: Tag): Option<Id> {
    if added.parent.Some? && added.parent.value in Ids(tags) then added.parent else None
  }

  function AddedTag(tags: seq<Tag>, added: Tag): Tag {
    var order := Arranged(Dedup(added.order), ConnTokens(Dedup(added.conns)));
    added.(parent := AddedParent(tags, added), order := order, conns := ConnIds(order))
  }

  /** A tag beside the new one: it loses the taken connections and gains the new tag if that is its child. */
  function BesideAdded(t: Tag, added: Tag, parent: Option<Id>): Tag {
    var rest := Drop(t.order, Elems(ConnTokens(added.conns)));
    var order := if parent == Some(t.id) then rest + [TagToken(added.id)] else rest;
    t.(order := order, conns := ConnIds(order))
  }

  function AddedTags(tags: seq<Tag>, added: Tag): seq<Tag> {
    seq(|tags|, i requires 0 <= i < |tags| => BesideAdded(tags[i], added, AddedParent(tags, added))) + [AddedTag(tags, added)]
  }

  /** A new root group stands before the first connection of the root. */
  function AddedLayout(n: Layout, added: Tag): Layout {
    var rest := Drop(n.root, Elems(ConnTokens(added.conns)));
    Layout(AddedTags(n.tags, added),
           if AddedParent(n.tags, added).Some? then rest else InsertAt(rest, FirstConn(rest), TagToken(added.id)))
  }

  // ----- an added group: the tag list -----

  /** The new tag under the parent it gets. */
  function Placed(tags: seq<Tag>, added: Tag): Tag {
    added.(parent := AddedParent(tags, added))
  }

  lemma WithGroupIds(tags: seq<Tag>, added: Tag)
    requires DistinctIds(tags) && added.id !in Ids(tags)
    ensures DistinctIds(WithGroup(tags, added)) && Ids(WithGroup(tags, added)) == Ids(tags) + {added.id}
  {
    var r := WithGroup(tags, added);
    var front, last := r[..|tags|], r[|tags|];
    assert r == front + [last];
    CutIds(tags, front);
    IdsSnoc(front, last);
    DistinctSnoc(front, last);
  }

  lemma ParentsKnown(tags: seq<Tag>)
    requires DistinctIds(tags) && SoundParents(tags)
    ensures forall t :: t in tags && t.parent.Some? ==> t.parent.value != t.id && t.parent.value in Ids(tags)
  {
    forall t | t in tags && t.parent.Some? ensures t.parent.value != t.id {
      NoSelfParent(tags, t);
    }
  }

  /** The repair forgets a parent of the new tag that does not exist, or is the tag itself. */
  lemma UnknownParentForgotten(tags: seq<Tag>, added: Tag)
    requires DistinctIds(tags) && added.id !in Ids(tags)
    requires forall t :: t in tags && t.parent.Some? ==> t.parent.value != t.id && t.parent.value in Ids(tags)
    ensures ClearUnknownParents(WithGroup(tags, added)) == WithGroup(tags, Placed(tags, added))
  {
    WithGroupIds(tags, added);
    forall i | 0 <= i < |tags| ensures ClearUnknownParents(WithGroup(tags, added))[i] == WithGroup(tags, added)[i] {
      assert tags[i] in tags;
    }
  }

  lemma WithGroupParents(tags: seq<Tag>, added: Tag, x: Id)
    requires DistinctIds(tags) && added.id !in Ids(tags)
    ensures var up := Parents(WithGroup(tags, added));
            if x == added.id then (x in up <==> added.parent.Some?) && (x in up ==> up[x] == added.parent.value)
            else (x in up <==> x in Parents(tags)) && (x in up ==> up[x] == Parents(tags)[x])
  {
    var r := WithGroup(tags, added);
    WithGroupIds(tags, added);
    if x == added.id {
      assert r[|tags|] in r;
      ParentsOf(r, r[|tags|]);
    } else if x in Ids(tags) {
      var i := IdIndex(tags, x);
      assert tags[i] in tags && r[i] in r;
      ParentsOf(tags, tags[i]);
      ParentsOf(r, r[i]);
    }
  }

  /** No chain of parents reaches an id that is not there. */
  lemma NotBelowNew(tags: seq<Tag>, x: Id, y: Id)
    requires DistinctIds(tags) && SoundParents(tags) && x in Ids(tags) && y !in Ids(tags)
    ensures !Below(Parents(tags), x, y)
  {
    var up := Parents(tags);
    forall v | v in Ids(tags) && v in up ensures up[v] in Ids(tags) {
      assert Find(tags, v).value in tags;
    }
    forall n: nat ensures Ancestor(up, x, n) != Some(y) {
      ClosedHoldsAncestors(up, Ids(tags), x, n);
    }
  }

  lemma WithGroupSoundParents(tags: seq<Tag>, added: Tag)
    requires DistinctIds(tags) && SoundParents(tags) && added.id !in Ids(tags)
    requires added.parent.Some? ==> added.parent.value in Ids(tags)
    ensures SoundParents(WithGroup(tags, added))
  {
    var r := WithGroup(tags, added);
    WithGroupIds(tags, added);
    forall t | t in r && t.parent.Some? ensures t.parent.value in Ids(r) {
      var i :| 0 <= i < |r| && r[i] == t;
      assert i < |tags| ==> tags[i] in tags;
    }
    var up := Parents(tags);
    var more := if added.parent.Some? then up[added.id := added.parent.value] else up;
    if added.parent.Some? {
      NotBelowNew(tags, added.parent.value, added.id);
      ReparentAcyclic(up, added.id, added.parent.value);
    }
    forall x | x in Parents(r) ensures x in more && more[x] == Parents(r)[x] {
      WithGroupParents(tags, added, x);
    }
    SubAcyclic(Parents(r), more);
  }

  lemma WithGroupSole(tags: seq<Tag>, added: Tag)
    requires SoleOwners(tags)
    ensures SoleOwners(WithGroup(tags, added))
  {
    var r, direct := WithGroup(tags, added), Dedup(added.conns);
    forall t | t in r ensures NoDup(t.conns) {
      var i :| 0 <= i < |r| && r[i] == t;
      if i < |tags| {
        assert tags[i] in tags;
        NoDupDrop(tags[i].conns, Elems(direct));
      }
    }
    forall t, u, c | t in r && u in r && c in t.conns && c in u.conns ensures t.id == u.id {
      var i :| 0 <= i < |r| && r[i] == t;
      var j :| 0 <= j < |r| && r[j] == u;
      assert (i < |tags| ==> tags[i] in tags) && (j < |tags| ==> tags[j] in tags);
    }
  }

  lemma WithGroupOrders(tags: seq<Tag>, added: Tag)
    requires Consistent(tags)
    ensures forall t :: t in WithGroup(tags, added) ==> NoDup(t.order)
  {
    var r := WithGroup(tags, added);
    forall t | t in r ensures NoDup(t.order) {
      var i :| 0 <= i < |r| && r[i] == t;
      if i < |tags| {
        assert tags[i] in tags && CompleteOrder(tags, tags[i]);
        NoDupDrop(tags[i].order, Elems(ConnTokens(Dedup(added.conns))));
      }
    }
  }

  lemma WithGroupNormalized(tags: seq<Tag>, added: Tag)
    requires Consistent(tags) && added.id !in Ids(tags)
    ensures NormalizeTags(WithGroup(tags, added)) == ResolveOrders(WithGroup(tags, Placed(tags, added)))
  {
    var r, good := WithGroup(tags, added), WithGroup(tags, Placed(tags, added));
    WithGroupIds(tags, added);
    WithGroupSole(tags, added);
    WithGroupOrders(tags, added);
    CleanTagsFixed(r);
    ParentsKnown(tags);
    UnknownParentForgotten(tags, added);
    WithGroupIds(tags, Placed(tags, added));
    WithGroupSoundParents(tags, Placed(tags, added));
    SoundParentsFixed(good);
    WithGroupSole(tags, Placed(tags, added));
    ClaimFixed(good);
  }

  lemma WithGroupChildren(tags: seq<Tag>, added: Tag, parent: Option<Id>)
    ensures ChildTokens(WithGroup(tags, added), parent)
         == ChildTokens(tags, parent) + if added.parent == parent then [TagToken(added.id)] else []
  {
    var r := WithGroup(tags, added);
    assert r[..|r| - 1] == r[..|tags|];
    SkeletonChildTokens(tags, r[..|tags|], parent);
  }

  lemma BesideOrder(tags: seq<Tag>, added: Tag, t: Tag)
    requires Consistent(tags) && added.id !in Ids(tags) && t in tags
    ensures var rest := Drop(t.order, Elems(ConnTokens(added.conns)));
            ChildOrder(Disowned(t, Dedup(added.conns)), WithGroup(tags, added))
            == if added.parent == Some(t.id) then rest + [TagToken(added.id)] else rest
  {
    var direct, token, kids := Dedup(added.conns), TagToken(added.id), ChildTokens(tags, Some(t.id));
    assert CompleteOrder(tags, t);
    DedupTokens(added.conns);
    WithGroupChildren(tags, added, Some(t.id));
    if added.parent == Some(t.id) {
      BesideGains(tags, added, t);
    } else {
      ReducedOrder(tags, t, direct);
      assert kids + [] == kids;
    }
  }

  lemma BesideGains(tags: seq<Tag>, added: Tag, t: Tag)
    requires Consistent(tags) && added.id !in Ids(tags) && t in tags
    ensures var direct, token := Dedup(added.conns), TagToken(added.id);
            var rest := Drop(t.order, Elems(ConnTokens(direct)));
            Resolve(rest, ConnTokens(Drop(t.conns, Elems(direct))) + (ChildTokens(tags, Some(t.id)) + [token])) == rest + [token]
  {
    var direct, token, kids := Dedup(added.conns), TagToken(added.id), ChildTokens(tags, Some(t.id));
    var mine := ConnTokens(Drop(t.conns, Elems(direct)));
    BesideLacks(tags, added, t);
    assert mine + (kids + [token]) == mine + kids + [token];
    ResolveLacking(Drop(t.order, Elems(ConnTokens(direct))), mine + kids + [token], token);
  }

  /** The list of the new tag's parent lacks the new tag only. */
  lemma BesideLacks(tags: seq<Tag>, added: Tag, t: Tag)
    requires Consistent(tags) && added.id !in Ids(tags) && t in tags
    ensures var direct, token := Dedup(added.conns), TagToken(added.id);
            var rest := Drop(t.order, Elems(ConnTokens(direct)));
            && NoDup(rest) && token !in rest
            && forall x :: x in rest || x == token <==>
                           x in ConnTokens(Drop(t.conns, Elems(direct))) + ChildTokens(tags, Some(t.id)) + [token]
  {
    var direct, token := Dedup(added.conns), TagToken(added.id);
    var rest := Drop(t.order, Elems(ConnTokens(direct)));
    assert CompleteOrder(tags, t);
    NoDupDrop(t.order, Elems(ConnTokens(direct)));
    forall x ensures x in rest <==> x in ConnTokens(Drop(t.conns, Elems(direct))) + ChildTokens(tags, Some(t.id)) {
      assert x in t.order <==> IsChild(tags, t, x);
    }
    assert token in t.order <==> IsChild(tags, t, token);
  }

  lemma {:induction false} NoChildren(tags: seq<Tag>, parent: Option<Id>)
    requires forall t :: t in tags ==> t.parent != parent
    ensures ChildTokens(tags, parent) == []
  {
    if tags != [] {
      NoChildren(tags[..|tags| - 1], parent);
      assert tags[|tags| - 1] in tags;
    }
  }

  lemma NewOrder(tags: seq<Tag>, added: Tag)
    requires Consistent(tags) && added.id !in Ids(tags) && added.parent != Some(added.id)
    ensures var t := added.(conns := Dedup(added.conns), order := Dedup(added.order));
            ChildOrder(t, WithGroup(tags, added)) == Arranged(Dedup(added.order), ConnTokens(Dedup(added.conns)))
  {
    var mine := ConnTokens(Dedup(added.conns));
    NoChildren(tags, Some(added.id));
    WithGroupChildren(tags, added, Some(added.id));
    assert mine + ([] + []) == mine;
    ResolveParts(Dedup(added.order), mine);
  }

  lemma AddedNormalized(tags: seq<Tag>, added: Tag)
    requires Consistent(tags) && added.id !in Ids(tags)
    ensures NormalizeTags(WithGroup(tags, added)) == AddedTags(tags, added)
    ensures Consistent(AddedTags(tags, added)) && Aligned(AddedTags(tags, added))
  {
    var good := WithGroup(tags, Placed(tags, added));
    WithGroupNormalized(tags, added);
    forall i | 0 <= i < |tags| ensures ResolveOrders(good)[i] == AddedTags(tags, added)[i] {
      BesideOrder(tags, Placed(tags, added), tags[i]);
    }
    NewOrder(tags, Placed(tags, added));
    assert ResolveOrders(good) == AddedTags(tags, added);
    NormalizeTagsConsistent(WithGroup(tags, added));
  }

  lemma PlacedSound(tags: seq<Tag>, added: Tag)
    requires Consistent(tags) && added.id !in Ids(tags)
    ensures DistinctIds(WithGroup(tags, Placed(tags, added))) && SoleOwners(WithGroup(tags, Placed(tags, added)))
  {
    WithGroupIds(tags, Placed(tags, added));
    WithGroupSole(tags, Placed(tags, added));
  }

  lemma WithGroupOwned(tags: seq<Tag>, added: Tag)
    ensures Owned(WithGroup(tags, added)) == Owned(tags) + Elems(added.conns)
  {
    var r := WithGroup(tags, added);
    forall c ensures c in Owned(r) <==> c in Owned(tags) || c in added.conns {
      if c in Owned(r) {
        var t :| t in r && c in t.conns;
        var j :| 0 <= j < |r| && r[j] == t;
        assert j < |tags| ==> tags[j] in tags;
      }
      if c in added.conns {
        assert r[|tags|] in r && c in r[|tags|].conns;
      } else if c in Owned(tags) {
        var t :| t in tags && c in t.conns;
        var j :| 0 <= j < |tags| && tags[j] == t;
        assert r[j] in r && c in r[j].conns;
      }
    }
  }

  lemma AddedOwned(tags: seq<Tag>, added: Tag)
    requires Consistent(tags) && added.id !in Ids(tags)
    ensures Owned(AddedTags(tags, added)) == Owned(tags) + Elems(added.conns)
    ensures ChildTokens(AddedTags(tags, added), None)
         == ChildTokens(tags, None) + if AddedParent(tags, added) == None then [TagToken(added.id)] else []
  {
    var good := WithGroup(tags, Placed(tags, added));
    WithGroupNormalized(tags, added);
    AddedNormalized(tags, added);
    PlacedSound(tags, added);
    ResolvedOwners(good);
    SameOwnersOwned(good, ResolveOrders(good));
    WithGroupOwned(tags, Placed(tags, added));
    SkeletonChildTokens(good, ResolveOrders(good), None);
    WithGroupChildren(tags, Placed(tags, added), None);
  }

  // ----- an added group: the root order -----

  lemma AddedKnown(n: Layout, connections: seq<Id>, added: Tag, tok: Token)
    requires Normal(n, connections) && added.id !in Ids(n.tags)
    ensures var tags := AddedTags(n.tags, added);
            tok in ChildTokens(tags, None) + UngroupedTokens(tags, connections) <==>
            || (tok in n.root && tok !in Elems(ConnTokens(added.conns)))
            || (tok == TagToken(added.id) && AddedParent(n.tags, added) == None)
  {
    AddedOwned(n.tags, added);
    KnownRoots(n.tags, connections, tok);
    assert tok in n.root <==> IsRoot(n.tags, connections, tok);
  }

  lemma NewNotAtRoot(n: Layout, connections: seq<Id>, added: Tag)
    requires Normal(n, connections) && added.id !in Ids(n.tags)
    ensures TagToken(added.id) !in n.root
  {
    assert TagToken(added.id) in n.root <==> IsRoot(n.tags, connections, TagToken(added.id));
  }

  /** Unknown tokens go, and the one token that is missing comes last. */
  lemma ResolveSwaps(order: seq<Token>, known: seq<Token>, gone: set<Token>, tok: Token)
    requires NoDup(order) && tok !in order
    requires forall x :: x in known <==> (x in order && x !in gone) || x == tok
    ensures Resolve(order, known) == Drop(order, gone) + [tok]
  {
    ResolveParts(order, known);
    KeepIsDrop(order, Elems(known), gone);
    DropAllBut(Dedup(known), Elems(order), tok);
  }

  lemma AddedRootOrder(n: Layout, connections: seq<Id>, added: Tag)
    requires Normal(n, connections) && added.id !in Ids(n.tags)
    ensures var rest := Drop(n.root, Elems(ConnTokens(added.conns)));
            RootOrder(n.root, AddedTags(n.tags, added), connections)
            == if AddedParent(n.tags, added) == None then rest + [TagToken(added.id)] else rest
  {
    var tags, gone := AddedTags(n.tags, added), Elems(ConnTokens(added.conns));
    var known := ChildTokens(tags, None) + UngroupedTokens(tags, connections);
    NewNotAtRoot(n, connections, added);
    forall tok ensures tok in known <==>
      (tok in n.root && tok !in gone) || (tok == TagToken(added.id) && AddedParent(n.tags, added) == None)
    {
      AddedKnown(n, connections, added, tok);
    }
    if AddedParent(n.tags, added) == None {
      ResolveSwaps(n.root, known, gone, TagToken(added.id));
    } else {
      ResolveDrops(n.root, known, gone);
    }
  }

  /** The root order that the last repair is given for a new root group is complete. */
  lemma AddedAtRoot(n: Layout, connections: seq<Id>, added: Tag)
    requires Normal(n, connections) && added.id !in Ids(n.tags) && AddedParent(n.tags, added) == None
    ensures RootOrder(AddedLayout(n, added).root, AddedTags(n.tags, added), connections) == AddedLayout(n, added).root
  {
    var tags, token, rest := AddedTags(n.tags, added), TagToken(added.id), Drop(n.root, Elems(ConnTokens(added.conns)));
    NewNotAtRoot(n, connections, added);
    NoDupDrop(n.root, Elems(ConnTokens(added.conns)));
    InsertMembers(rest, FirstConn(rest), token);
    var known := ChildTokens(tags, None) + UngroupedTokens(tags, connections);
    forall tok ensures tok in InsertAt(rest, FirstConn(rest), token) <==> tok in known {
      AddedKnown(n, connections, added, tok);
    }
    ResolveFixed(InsertAt(rest, FirstConn(rest), token), known);
  }

  lemma AddedFound(tags: seq<Tag>, added: Tag)
    requires Consistent(tags) && added.id !in Ids(tags)
    ensures Find(AddedTags(tags, added), added.id) == Some(AddedTag(tags, added))
  {
    AddedNormalized(tags, added);
    assert AddedTags(tags, added)[|tags|] in AddedTags(tags, added);
    FindMember(AddedTags(tags, added), AddedTag(tags, added));
  }

  lemma GroupAddedExact(n: Layout, connections: seq<Id>, added: Tag)
    requires Normal(n, connections) && added.id !in Ids(n.tags)
    ensures GroupAdded(n, connections, added)
         == Layout(AddedTags(n.tags, added), if AddedParent(n.tags, added).Some? then n.root else AddedLayout(n, added).root)
  {
    var token, rest := TagToken(added.id), Drop(n.root, Elems(ConnTokens(added.conns)));
    AddedNormalized(n.tags, added);
    AddedFound(n.tags, added);
    AddedRootOrder(n, connections, added);
    if AddedParent(n.tags, added) == None {
      NewNotAtRoot(n, connections, added);
      DropSnoc(rest, token, {token});
      DropNone(rest, {token});
    }
  }

  /** Adding a group: nothing happens if its id or, at its place, its name is taken. Otherwise it stands last
      under its parent, or at the root before the first connection if that parent does not exist; it has the
      connections asked for, in the order asked for as far as that names them, and every other list loses
      these connections and nothing else. */
  lemma AddGroupExact(l: Layout, connections: seq<Id>, added: Tag, nameTaken: bool)
    ensures var n := Normalize(l, connections);
            AddGroup(l, connections, added, nameTaken)
            == if added.id in Ids(n.tags) || nameTaken then n else AddedLayout(n, added)
  {
    var n := Normalize(l, connections);
    NormalizeIsNormal(l, connections);
    if added.id !in Ids(n.tags) && !nameTaken {
      var tags := AddedTags(n.tags, added);
      GroupAddedExact(n, connections, added);
      AddedNormalized(n.tags, added);
      NormalizeConsistent(tags);
      AlignedFixed(tags);
      if AddedParent(n.tags, added) == None {
        AddedAtRoot(n, connections, added);
      } else {
        AddedRootOrder(n, connections, added);
      }
    }
  }
}
