/** The exact outcomes of the edits of groups, each as one function of the repaired layout, and what taking
    one connection out of everything comes to. */
module SidebarOutcomes {
  import opened Options
  import opened Seqs
  import opened SidebarTags
  import opened SidebarNormal
  import opened SidebarPlacement
  import opened SidebarMoveTag
  import opened SidebarMoveConn
  import opened SidebarRemove
  import opened SidebarRemoveTree
  import opened SidebarBatch
  import opened SidebarGroups
  import SidebarRegroup
  import SidebarStored

  function AddedAfter(n: Layout, added: Tag, nameTaken: bool): Layout {
    if added.id in Ids(n.tags) || nameTaken then n else SidebarRegroup.AddedLayout(n, added)
  }

  ghost function ChangedAfter(n: Layout, live: seq<Id>, id: Id, change: Change, nameTaken: bool): Layout {
    match Find(n.tags, id)
    case None => n
    case Some(existing) =>
      if nameTaken then n
      else
        var changed := SidebarRegroup.ChangedLayout(n, live, existing, change);
        var parent := change.parent.GetOr(existing.parent);
        if parent != existing.parent && MayMove(n.tags, id, parent) then MovedLayout(changed, id, parent, None, false) else changed
  }

  ghost function GroupMoved(l: Layout, n: Layout, tag: Id, parent: Option<Id>, target: Option<Token>, before: bool): Layout {
    if MayMove(n.tags, tag, parent) then MovedLayout(n, tag, parent, target, before) else l
  }

  function GroupsOrdered(n: Layout, ids: seq<Id>): Layout {
    var requested := Dedup(Keep(GroupTokens(ids), Elems(n.root)));
    Layout(n.tags, requested + Drop(Keep(n.root, GroupsOf(n.root)), Elems(requested)) + Drop(n.root, GroupsOf(n.root)))
  }

  function RootOrdered(n: Layout, source: Token, beside: Token, before: bool): Layout {
    if source == beside || source !in n.root then n
    else Layout(n.tags, PlaceIn(Drop(n.root, {source}), source, Some(beside), before))
  }

  ghost function TreeRemovedAfter(n: Layout, live: seq<Id>, tag: Id): Layout {
    TreeRemovedLayout(n, live, Subtree(n.tags, tag))
  }

  function RemovedAfter(n: Layout, live: seq<Id>, tag: Id): Layout {
    match Find(n.tags, tag)
    case None => n
    case Some(removed) => RemovedLayout(n, removed, live)
  }

  // ----- edits of groups -----

  lemma InsertDoes(l: Layout, live: seq<Id>, added: Tag, nameTaken: bool)
    ensures AddGroup(l, live, added, nameTaken) == AddedAfter(Normalize(l, live), added, nameTaken)
  {
    SidebarRegroup.AddGroupExact(l, live, added, nameTaken);
  }

  lemma ChangeDoes(l: Layout, live: seq<Id>, id: Id, change: Change, nameTaken: bool)
    ensures UpdateGroup(l, live, id, change, nameTaken) == ChangedAfter(Normalize(l, live), live, id, change, nameTaken)
  {
    SidebarRegroup.UpdateGroupExact(l, live, id, change, nameTaken);
  }

  lemma OrderGroupsDoes(l: Layout, live: seq<Id>, ids: seq<Id>)
    ensures ReorderGroups(l, live, ids) == GroupsOrdered(Normalize(l, live), ids)
  {
    ReorderGroupsExact(l, live, ids);
  }

  lemma MoveGroupDoes(l: Layout, live: seq<Id>, tag: Id, parent: Option<Id>, target: Option<Token>, before: bool)
    ensures MoveTagInTree(l, live, tag, parent, target, before).GetOr(l)
         == GroupMoved(l, Normalize(l, live), tag, parent, target, before)
  {
    MoveTagExact(l, live, tag, parent, target, before);
  }

  lemma OrderRootDoes(l: Layout, live: seq<Id>, source: Token, beside: Token, before: bool)
    ensures ReorderRoot(l, live, source, beside, before) == RootOrdered(Normalize(l, live), source, beside, before)
  {
    ReorderRootMoves(l, live, source, beside, before);
  }

  lemma RemoveTreeDoes(l: Layout, live: seq<Id>, tag: Id)
    ensures RemoveTree(l, live, tag) == TreeRemovedAfter(Normalize(l, live), live, tag)
  {
    RemoveTreeExact(l, live, tag);
  }

  lemma RemoveDoes(l: Layout, connections: seq<Id>, tag: Id)
    ensures RemoveGroup(l, connections, tag) == RemovedAfter(Normalize(l, connections), connections, tag)
  {
    var n := Normalize(l, connections);
    NormalizeIsNormal(l, connections);
    match Find(n.tags, tag)
    case None =>
    case Some(removed) =>
      RemoveGroupExact(n, connections, removed);
      NormalIsFixed(n, connections);
  }

  // ----- the list of tags after a removal -----

  lemma IdListSnoc(tags: seq<Tag>, last: Tag)
    ensures SidebarStored.IdList(tags + [last]) == SidebarStored.IdList(tags) + [last.id]
  {
  }

  lemma IdListLast(tags: seq<Tag>)
    requires tags != []
    ensures SidebarStored.IdList(tags) == SidebarStored.IdList(tags[..|tags| - 1]) + [tags[|tags| - 1].id]
  {
  }

  lemma {:induction false} DropSnocIds(ids: seq<Id>, x: Id, gone: set<Id>)
    ensures Drop(ids + [x], gone) == if x in gone then Drop(ids, gone) else Drop(ids, gone) + [x]
  {
    assert (ids + [x])[..|ids|] == ids;
  }

  lemma WithoutTagSnoc(tags: seq<Tag>, id: Id)
    requires tags != []
    ensures var front, last := tags[..|tags| - 1], tags[|tags| - 1];
            WithoutTag(tags, id) == if last.id == id then WithoutTag(front, id) else WithoutTag(front, id) + [last]
  {
  }

  lemma OutsideTagsSnoc(tags: seq<Tag>, gone: set<Id>)
    requires tags != []
    ensures var front, last := tags[..|tags| - 1], tags[|tags| - 1];
            OutsideTags(tags, gone) == if last.id in gone then OutsideTags(front, gone) else OutsideTags(front, gone) + [last]
  {
  }

  /** One more tag, kept or not. */
  lemma IdListStep(tags: seq<Tag>, kept: seq<Tag>, gone: set<Id>)
    requires tags != [] && SidebarStored.IdList(kept) == Drop(SidebarStored.IdList(tags[..|tags| - 1]), gone)
    ensures var last := tags[|tags| - 1];
            SidebarStored.IdList(if last.id in gone then kept else kept + [last]) == Drop(SidebarStored.IdList(tags), gone)
  {
    IdListLast(tags);
    IdListSnoc(kept, tags[|tags| - 1]);
    DropSnocIds(SidebarStored.IdList(tags[..|tags| - 1]), tags[|tags| - 1].id, gone);
  }

  lemma {:induction false} WithoutTagIds(tags: seq<Tag>, id: Id)
    ensures SidebarStored.IdList(WithoutTag(tags, id)) == Drop(SidebarStored.IdList(tags), {id})
  {
    if tags == [] {
      assert SidebarStored.IdList(tags) == [];
    } else {
      var front := tags[..|tags| - 1];
      WithoutTagIds(front, id);
      WithoutTagSnoc(tags, id);
      IdListStep(tags, WithoutTag(front, id), {id});
    }
  }

  lemma {:induction false} OutsideTagsIds(tags: seq<Tag>, gone: set<Id>)
    ensures SidebarStored.IdList(OutsideTags(tags, gone)) == Drop(SidebarStored.IdList(tags), gone)
  {
    if tags == [] {
      assert SidebarStored.IdList(tags) == [];
    } else {
      var front := tags[..|tags| - 1];
      OutsideTagsIds(front, gone);
      OutsideTagsSnoc(tags, gone);
      IdListStep(tags, OutsideTags(front, gone), gone);
    }
  }

  /** Removing a group, alone or with all groups below it, leaves the others in list order. */
  lemma RemovedInListOrder(l: Layout, connections: seq<Id>, id: Id)
    ensures var ids := SidebarStored.IdList(Normalize(l, connections).tags);
            && SidebarStored.IdList(RemoveGroup(l, connections, id).tags) == Drop(ids, {id})
            && SidebarStored.IdList(RemoveTree(l, connections, id).tags) == Drop(ids, Subtree(Normalize(l, connections).tags, id))
  {
    var n := Normalize(l, connections);
    RemoveDoes(l, connections, id);
    RemovedIds(n, connections, id);
    RemoveTreeExact(l, connections, id);
    OutsideTagsIds(n.tags, Subtree(n.tags, id));
    assert SidebarStored.IdList(Trimmed(n.tags, Subtree(n.tags, id))) == SidebarStored.IdList(OutsideTags(n.tags, Subtree(n.tags, id)));
  }

  lemma RemovedIds(n: Layout, live: seq<Id>, id: Id)
    ensures SidebarStored.IdList(RemovedAfter(n, live, id).tags) == Drop(SidebarStored.IdList(n.tags), {id})
  {
    match Find(n.tags, id)
    case None =>
      SidebarStored.IdListIds(n.tags, id);
      DropNone(SidebarStored.IdList(n.tags), {id});
    case Some(removed) =>
      WithoutTagIds(n.tags, id);
      assert SidebarStored.IdList(RemovedAfter(n, live, id).tags) == SidebarStored.IdList(WithoutTag(n.tags, id));
  }

  // ----- one connection taken out -----

  function Renamed(ids: seq<Id>, c: Id, c': Id): seq<Id> {
    if ids == [] then [] else Renamed(ids[..|ids| - 1], c, c') + [if ids[|ids| - 1] == c then c' else ids[|ids| - 1]]
  }

  /** Every mention of one connection taken out. */
  function Stripped(l: Layout, c: Id): Layout {
    Layout(seq(|l.tags|, i requires 0 <= i < |l.tags| =>
             l.tags[i].(conns := Drop(l.tags[i].conns, {c}), order := Drop(l.tags[i].order, {ConnToken(c)}))),
           Drop(l.root, {ConnToken(c)}))
  }

  function WithoutConnection(tags: seq<Tag>, c: Id): (r: seq<Tag>)
    ensures |r| == |tags|
  {
    seq(|tags|, i requires 0 <= i < |tags| => RelocatedTag(tags[i], c, None, None, false))
  }

  lemma {:induction false} RenamedIs(ids: seq<Id>, c: Id, c': Id)
    ensures Renamed(ids, c, c') == seq(|ids|, i requires 0 <= i < |ids| => if ids[i] == c then c' else ids[i])
  {
    if ids != [] {
      RenamedIs(ids[..|ids| - 1], c, c');
    }
  }

  lemma {:induction false} DropDedup(s: seq<Token>, gone: set<Token>)
    ensures Drop(Dedup(s), gone) == Dedup(Drop(s, gone))
  {
    if s != [] {
      var front, last := s[..|s| - 1], s[|s| - 1];
      DropDedup(front, gone);
      DropSnoc(Dedup(front), last, gone);
      SidebarStored.DedupSnoc(Drop(front, gone), last);
    }
  }

  lemma {:induction false} DropKeep(s: seq<Token>, keep: set<Token>, keep': set<Token>, gone: set<Token>)
    requires forall x :: x in keep' <==> x in keep && x !in gone
    ensures Drop(Keep(s, keep), gone) == Keep(Drop(s, gone), keep')
  {
    if s != [] {
      var front, last := s[..|s| - 1], s[|s| - 1];
      DropKeep(front, keep, keep', gone);
      DropSnoc(Keep(front, keep), last, gone);
      SidebarStored.KeepSnoc(Drop(front, gone), last, keep');
    }
  }

  /** Taking an item out before or after an order is resolved is the same. */
  lemma ResolveWithout(order: seq<Token>, known: seq<Token>, x: Token)
    ensures Resolve(Drop(order, {x}), Drop(known, {x})) == Drop(Resolve(order, known), {x})
  {
    DropKeep(order, Elems(known), Elems(Drop(known, {x})), {x});
    DropConcat(Keep(order, Elems(known)), known, {x});
    DropDedup(Keep(order, Elems(known)) + known, {x});
  }

  lemma {:induction false} ConnTokensDrop(ids: seq<Id>, c: Id)
    ensures Drop(ConnTokens(ids), {ConnToken(c)}) == ConnTokens(Drop(ids, {c}))
  {
    if ids != [] {
      var front, last := ids[..|ids| - 1], ids[|ids| - 1];
      ConnTokensDrop(front, c);
      DropSnoc(ConnTokens(front), ConnToken(last), {ConnToken(c)});
      SidebarBatch.ConnTokensSnoc(Drop(front, {c}), last);
    }
  }

  lemma UngroupedWithout(tags: seq<Tag>, tags': seq<Tag>, live: seq<Id>, c: Id)
    requires forall x :: x in Owned(tags') <==> x != c && x in Owned(tags)
    ensures UngroupedTokens(tags', Drop(live, {c})) == Drop(UngroupedTokens(tags, live), {ConnToken(c)})
  {
    ConnTokensDrop(Drop(live, Owned(tags)), c);
    DropDrop(live, {c}, Owned(tags'));
    DropDrop(live, Owned(tags), {c});
    DropSame(live, {c} + Owned(tags'), Owned(tags) + {c});
  }


  lemma RootWithoutConnection(l: Layout, live: seq<Id>, c: Id)
    requires Consistent(l.tags) && Aligned(l.tags)
    ensures RootOrder(Drop(l.root, {ConnToken(c)}), WithoutConnection(l.tags, c), Drop(live, {c}))
         == Drop(RootOrder(l.root, l.tags, live), {ConnToken(c)})
  {
    var tags' := WithoutConnection(l.tags, c);
    SkeletonChildTokens(l.tags, tags', None);
    assert tags' == RelocatedTags(l.tags, c, None, None, false);
    forall x ensures x in Owned(tags') <==> x != c && x in Owned(l.tags) {
      RelocatedOwned(l.tags, c, None, None, false, x);
    }
    UngroupedWithout(l.tags, tags', live, c);
    var first, rest := ChildTokens(l.tags, None), UngroupedTokens(l.tags, live);
    DropConcat(first, rest, {ConnToken(c)});
    DropNone(first, {ConnToken(c)});
    ResolveWithout(l.root, first + rest, ConnToken(c));
  }

  lemma StrippedTags(l: Layout, c: Id)
    requires Consistent(l.tags)
    ensures NormalizeTags(Stripped(l, c).tags) == WithoutConnection(l.tags, c)
  {
    var stripped := Stripped(l, c).tags;
    forall i | 0 <= i < |l.tags| ensures stripped[i] == Reassign(l.tags, c, None)[i] {
      assert Drop(l.tags[i].conns, {c}) + [] == Drop(l.tags[i].conns, {c});
    }
    assert stripped == Reassign(l.tags, c, None);
    ReassignedTags(l.tags, c, None);
  }

  /** Removing a connection takes it out of its group and out of the root, and moves nothing else. */
  lemma RemoveConnectionDoes(l: Layout, live: seq<Id>, c: Id)
    requires Consistent(l.tags) && Aligned(l.tags)
    ensures Normalize(Stripped(l, c), Drop(live, {c}))
         == Layout(WithoutConnection(l.tags, c), Drop(RootOrder(l.root, l.tags, live), {ConnToken(c)}))
  {
    StrippedTags(l, c);
    RootWithoutConnection(l, live, c);
  }

  // ----- connections moved -----

  /** `l` is the layout as it was, `n` the repaired one. */
  function ConnMoved(l: Layout, n: Layout, live: seq<Id>, c: Id, to: Option<Id>, target: Option<Token>, before: bool): Layout {
    if c !in live || (to.Some? && to.value !in Ids(n.tags)) then l else RelocatedLayout(n, c, to, target, before)
  }

  lemma ConnMoveDoes(l: Layout, live: seq<Id>, c: Id, to: Option<Id>, target: Option<Token>, before: bool, other: Layout)
    ensures MoveConnInTree(l, live, c, to, target, before).GetOr(other)
         == ConnMoved(other, Normalize(l, live), live, c, to, target, before)
  {
    MoveConnExact(l, live, c, to, target, before);
  }

  function BatchAfter(l: Layout, n: Layout, live: seq<Id>, ids: seq<Id>, to: Option<Id>): Layout {
    var chosen := Dedup(Keep(ids, Elems(live)));
    if chosen == [] || (to.Some? && to.value !in Ids(n.tags)) then l
    else Layout(ManyTags(n.tags, chosen, to), if to.Some? then Drop(n.root, Elems(ConnTokens(chosen))) else RegroupedRoot(n, chosen))
  }

  lemma BatchDoes(l: Layout, live: seq<Id>, ids: seq<Id>, to: Option<Id>)
    ensures MoveConns(l, live, ids, to) == BatchAfter(l, Normalize(l, live), live, ids, to)
  {
    NormalizeTagsConsistent(l.tags);
    if Selected(ids, live) != [] {
      match to
      case Some(p) => if p in Ids(l.tags) { BatchIntoGroup(l, live, ids, p); }
      case None => BatchToRoot(l, live, ids);
    }
  }
}
