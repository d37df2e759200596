/** Moving a group: `moveConnectionTagInTree`. The move detaches the tag, repairs the list, places the
    token and repairs again. The lemmas follow these stages: what detaching leaves sound, what the first
    repair then makes of the order lists (the token comes last in its new list), and that the placed
    list is already repaired. Together they give the exact outcome, `MovedLayout`, in which one parent
    pointer and one token have changed. */
module SidebarMoveTag {
  import opened Options
  import opened Seqs
  import opened ParentChain
  import opened SidebarTags
  import opened SidebarNormal
  import opened SidebarPlacement
  import opened SidebarEdits

  /** The tag's token out of every order list, its parent replaced. */
  function Detach(tags: seq<Tag>, tagId: Id, parent: Option<Id>): (r: seq<Tag>)
    ensures |r| == |tags|
  {
    seq(|tags|, i requires 0 <= i < |tags| =>
      tags[i].(order := Drop(tags[i].order, {TagToken(tagId)}), parent := if tags[i].id == tagId then parent else tags[i].parent))
  }

  function SetOrder(tags: seq<Tag>, id: Id, order: seq<Token>): (r: seq<Tag>)
    ensures |r| == |tags|
  {
    seq(|tags|, i requires 0 <= i < |tags| => if tags[i].id == id then tags[i].(order := order) else tags[i])
  }

  /** `resolveConnectionTagChildOrder`. */
  function ChildOrderOf(tags: seq<Tag>, id: Id): seq<Token> {
    match Find(tags, id)
    case None => []
    case Some(t) => ChildOrder(t, tags)
  }

  ghost predicate MayMove(tags: seq<Tag>, tagId: Id, parent: Option<Id>) {
    && tagId in Ids(tags)
    && (parent.Some? ==> parent.value in Ids(tags) && !Below(Parents(tags), parent.value, tagId))
  }

  /** The layout that the move hands to its last repair. */
  ghost function Reparented(n: Layout, connections: seq<Id>, tagId: Id, parent: Option<Id>,
                            target: Option<Token>, before: bool): Layout
  {
    var token := TagToken(tagId);
    var tags := NormalizeTags(Detach(n.tags, tagId, parent));
    var root := Drop(n.root, {token});
    match parent
    case Some(p) => Layout(SetOrder(tags, p, Place(ChildOrderOf(tags, p), token, target, before)), root)
    case None => Layout(tags, Place(RootOrder(root, tags, connections), token, target, before))
  }

  ghost function MoveTagInTree(l: Layout, connections: seq<Id>, tagId: Id, parent: Option<Id>,
                               target: Option<Token>, before: bool): Option<Layout>
  {
    var n := Normalize(l, connections);
    if MayMove(n.tags, tagId, parent) then
      Some(Normalize(Reparented(n, connections, tagId, parent, target, before), connections))
    else None
  }

  // ----- the outcome, said outright -----

  /** Only the moved tag's parent changes; its token leaves its old list and is placed in the new. */
  function MovedTag(t: Tag, tagId: Id, parent: Option<Id>, target: Option<Token>, before: bool): Tag {
    var rest := Drop(t.order, {TagToken(tagId)});
    t.(parent := if t.id == tagId then parent else t.parent,
       order := if parent == Some(t.id) then PlaceIn(rest, TagToken(tagId), target, before) else rest)
  }

  function MovedLayout(n: Layout, tagId: Id, parent: Option<Id>, target: Option<Token>, before: bool): Layout {
    var rest := Drop(n.root, {TagToken(tagId)});
    Layout(
      seq(|n.tags|, i requires 0 <= i < |n.tags| => MovedTag(n.tags[i], tagId, parent, target, before)),
      if parent == None then PlaceIn(rest, TagToken(tagId), target, before) else rest)
  }

  // ----- the detached list -----

  lemma DetachFind(tags: seq<Tag>, tagId: Id, parent: Option<Id>, x: Id)
    requires DistinctIds(tags)
    ensures DistinctIds(Detach(tags, tagId, parent)) && Ids(Detach(tags, tagId, parent)) == Ids(tags)
    ensures x in Parents(Detach(tags, tagId, parent)) <==>
            if x == tagId then tagId in Ids(tags) && parent.Some? else x in Parents(tags)
    ensures x in Parents(Detach(tags, tagId, parent)) ==>
            Parents(Detach(tags, tagId, parent))[x] == if x == tagId then parent.value else Parents(tags)[x]
  {
    var r := Detach(tags, tagId, parent);
    CutIds(tags, r);
    if x in Ids(tags) {
      var i := IdIndex(tags, x);
      ParentsOf(tags, tags[i]);
      assert r[i] in r;
      ParentsOf(r, r[i]);
    }
  }

  lemma DetachParents(tags: seq<Tag>, tagId: Id, parent: Option<Id>)
    requires DistinctIds(tags) && tagId in Ids(tags)
    ensures Parents(Detach(tags, tagId, parent))
         == if parent.Some? then Parents(tags)[tagId := parent.value] else Parents(tags) - {tagId}
  {
    forall x
      ensures x in Parents(Detach(tags, tagId, parent)) <==> if x == tagId then parent.Some? else x in Parents(tags)
      ensures x in Parents(Detach(tags, tagId, parent)) ==>
              Parents(Detach(tags, tagId, parent))[x] == if x == tagId then parent.value else Parents(tags)[x]
    {
      DetachFind(tags, tagId, parent, x);
    }
    MapReparented(Parents(tags), Parents(Detach(tags, tagId, parent)), tagId, parent);
  }

  lemma MapReparented(up: map<Id, Id>, up': map<Id, Id>, tagId: Id, parent: Option<Id>)
    requires forall x :: x in up' <==> if x == tagId then parent.Some? else x in up
    requires forall x :: x in up' ==> up'[x] == if x == tagId then parent.value else up[x]
    ensures up' == if parent.Some? then up[tagId := parent.value] else up - {tagId}
  {
  }

  lemma DetachAcyclic(up: map<Id, Id>, tagId: Id, parent: Option<Id>)
    requires Acyclic(up) && (parent.Some? ==> !Below(up, parent.value, tagId))
    ensures Acyclic(if parent.Some? then up[tagId := parent.value] else up - {tagId})
  {
    if parent.Some? {
      ReparentAcyclic(up, tagId, parent.value);
    } else {
      SubAcyclic(up - {tagId}, up);
    }
  }

  lemma DetachSoundParents(tags: seq<Tag>, tagId: Id, parent: Option<Id>)
    requires DistinctIds(tags) && SoundParents(tags) && MayMove(tags, tagId, parent)
    ensures SoundParents(Detach(tags, tagId, parent))
  {
    var r := Detach(tags, tagId, parent);
    CutIds(tags, r);
    DetachParents(tags, tagId, parent);
    DetachAcyclic(Parents(tags), tagId, parent);
    forall t | t in r && t.parent.Some? ensures t.parent.value in Ids(r) {
      var i :| 0 <= i < |r| && r[i] == t;
      assert tags[i] in tags;
    }
  }

  lemma DetachSound(tags: seq<Tag>, tagId: Id, parent: Option<Id>)
    requires Consistent(tags) && MayMove(tags, tagId, parent)
    ensures Sound(Detach(tags, tagId, parent))
  {
    var r := Detach(tags, tagId, parent);
    DetachSoundParents(tags, tagId, parent);
    SameConnsSole(tags, r);
    forall t | t in tags ensures NoDup(t.order) {
      assert CompleteOrder(tags, t);
    }
    DetachedNoDup(tags, tagId, parent);
  }

  lemma DetachedNoDup(tags: seq<Tag>, tagId: Id, parent: Option<Id>)
    requires forall t :: t in tags ==> NoDup(t.order)
    ensures forall t :: t in Detach(tags, tagId, parent) ==> NoDup(t.order)
  {
    forall t | t in Detach(tags, tagId, parent) ensures NoDup(t.order) {
      var i :| 0 <= i < |tags| && Detach(tags, tagId, parent)[i] == t;
      assert tags[i] in tags;
      NoDupDrop(tags[i].order, {TagToken(tagId)});
    }
  }

  lemma TagIsChild(tags: seq<Tag>, t: Tag, u: Tag)
    requires DistinctIds(tags) && t in tags && u in tags
    ensures IsChild(tags, t, TagToken(u.id)) <==> u.parent == Some(t.id)
  {
    FindMember(tags, u);
    if IsChild(tags, t, TagToken(u.id)) {
      var v :| v in tags && v.id == u.id && v.parent == Some(t.id);
      FindMember(tags, v);
    }
  }

  /** Children in the detached list: as before, except for the moved tag. */
  lemma DetachIsChild(tags: seq<Tag>, tagId: Id, parent: Option<Id>, i: nat, tok: Token)
    requires DistinctIds(tags) && tagId in Ids(tags) && i < |tags|
    ensures var r := Detach(tags, tagId, parent);
            IsChild(r, r[i], tok) <==>
            if tok == TagToken(tagId) then parent == Some(tags[i].id) else IsChild(tags, tags[i], tok)
  {
    var r := Detach(tags, tagId, parent);
    DetachFind(tags, tagId, parent, tagId);
    match tok
    case ConnToken(c) =>
    case TagToken(k) =>
      if k in Ids(tags) {
        var j := IdIndex(tags, k);
        TagIsChild(tags, tags[i], tags[j]);
        TagIsChild(r, r[i], r[j]);
      }
  }

  /** The repaired detached list: the token stands last in its new list. */
  lemma DetachedOrder(tags: seq<Tag>, tagId: Id, parent: Option<Id>, i: nat)
    requires Consistent(tags) && Aligned(tags) && MayMove(tags, tagId, parent) && i < |tags|
    ensures var r := Detach(tags, tagId, parent);
            var rest := Drop(tags[i].order, {TagToken(tagId)});
            ChildOrder(r[i], r) == if parent == Some(tags[i].id) then rest + [TagToken(tagId)] else rest
  {
    var r := Detach(tags, tagId, parent);
    var token := TagToken(tagId);
    DetachSound(tags, tagId, parent);
    assert tags[i] in tags && CompleteOrder(tags, tags[i]);
    assert r[i] in r;
    NoDupDrop(tags[i].order, {token});
    forall tok ensures IsChild(r, r[i], tok) <==>
                       if tok == token then parent == Some(tags[i].id) else tok in tags[i].order {
      DetachIsChild(tags, tagId, parent, i, tok);
      assert tok in tags[i].order <==> IsChild(tags, tags[i], tok);
    }
    if parent == Some(tags[i].id) {
      assert LacksOnly(r, r[i], token);
      LackingOrder(r, r[i], token);
    } else {
      assert CompleteOrder(r, r[i]);
      CompleteOrderFixed(r, r[i]);
    }
  }

  /** The tags after detaching and repairing. */
  function Reattached(tags: seq<Tag>, tagId: Id, parent: Option<Id>): seq<Tag> {
    MovedLayout(Layout(tags, []), tagId, parent, None, false).tags
  }

  /** Taking the token out and adding it last leaves the connections of a list alone. */
  lemma ConnIdsDetached(order: seq<Token>, tagId: Id)
    ensures var rest := Drop(order, {TagToken(tagId)});
            ConnIds(rest) == ConnIds(order) && ConnIds(rest + [TagToken(tagId)]) == ConnIds(order)
  {
    var rest := Drop(order, {TagToken(tagId)});
    ConnIdsDropTags(order, {TagToken(tagId)});
    ConnIdsConcat(rest, [TagToken(tagId)]);
    assert ConnIds([TagToken(tagId)]) == [];
  }

  lemma DetachedTag(tags: seq<Tag>, tagId: Id, parent: Option<Id>, i: nat)
    requires Consistent(tags) && Aligned(tags) && MayMove(tags, tagId, parent) && i < |tags|
    ensures ResolveOrders(Detach(tags, tagId, parent))[i] == Reattached(tags, tagId, parent)[i]
  {
    DetachedOrder(tags, tagId, parent, i);
    assert tags[i] in tags;
    ConnIdsDetached(tags[i].order, tagId);
  }

  lemma DetachedTags(tags: seq<Tag>, tagId: Id, parent: Option<Id>)
    requires Consistent(tags) && Aligned(tags) && MayMove(tags, tagId, parent)
    ensures NormalizeTags(Detach(tags, tagId, parent)) == Reattached(tags, tagId, parent)
    ensures Consistent(Reattached(tags, tagId, parent)) && Aligned(Reattached(tags, tagId, parent))
  {
    var r := Detach(tags, tagId, parent);
    assert ResolveOrders(r) == Reattached(tags, tagId, parent) by {
      forall i | 0 <= i < |tags| ensures ResolveOrders(r)[i] == Reattached(tags, tagId, parent)[i] {
        DetachedTag(tags, tagId, parent, i);
      }
    }
    DetachSound(tags, tagId, parent);
    NormalizeSound(r);
    NormalizeTagsConsistent(r);
  }

  lemma PlacedOrder(order: seq<Token>, tagId: Id, target: Option<Token>, before: bool)
    requires NoDup(order)
    ensures var rest := Drop(order, {TagToken(tagId)});
            var placed := PlaceIn(rest, TagToken(tagId), target, before);
            && NoDup(rest) && NoDup(placed)
            && ConnIds(placed) == ConnIds(rest + [TagToken(tagId)])
            && (forall tok :: tok in placed <==> tok in rest + [TagToken(tagId)])
  {
    var rest := Drop(order, {TagToken(tagId)});
    NoDupDrop(order, {TagToken(tagId)});
    PlaceInMembers(rest, TagToken(tagId), target, before);
    ConnIdsPlaceTag(rest, tagId, target, before);
    ConnIdsPlaceTag(rest, tagId, None, false);
  }

  /** Placing the token where it was asked for is a rearrangement of that. */
  lemma PlacedRearranges(tags: seq<Tag>, tagId: Id, parent: Option<Id>, target: Option<Token>, before: bool)
    requires forall t :: t in tags ==> NoDup(t.order)
    ensures var a, b := Reattached(tags, tagId, parent), MovedLayout(Layout(tags, []), tagId, parent, target, before).tags;
            Reordered(a, b) && forall i :: 0 <= i < |a| ==> ConnIds(b[i].order) == ConnIds(a[i].order)
  {
    forall i | 0 <= i < |tags|
      ensures var a, b := MovedTag(tags[i], tagId, parent, None, false), MovedTag(tags[i], tagId, parent, target, before);
              && b == a.(order := b.order)
              && NoDup(b.order) && ConnIds(b.order) == ConnIds(a.order)
              && (forall tok :: tok in b.order <==> tok in a.order)
    {
      assert tags[i] in tags;
      PlacedOrder(tags[i].order, tagId, target, before);
    }
  }

  // ----- the root order -----

  lemma TagIsRoot(tags: seq<Tag>, connections: seq<Id>, u: Tag)
    requires DistinctIds(tags) && u in tags
    ensures IsRoot(tags, connections, TagToken(u.id)) <==> u.parent == None
  {
    FindMember(tags, u);
    if IsRoot(tags, connections, TagToken(u.id)) {
      var v :| v in tags && v.id == u.id && v.parent == None;
      FindMember(tags, v);
    }
  }

  lemma SameConnsOwned(a: seq<Tag>, b: seq<Tag>)
    requires |a| == |b| && forall i :: 0 <= i < |a| ==> a[i].conns == b[i].conns
    ensures Owned(a) == Owned(b)
  {
    forall c ensures c in Owned(a) <==> c in Owned(b) {
      if c in Owned(a) {
        var t :| t in a && c in t.conns;
        var i :| 0 <= i < |a| && a[i] == t;
        assert b[i] in b;
      }
      if c in Owned(b) {
        var t :| t in b && c in t.conns;
        var i :| 0 <= i < |b| && b[i] == t;
        assert a[i] in a;
      }
    }
  }

  /** Roots after the move: as before, except for the moved tag. */
  lemma MovedIsRoot(tags: seq<Tag>, connections: seq<Id>, tagId: Id, parent: Option<Id>, target: Option<Token>, before: bool, tok: Token)
    requires DistinctIds(tags) && tagId in Ids(tags)
    ensures var r := MovedLayout(Layout(tags, []), tagId, parent, target, before).tags;
            IsRoot(r, connections, tok) <==>
            if tok == TagToken(tagId) then parent == None else IsRoot(tags, connections, tok)
  {
    var r := MovedLayout(Layout(tags, []), tagId, parent, target, before).tags;
    CutIds(tags, r);
    SameConnsOwned(tags, r);
    match tok
    case ConnToken(c) =>
    case TagToken(k) =>
      if k in Ids(tags) {
        var j := IdIndex(tags, k);
        TagIsRoot(tags, connections, tags[j]);
        assert r[j] in r;
        TagIsRoot(r, connections, r[j]);
      }
  }

  /** The root order without the token lacks at most the token. */
  lemma RootWithout(n: Layout, connections: seq<Id>, tagId: Id, parent: Option<Id>, target: Option<Token>, before: bool)
    requires CompleteRoot(n.tags, n.root, connections) && DistinctIds(n.tags) && tagId in Ids(n.tags)
    ensures var token, tags := TagToken(tagId), MovedLayout(n, tagId, parent, target, before).tags;
            var rest := Drop(n.root, {token});
            && NoDup(rest)
            && (forall tok :: IsRoot(tags, connections, tok) <==> tok in rest || (tok == token && parent == None))
  {
    var token, tags := TagToken(tagId), MovedLayout(n, tagId, parent, target, before).tags;
    NoDupDrop(n.root, {token});
    forall tok ensures IsRoot(tags, connections, tok) <==> tok in Drop(n.root, {token}) || (tok == token && parent == None) {
      MovedIsRoot(n.tags, connections, tagId, parent, target, before, tok);
      assert tok in n.root <==> IsRoot(n.tags, connections, tok);
    }
  }

  // ----- putting it together -----

  lemma MovedIsConsistent(tags: seq<Tag>, tagId: Id, parent: Option<Id>, target: Option<Token>, before: bool)
    requires Consistent(tags) && Aligned(tags) && MayMove(tags, tagId, parent)
    ensures Consistent(MovedLayout(Layout(tags, []), tagId, parent, target, before).tags)
    ensures Aligned(MovedLayout(Layout(tags, []), tagId, parent, target, before).tags)
  {
    DetachedTags(tags, tagId, parent);
    forall t | t in tags ensures NoDup(t.order) {
      assert CompleteOrder(tags, t);
    }
    PlacedRearranges(tags, tagId, parent, target, before);
    var a, b := Reattached(tags, tagId, parent), MovedLayout(Layout(tags, []), tagId, parent, target, before).tags;
    ReorderedConsistent(a, b);
    ReorderedAligned(a, b);
  }

  lemma MovedIsNormal(n: Layout, connections: seq<Id>, tagId: Id, parent: Option<Id>, target: Option<Token>, before: bool)
    requires Normal(n, connections) && MayMove(n.tags, tagId, parent)
    ensures Normal(MovedLayout(n, tagId, parent, target, before), connections)
  {
    var m := MovedLayout(n, tagId, parent, target, before);
    assert m.tags == MovedLayout(Layout(n.tags, []), tagId, parent, target, before).tags;
    MovedIsConsistent(n.tags, tagId, parent, target, before);
    RootWithout(n, connections, tagId, parent, target, before);
    PlaceInMembers(Drop(n.root, {TagToken(tagId)}), TagToken(tagId), target, before);
  }

  lemma PlaceLast(rest: seq<Token>, token: Token, target: Option<Token>, before: bool)
    requires token !in rest
    ensures Place(rest + [token], token, target, before) == PlaceIn(rest, token, target, before)
  {
    DropSnoc(rest, token, {token});
    DropNone(rest, {token});
  }

  /** Before the placing, the token is the last child of its new parent. */
  lemma ReattachedOrder(tags: seq<Tag>, tagId: Id, parent: Id) returns (i: nat)
    requires Consistent(tags) && Aligned(tags) && MayMove(tags, tagId, Some(parent))
    ensures i < |tags| && tags[i].id == parent
    ensures ChildOrderOf(Reattached(tags, tagId, Some(parent)), parent)
         == Drop(tags[i].order, {TagToken(tagId)}) + [TagToken(tagId)]
  {
    var r := Reattached(tags, tagId, Some(parent));
    DetachedTags(tags, tagId, Some(parent));
    i := IdIndex(tags, parent);
    assert r[i] in r;
    FindMember(r, r[i]);
    CompleteOrderFixed(r, r[i]);
  }

  lemma SetOneOrder(tags: seq<Tag>, tagId: Id, i: nat, target: Option<Token>, before: bool)
    requires DistinctIds(tags) && i < |tags|
    ensures SetOrder(Reattached(tags, tagId, Some(tags[i].id)), tags[i].id,
                     PlaceIn(Drop(tags[i].order, {TagToken(tagId)}), TagToken(tagId), target, before))
         == MovedLayout(Layout(tags, []), tagId, Some(tags[i].id), target, before).tags
  {
  }

  /** The list that is handed to the last repair is already the outcome. */
  lemma PlacedTags(tags: seq<Tag>, tagId: Id, parent: Id, target: Option<Token>, before: bool)
    requires Consistent(tags) && Aligned(tags) && MayMove(tags, tagId, Some(parent))
    ensures var r := Reattached(tags, tagId, Some(parent));
            SetOrder(r, parent, Place(ChildOrderOf(r, parent), TagToken(tagId), target, before))
            == MovedLayout(Layout(tags, []), tagId, Some(parent), target, before).tags
  {
    var i := ReattachedOrder(tags, tagId, parent);
    PlaceLast(Drop(tags[i].order, {TagToken(tagId)}), TagToken(tagId), target, before);
    SetOneOrder(tags, tagId, i, target, before);
  }

  lemma PlacedRoot(n: Layout, connections: seq<Id>, tagId: Id, target: Option<Token>, before: bool)
    requires Normal(n, connections) && MayMove(n.tags, tagId, None)
    ensures var rest := Drop(n.root, {TagToken(tagId)});
            Place(RootOrder(rest, Reattached(n.tags, tagId, None), connections), TagToken(tagId), target, before)
            == PlaceIn(rest, TagToken(tagId), target, before)
  {
    var rest := Drop(n.root, {TagToken(tagId)});
    RootWithout(n, connections, tagId, None, None, false);
    assert MovedLayout(n, tagId, None, None, false).tags == Reattached(n.tags, tagId, None);
    LackingRoot(rest, Reattached(n.tags, tagId, None), connections, TagToken(tagId));
    PlaceLast(rest, TagToken(tagId), target, before);
  }

  lemma ReparentedUnder(n: Layout, connections: seq<Id>, tagId: Id, parent: Id, target: Option<Token>, before: bool)
    requires Normal(n, connections) && MayMove(n.tags, tagId, Some(parent))
    ensures Reparented(n, connections, tagId, Some(parent), target, before) == MovedLayout(n, tagId, Some(parent), target, before)
  {
    DetachedTags(n.tags, tagId, Some(parent));
    PlacedTags(n.tags, tagId, parent, target, before);
  }

  lemma ReparentedToRoot(n: Layout, connections: seq<Id>, tagId: Id, target: Option<Token>, before: bool)
    requires Normal(n, connections) && MayMove(n.tags, tagId, None)
    ensures Reparented(n, connections, tagId, None, target, before) == MovedLayout(n, tagId, None, target, before)
  {
    DetachedTags(n.tags, tagId, None);
    PlacedRoot(n, connections, tagId, target, before);
    MovedToRootTags(n, tagId, target, before);
  }

  lemma MovedToRootTags(n: Layout, tagId: Id, target: Option<Token>, before: bool)
    ensures Reattached(n.tags, tagId, None) == MovedLayout(n, tagId, None, target, before).tags
  {
  }

  /** The move is refused exactly when the tag or the new parent does not exist or the parent is the
      tag itself or below it. Otherwise the repaired layout changes as `MovedLayout` says: one parent
      pointer, the moved token, and nothing else. */
  lemma MoveTagExact(l: Layout, connections: seq<Id>, tagId: Id, parent: Option<Id>, target: Option<Token>, before: bool)
    ensures var n := Normalize(l, connections);
            MoveTagInTree(l, connections, tagId, parent, target, before)
            == if MayMove(n.tags, tagId, parent) then Some(MovedLayout(n, tagId, parent, target, before)) else None
  {
    var n := Normalize(l, connections);
    NormalizeIsNormal(l, connections);
    if MayMove(n.tags, tagId, parent) {
      match parent {
        case Some(p) => ReparentedUnder(n, connections, tagId, p, target, before);
        case None => ReparentedToRoot(n, connections, tagId, target, before);
      }
      MovedIsNormal(n, connections, tagId, parent, target, before);
      NormalIsFixed(MovedLayout(n, tagId, parent, target, before), connections);
    }
  }

  /** The list that a tag with this parent is shown in. */
  function Siblings(l: Layout, parent: Option<Id>): seq<Token> {
    match parent
    case None => l.root
    case Some(p) => match Find(l.tags, p) case None => [] case Some(t) => t.order
  }

  lemma MovedSiblings(n: Layout, connections: seq<Id>, tagId: Id, parent: Option<Id>, target: Option<Token>, before: bool)
    requires Normal(n, connections) && MayMove(n.tags, tagId, parent)
    ensures var rest := Drop(Siblings(n, parent), {TagToken(tagId)});
            Siblings(MovedLayout(n, tagId, parent, target, before), parent) == PlaceIn(rest, TagToken(tagId), target, before)
  {
    var m := MovedLayout(n, tagId, parent, target, before);
    if parent.Some? {
      var i := IdIndex(n.tags, parent.value);
      FindAt(n.tags, i);
      assert DistinctIds(m.tags);
      FindAt(m.tags, i);
    }
  }

  lemma FindAt(tags: seq<Tag>, i: nat)
    requires DistinctIds(tags) && i < |tags|
    ensures Find(tags, tags[i].id) == Some(tags[i])
  {
    assert tags[i] in tags;
    FindMember(tags, tags[i]);
  }

  /** What a user sees of it: owners and all other parents stay, every other token keeps its relative
      order in every list, and the moved token lands directly beside another sibling named as target,
      else last. */
  lemma MoveTagKeepsTheRest(n: Layout, connections: seq<Id>, tagId: Id, parent: Option<Id>, target: Option<Token>, before: bool)
      returns (m: Layout)
    requires Normal(n, connections) && MayMove(n.tags, tagId, parent)
    ensures MoveTagInTree(n, connections, tagId, parent, target, before) == Some(m)
    ensures |m.tags| == |n.tags|
    ensures forall i :: 0 <= i < |n.tags| ==> KeptBut(n.tags[i], m.tags[i], tagId, parent)
    ensures Drop(m.root, {TagToken(tagId)}) == Drop(n.root, {TagToken(tagId)})
    ensures LandsBeside(Siblings(m, parent), Drop(Siblings(n, parent), {TagToken(tagId)}), TagToken(tagId), target, before)
  {
    m := MovedLayout(n, tagId, parent, target, before);
    MoveNormalTag(n, connections, tagId, parent, target, before);
    MovedTagsKeep(n.tags, tagId, parent, target, before);
    assert m.tags == MovedLayout(Layout(n.tags, []), tagId, parent, target, before).tags;
    OrderRest(n.root, TagToken(tagId), target, before);
    MovedSiblings(n, connections, tagId, parent, target, before);
    PlaceInBeside(Drop(Siblings(n, parent), {TagToken(tagId)}), TagToken(tagId), target, before);
  }

  lemma MoveNormalTag(n: Layout, connections: seq<Id>, tagId: Id, parent: Option<Id>, target: Option<Token>, before: bool)
    requires Normal(n, connections) && MayMove(n.tags, tagId, parent)
    ensures MoveTagInTree(n, connections, tagId, parent, target, before) == Some(MovedLayout(n, tagId, parent, target, before))
  {
    NormalIsFixed(n, connections);
    MoveTagExact(n, connections, tagId, parent, target, before);
  }

  ghost predicate KeptBut(a: Tag, b: Tag, tagId: Id, parent: Option<Id>) {
    && b.id == a.id && b.info == a.info && b.conns == a.conns
    && b.parent == (if a.id == tagId then parent else a.parent)
    && Drop(b.order, {TagToken(tagId)}) == Drop(a.order, {TagToken(tagId)})
  }

  lemma MovedTagsKeep(tags: seq<Tag>, tagId: Id, parent: Option<Id>, target: Option<Token>, before: bool)
    requires Consistent(tags)
    ensures forall i :: 0 <= i < |tags| ==>
              KeptBut(tags[i], MovedLayout(Layout(tags, []), tagId, parent, target, before).tags[i], tagId, parent)
  {
    forall i | 0 <= i < |tags|
      ensures KeptBut(tags[i], MovedLayout(Layout(tags, []), tagId, parent, target, before).tags[i], tagId, parent)
    {
      MovedTagRest(tags, tagId, parent, target, before, i);
    }
  }

  lemma MovedTagRest(tags: seq<Tag>, tagId: Id, parent: Option<Id>, target: Option<Token>, before: bool, i: nat)
    requires Consistent(tags) && i < |tags|
    ensures Drop(MovedTag(tags[i], tagId, parent, target, before).order, {TagToken(tagId)})
         == Drop(tags[i].order, {TagToken(tagId)})
  {
    assert tags[i] in tags && CompleteOrder(tags, tags[i]);
    OrderRest(tags[i].order, TagToken(tagId), target, before);
  }

  lemma OrderRest(order: seq<Token>, token: Token, target: Option<Token>, before: bool)
    requires NoDup(order)
    ensures var rest := Drop(order, {token});
            Drop(rest, {token}) == rest && Drop(PlaceIn(rest, token, target, before), {token}) == rest
  {
    var rest := Drop(order, {token});
    NoDupDrop(order, {token});
    DropNone(rest, {token});
    PlaceInMembers(rest, token, target, before);
  }
}
