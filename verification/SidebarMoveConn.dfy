/** Moving one connection: `moveConnectionInTree`. The move takes the connection out of every list, hands
    it to its new owner, repairs, places the token and repairs again. The lemmas follow these stages for
    a move into a group and for a move to the root, where the place depends on the root group that the
    connection came out of. Together they give the exact outcome, `RelocatedLayout`, in which one
    connection has changed hands. */
module SidebarMoveConn {
  import opened Options
  import opened Seqs
  import opened ParentChain
  import opened SidebarTags
  import opened SidebarNormal
  import opened SidebarForest
  import opened SidebarPlacement
  import opened SidebarEdits
  import opened SidebarMoveTag

  /** The connection out of every list, and owned by `to` if that is a tag. */
  function Reassign(tags: seq<Tag>, c: Id, to: Option<Id>): (r: seq<Tag>)
    ensures |r| == |tags|
  {
    seq(|tags|, i requires 0 <= i < |tags| =>
      tags[i].(order := Drop(tags[i].order, {ConnToken(c)}),
               conns := Drop(tags[i].conns, {c}) + if to == Some(tags[i].id) then [c] else []))
  }

  /** The root group that a connection is shown in (`getRootConnectionTagId` of its owner). */
  function RootGroup(tags: seq<Tag>, c: Id): Option<Id> {
    match Owner(tags, c)
    case None => None
    case Some(owner) => Top(Parents(tags), owner)
  }

  /** The layout that the move hands to its last repair. */
  ghost function Relocated(n: Layout, connections: seq<Id>, c: Id, to: Option<Id>,
                           target: Option<Token>, before: bool): Layout
  {
    var token := ConnToken(c);
    var tags := NormalizeTags(Reassign(n.tags, c, to));
    var root := Drop(n.root, {token});
    match to
    case Some(p) => Layout(SetOrder(tags, p, Place(ChildOrderOf(tags, p), token, target, before)), root)
    case None =>
      var order := RootOrder(root, tags, connections);
      Layout(tags,
        if target.Some? then Place(order, token, target, before)
        else if RootGroup(n.tags, c).Some? then InsertAfter(order, token, TagToken(RootGroup(n.tags, c).value))
        else InsertBeforeUngrouped(order, token))
  }

  ghost function MoveConnInTree(l: Layout, connections: seq<Id>, c: Id, to: Option<Id>,
                                target: Option<Token>, before: bool): Option<Layout>
  {
    var n := Normalize(l, connections);
    if c in connections && (to.Some? ==> to.value in Ids(n.tags)) then
      Some(Normalize(Relocated(n, connections, c, to, target, before), connections))
    else None
  }

  // ----- the outcome, said outright -----

  /** Where the token goes at the root: beside its target, else after the root group it left, else last. */
  function Anchor(tags: seq<Tag>, c: Id, target: Option<Token>): Option<Token> {
    if target.Some? then target
    else match RootGroup(tags, c) case None => None case Some(g) => Some(TagToken(g))
  }

  function RelocatedTag(t: Tag, c: Id, to: Option<Id>, target: Option<Token>, before: bool): Tag {
    var rest := Drop(t.order, {ConnToken(c)});
    var order := if to == Some(t.id) then PlaceIn(rest, ConnToken(c), target, before) else rest;
    t.(order := order, conns := ConnIds(order))
  }

  function RelocatedTags(tags: seq<Tag>, c: Id, to: Option<Id>, target: Option<Token>, before: bool): (r: seq<Tag>)
    ensures |r| == |tags|
  {
    seq(|tags|, i requires 0 <= i < |tags| => RelocatedTag(tags[i], c, to, target, before))
  }

  function RelocatedLayout(n: Layout, c: Id, to: Option<Id>, target: Option<Token>, before: bool): Layout {
    var rest := Drop(n.root, {ConnToken(c)});
    Layout(RelocatedTags(n.tags, c, to, target, before),
           if to.Some? then rest else PlaceIn(rest, ConnToken(c), Anchor(n.tags, c, target), target.Some? && before))
  }

  // ----- the reassigned list -----

  lemma ReassignedOnce(conns: seq<Id>, c: Id, here: bool)
    requires NoDup(conns)
    ensures NoDup(Drop(conns, {c}) + if here then [c] else [])
  {
    NoDupDrop(conns, {c});
    if here {
      NoDupSnoc(Drop(conns, {c}), c);
    } else {
      assert Drop(conns, {c}) + [] == Drop(conns, {c});
    }
  }

  lemma ReassignSoleOwners(tags: seq<Tag>, c: Id, to: Option<Id>)
    requires DistinctIds(tags) && SoleOwners(tags)
    ensures SoleOwners(Reassign(tags, c, to))
  {
    var r := Reassign(tags, c, to);
    forall t | t in r ensures NoDup(t.conns) {
      var i :| 0 <= i < |r| && r[i] == t;
      assert tags[i] in tags;
      ReassignedOnce(tags[i].conns, c, to == Some(tags[i].id));
    }
    forall t, u, x | t in r && u in r && x in t.conns && x in u.conns ensures t.id == u.id {
      var i :| 0 <= i < |r| && r[i] == t;
      var j :| 0 <= j < |r| && r[j] == u;
      assert tags[i] in tags && tags[j] in tags;
    }
  }

  lemma ReassignSound(tags: seq<Tag>, c: Id, to: Option<Id>)
    requires Consistent(tags)
    ensures Sound(Reassign(tags, c, to))
  {
    var r := Reassign(tags, c, to);
    SkeletonParents(tags, r);
    SkeletonSoundParents(tags, r);
    ReassignSoleOwners(tags, c, to);
    forall t | t in r ensures NoDup(t.order) {
      var i :| 0 <= i < |r| && r[i] == t;
      assert tags[i] in tags && CompleteOrder(tags, tags[i]);
      NoDupDrop(tags[i].order, {ConnToken(c)});
    }
  }

  lemma ReassignIsChild(tags: seq<Tag>, c: Id, to: Option<Id>, i: nat, tok: Token)
    requires i < |tags|
    ensures var r := Reassign(tags, c, to);
            IsChild(r, r[i], tok) <==>
            if tok == ConnToken(c) then to == Some(tags[i].id) else IsChild(tags, tags[i], tok)
  {
    var r := Reassign(tags, c, to);
    match tok
    case ConnToken(x) =>
    case TagToken(k) =>
      SkeletonChildTokens(tags, r, Some(tags[i].id));
      assert IsChild(tags, tags[i], tok) <==> tok in ChildTokens(tags, Some(tags[i].id));
      assert IsChild(r, r[i], tok) <==> tok in ChildTokens(r, Some(tags[i].id));
  }

  lemma ReassignedOrder(tags: seq<Tag>, c: Id, to: Option<Id>, i: nat)
    requires Consistent(tags) && i < |tags|
    ensures var r := Reassign(tags, c, to);
            var rest := Drop(tags[i].order, {ConnToken(c)});
            ChildOrder(r[i], r) == if to == Some(tags[i].id) then rest + [ConnToken(c)] else rest
  {
    var r, token := Reassign(tags, c, to), ConnToken(c);
    assert tags[i] in tags && CompleteOrder(tags, tags[i]);
    assert r[i] in r;
    NoDupDrop(tags[i].order, {token});
    forall tok ensures IsChild(r, r[i], tok) <==>
                       if tok == token then to == Some(tags[i].id) else tok in tags[i].order {
      ReassignIsChild(tags, c, to, i, tok);
      assert tok in tags[i].order <==> IsChild(tags, tags[i], tok);
    }
    if to == Some(tags[i].id) {
      assert LacksOnly(r, r[i], token);
      LackingOrder(r, r[i], token);
    } else {
      assert CompleteOrder(r, r[i]);
      CompleteOrderFixed(r, r[i]);
    }
  }

  lemma ReassignedTags(tags: seq<Tag>, c: Id, to: Option<Id>)
    requires Consistent(tags)
    ensures NormalizeTags(Reassign(tags, c, to)) == RelocatedTags(tags, c, to, None, false)
    ensures Consistent(RelocatedTags(tags, c, to, None, false)) && Aligned(RelocatedTags(tags, c, to, None, false))
  {
    var r := Reassign(tags, c, to);
    assert ResolveOrders(r) == RelocatedTags(tags, c, to, None, false) by {
      forall i | 0 <= i < |tags| ensures ResolveOrders(r)[i] == RelocatedTags(tags, c, to, None, false)[i] {
        ReassignedOrder(tags, c, to, i);
      }
    }
    ReassignSound(tags, c, to);
    NormalizeSound(r);
    NormalizeTagsConsistent(r);
  }

  // ----- placing it -----

  /** The tags that the last repair is given: placed, but with the owner list not yet realigned. */
  function HandedTags(tags: seq<Tag>, c: Id, to: Option<Id>, target: Option<Token>, before: bool): (r: seq<Tag>)
    ensures |r| == |tags|
  {
    seq(|tags|, i requires 0 <= i < |tags| =>
      RelocatedTag(tags[i], c, to, None, false).(order := RelocatedTag(tags[i], c, to, target, before).order))
  }

  lemma PlacedConnOrder(t: Tag, c: Id, to: Option<Id>, target: Option<Token>, before: bool)
    requires NoDup(t.order)
    ensures var a, b := RelocatedTag(t, c, to, None, false), RelocatedTag(t, c, to, target, before);
            NoDup(b.order) && forall tok :: tok in b.order <==> tok in a.order
  {
    var rest := Drop(t.order, {ConnToken(c)});
    NoDupDrop(t.order, {ConnToken(c)});
    PlaceInMembers(rest, ConnToken(c), target, before);
  }

  lemma HandedReorders(tags: seq<Tag>, c: Id, to: Option<Id>, target: Option<Token>, before: bool)
    requires forall t :: t in tags ==> NoDup(t.order)
    ensures Reordered(RelocatedTags(tags, c, to, None, false), HandedTags(tags, c, to, target, before))
  {
    forall i | 0 <= i < |tags|
      ensures var a, b := RelocatedTag(tags[i], c, to, None, false), RelocatedTag(tags[i], c, to, target, before);
              NoDup(b.order) && forall tok :: tok in b.order <==> tok in a.order
    {
      assert tags[i] in tags;
      PlacedConnOrder(tags[i], c, to, target, before);
    }
  }

  lemma HandedConsistent(tags: seq<Tag>, c: Id, to: Option<Id>, target: Option<Token>, before: bool)
    requires Consistent(tags)
    ensures Consistent(HandedTags(tags, c, to, target, before))
    ensures NormalizeTags(HandedTags(tags, c, to, target, before)) == RelocatedTags(tags, c, to, target, before)
  {
    forall t | t in tags ensures NoDup(t.order) {
      assert CompleteOrder(tags, t);
    }
    ReassignedTags(tags, c, to);
    HandedReorders(tags, c, to, target, before);
    ReorderedConsistent(RelocatedTags(tags, c, to, None, false), HandedTags(tags, c, to, target, before));
    NormalizeConsistent(HandedTags(tags, c, to, target, before));
    assert Align(HandedTags(tags, c, to, target, before)) == RelocatedTags(tags, c, to, target, before);
  }

  lemma RelocatedConsistent(tags: seq<Tag>, c: Id, to: Option<Id>, target: Option<Token>, before: bool)
    requires Consistent(tags)
    ensures Consistent(RelocatedTags(tags, c, to, target, before)) && Aligned(RelocatedTags(tags, c, to, target, before))
  {
    HandedConsistent(tags, c, to, target, before);
    NormalizeTagsConsistent(HandedTags(tags, c, to, target, before));
  }

  // ----- the root order -----

  lemma RelocatedOwned(tags: seq<Tag>, c: Id, to: Option<Id>, target: Option<Token>, before: bool, x: Id)
    requires Aligned(tags) && (to.Some? ==> to.value in Ids(tags))
    ensures x in Owned(RelocatedTags(tags, c, to, target, before)) <==> if x == c then to.Some? else x in Owned(tags)
  {
    var b := RelocatedTags(tags, c, to, target, before);
    if x == c && to.Some? {
      var i := IdIndex(tags, to.value);
      assert tags[i] in tags && b[i] in b;
      RelocatedConn(tags[i], c, to, target, before, x);
    }
    if x in Owned(b) {
      var t :| t in b && x in t.conns;
      var i :| 0 <= i < |b| && b[i] == t;
      assert tags[i] in tags;
      RelocatedConn(tags[i], c, to, target, before, x);
    }
    if x != c && x in Owned(tags) {
      var t :| t in tags && x in t.conns;
      var i :| 0 <= i < |tags| && tags[i] == t;
      assert b[i] in b;
      RelocatedConn(tags[i], c, to, target, before, x);
    }
  }

  lemma RelocatedConn(t: Tag, c: Id, to: Option<Id>, target: Option<Token>, before: bool, x: Id)
    requires t.conns == ConnIds(t.order)
    ensures x in RelocatedTag(t, c, to, target, before).conns <==> if x == c then to == Some(t.id) else x in t.conns
  {
    var rest := Drop(t.order, {ConnToken(c)});
    if to == Some(t.id) {
      PlaceInHas(rest, ConnToken(c), target, before, ConnToken(x));
    }
  }

  lemma PlaceInHas(rest: seq<Token>, token: Token, target: Option<Token>, before: bool, x: Token)
    ensures x in PlaceIn(rest, token, target, before) <==> x in rest || x == token
  {
    if target.Some? && target.value in rest {
      var k := IndexOf(rest, target.value);
      assert rest == rest[..k] + rest[k..];
      assert rest == rest[..k + 1] + rest[k + 1..];
    }
  }

  lemma RelocatedIsRoot(n: Layout, connections: seq<Id>, c: Id, to: Option<Id>, target: Option<Token>, before: bool, tok: Token)
    requires Normal(n, connections) && c in connections && (to.Some? ==> to.value in Ids(n.tags))
    ensures IsRoot(RelocatedTags(n.tags, c, to, target, before), connections, tok) <==>
            tok in Drop(n.root, {ConnToken(c)}) || (tok == ConnToken(c) && to == None)
  {
    var r := RelocatedTags(n.tags, c, to, target, before);
    assert tok in n.root <==> IsRoot(n.tags, connections, tok);
    SkeletonChildTokens(n.tags, r, None);
    match tok
    case ConnToken(x) => RelocatedOwned(n.tags, c, to, target, before, x);
    case TagToken(k) =>
      assert IsRoot(n.tags, connections, tok) <==> tok in ChildTokens(n.tags, None);
      assert IsRoot(r, connections, tok) <==> tok in ChildTokens(r, None);
  }

  lemma RelocatedIsNormal(n: Layout, connections: seq<Id>, c: Id, to: Option<Id>, target: Option<Token>, before: bool)
    requires Normal(n, connections) && c in connections && (to.Some? ==> to.value in Ids(n.tags))
    ensures Normal(RelocatedLayout(n, c, to, target, before), connections)
  {
    RelocatedConsistent(n.tags, c, to, target, before);
    var token := ConnToken(c);
    NoDupDrop(n.root, {token});
    PlaceInMembers(Drop(n.root, {token}), token, Anchor(n.tags, c, target), target.Some? && before);
    forall tok ensures tok in RelocatedLayout(n, c, to, target, before).root
                       <==> IsRoot(RelocatedTags(n.tags, c, to, target, before), connections, tok) {
      RelocatedIsRoot(n, connections, c, to, target, before, tok);
    }
  }

  // ----- putting it together -----

  lemma ReassignedChildOrder(tags: seq<Tag>, c: Id, p: Id) returns (i: nat)
    requires Consistent(tags) && p in Ids(tags)
    ensures i < |tags| && tags[i].id == p
    ensures ChildOrderOf(RelocatedTags(tags, c, Some(p), None, false), p) == Drop(tags[i].order, {ConnToken(c)}) + [ConnToken(c)]
  {
    var r := RelocatedTags(tags, c, Some(p), None, false);
    ReassignedTags(tags, c, Some(p));
    i := IdIndex(tags, p);
    assert r[i] in r;
    FindMember(r, r[i]);
    CompleteOrderFixed(r, r[i]);
  }

  lemma HandedUnder(tags: seq<Tag>, c: Id, i: nat, target: Option<Token>, before: bool)
    requires DistinctIds(tags) && i < |tags|
    ensures SetOrder(RelocatedTags(tags, c, Some(tags[i].id), None, false), tags[i].id,
                     PlaceIn(Drop(tags[i].order, {ConnToken(c)}), ConnToken(c), target, before))
         == HandedTags(tags, c, Some(tags[i].id), target, before)
  {
    var p := tags[i].id;
    var order := PlaceIn(Drop(tags[i].order, {ConnToken(c)}), ConnToken(c), target, before);
    forall j | 0 <= j < |tags|
      ensures var a, b := RelocatedTag(tags[j], c, Some(p), None, false), RelocatedTag(tags[j], c, Some(p), target, before);
              (if a.id == p then a.(order := order) else a) == a.(order := b.order)
    {
      HandedAt(tags[j], c, p, target, before);
      assert tags[j].id == p ==> j == i;
    }
    SetOrderAt(RelocatedTags(tags, c, Some(p), None, false), HandedTags(tags, c, Some(p), target, before), p, order);
  }

  lemma SetOrderAt(a: seq<Tag>, b: seq<Tag>, p: Id, order: seq<Token>)
    requires |a| == |b| && forall j :: 0 <= j < |a| ==> b[j] == if a[j].id == p then a[j].(order := order) else a[j]
    ensures SetOrder(a, p, order) == b
  {
  }

  lemma HandedAt(t: Tag, c: Id, p: Id, target: Option<Token>, before: bool)
    ensures var a, b := RelocatedTag(t, c, Some(p), None, false), RelocatedTag(t, c, Some(p), target, before);
            && a.id == t.id
            && (if t.id == p then b.order == PlaceIn(Drop(t.order, {ConnToken(c)}), ConnToken(c), target, before) else b == a)
  {
  }

  lemma RelocatedInto(n: Layout, connections: seq<Id>, c: Id, p: Id, target: Option<Token>, before: bool)
    requires Normal(n, connections) && p in Ids(n.tags)
    ensures Relocated(n, connections, c, Some(p), target, before)
         == Layout(HandedTags(n.tags, c, Some(p), target, before), Drop(n.root, {ConnToken(c)}))
  {
    ReassignedTags(n.tags, c, Some(p));
    var i := ReassignedChildOrder(n.tags, c, p);
    PlaceLast(Drop(n.tags[i].order, {ConnToken(c)}), ConnToken(c), target, before);
    HandedUnder(n.tags, c, i, target, before);
  }

  lemma RelocatedRootOrder(n: Layout, connections: seq<Id>, c: Id)
    requires Normal(n, connections) && c in connections
    ensures RootOrder(Drop(n.root, {ConnToken(c)}), RelocatedTags(n.tags, c, None, None, false), connections)
         == Drop(n.root, {ConnToken(c)}) + [ConnToken(c)]
  {
    var rest := Drop(n.root, {ConnToken(c)});
    NoDupDrop(n.root, {ConnToken(c)});
    forall tok ensures tok in rest || tok == ConnToken(c) <==>
                       IsRoot(RelocatedTags(n.tags, c, None, None, false), connections, tok) {
      RelocatedIsRoot(n, connections, c, None, None, false, tok);
    }
    LackingRoot(rest, RelocatedTags(n.tags, c, None, None, false), connections, ConnToken(c));
  }

  /** Where the last branch of the move puts the token in a root order that ends with it. */
  lemma RelocatedAnchor(tags: seq<Tag>, rest: seq<Token>, c: Id, target: Option<Token>, before: bool)
    requires ConnToken(c) !in rest
    ensures var order, token := rest + [ConnToken(c)], ConnToken(c);
            (if target.Some? then Place(order, token, target, before)
             else if RootGroup(tags, c).Some? then InsertAfter(order, token, TagToken(RootGroup(tags, c).value))
             else InsertBeforeUngrouped(order, token))
            == PlaceIn(rest, token, Anchor(tags, c, target), target.Some? && before)
  {
    if target.Some? {
      PlaceLast(rest, ConnToken(c), target, before);
    } else if RootGroup(tags, c).Some? {
      PlaceLast(rest, ConnToken(c), Some(TagToken(RootGroup(tags, c).value)), false);
    }
  }

  lemma HandedToRoot(tags: seq<Tag>, c: Id, target: Option<Token>, before: bool)
    ensures HandedTags(tags, c, None, target, before) == RelocatedTags(tags, c, None, None, false)
  {
  }

  lemma RelocatedToRoot(n: Layout, connections: seq<Id>, c: Id, target: Option<Token>, before: bool)
    requires Normal(n, connections) && c in connections
    ensures Relocated(n, connections, c, None, target, before)
         == Layout(HandedTags(n.tags, c, None, target, before), RelocatedLayout(n, c, None, target, before).root)
  {
    ReassignedTags(n.tags, c, None);
    RelocatedRootOrder(n, connections, c);
    RelocatedAnchor(n.tags, Drop(n.root, {ConnToken(c)}), c, target, before);
    HandedToRoot(n.tags, c, target, before);
  }

  lemma RelocatedRootFixed(n: Layout, connections: seq<Id>, c: Id, to: Option<Id>, target: Option<Token>, before: bool)
    requires Normal(n, connections) && c in connections && (to.Some? ==> to.value in Ids(n.tags))
    ensures Normalize(Layout(HandedTags(n.tags, c, to, target, before), RelocatedLayout(n, c, to, target, before).root), connections)
         == RelocatedLayout(n, c, to, target, before)
  {
    HandedConsistent(n.tags, c, to, target, before);
    RelocatedIsNormal(n, connections, c, to, target, before);
    var m := RelocatedLayout(n, c, to, target, before);
    RootOrderFixed(m.root, m.tags, connections);
  }

  /** The move is refused exactly when the connection is not live or the group does not exist.
      Otherwise the connection leaves its list and its owner and lands in the new list, beside its
      target if that is there; without a target it goes last in a group, and at the root directly
      after the root group it came from. */
  lemma MoveConnExact(l: Layout, connections: seq<Id>, c: Id, to: Option<Id>, target: Option<Token>, before: bool)
    ensures var n := Normalize(l, connections);
            MoveConnInTree(l, connections, c, to, target, before)
            == if c in connections && (to.Some? ==> to.value in Ids(n.tags)) then Some(RelocatedLayout(n, c, to, target, before))
               else None
  {
    var n := Normalize(l, connections);
    NormalizeIsNormal(l, connections);
    if c in connections && (to.Some? ==> to.value in Ids(n.tags)) {
      match to {
        case Some(p) => RelocatedInto(n, connections, c, p, target, before);
        case None => RelocatedToRoot(n, connections, c, target, before);
      }
      RelocatedRootFixed(n, connections, c, to, target, before);
    }
  }
}
