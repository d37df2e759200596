/** Removing one group: `removeConnectionTag` puts the group's children in its place. The lemmas follow
    the action: the list without the tag is sound, its children and its connections belong to its parent
    now, and its token gives way to its own order list. The outcome, `RemovedLayout`, is then compared
    with the layout before by their depth-first walks: the walk of the spliced child lists is the old
    walk without the removed token. */
module SidebarRemove {
  import opened Options
  import opened Seqs
  import opened ParentChain
  import opened OrderedForest
  import opened SidebarTags
  import opened SidebarNormal
  import opened SidebarForest
  import opened SidebarPlacement
  import opened SidebarEdits
  import opened SidebarMoveTag

  /** The list without one tag. */
  function WithoutTag(tags: seq<Tag>, id: Id): (r: seq<Tag>)
    ensures forall t :: t in r <==> t in tags && t.id != id
  {
    if tags == [] then []
    else
      var r := WithoutTag(tags[..|tags| - 1], id);
      var last := tags[|tags| - 1];
      assert tags == tags[..|tags| - 1] + [last];
      if last.id == id then r else r + [last]
  }

  /** Children of the removed tag take its parent, and its parent takes its connections. */
  function Promote(tags: seq<Tag>, removed: Tag): (r: seq<Tag>)
    ensures |r| == |tags|
  {
    seq(|tags|, i requires 0 <= i < |tags| =>
      tags[i].(parent := if tags[i].parent == Some(removed.id) then removed.parent else tags[i].parent,
               conns := if removed.parent == Some(tags[i].id) then tags[i].conns + removed.conns else tags[i].conns))
  }

  /** The layout that the removal hands to its last repair. */
  ghost function WithoutGroup(n: Layout, removed: Tag): Layout {
    var token := TagToken(removed.id);
    var promoted := ChildOrder(removed, n.tags);
    var next := Promote(WithoutTag(n.tags, removed.id), removed);
    match removed.parent
    case Some(p) => Layout(SetOrder(next, p, Replace(ChildOrderOf(n.tags, p), token, promoted)), n.root)
    case None => Layout(next, Replace(n.root, token, promoted))
  }

  ghost function RemoveGroup(l: Layout, connections: seq<Id>, id: Id): Layout {
    var n := Normalize(l, connections);
    match Find(n.tags, id)
    case None => n
    case Some(removed) => Normalize(WithoutGroup(n, removed), connections)
  }

  // ----- the outcome, said outright -----

  /** What becomes of another tag: in every list the removed tag gives way to its children. */
  function Bypassed(t: Tag, removed: Tag): Tag {
    t.(parent := if t.parent == Some(removed.id) then removed.parent else t.parent,
       conns := if removed.parent == Some(t.id) then t.conns + removed.conns else t.conns,
       order := Splice(t.order, TagToken(removed.id), removed.order))
  }

  function BypassedTags(tags: seq<Tag>, removed: Tag): (r: seq<Tag>)
    ensures forall t :: t in tags && t.id != removed.id ==> Bypassed(t, removed) in r
  {
    var rest := WithoutTag(tags, removed.id);
    var r := seq(|rest|, i requires 0 <= i < |rest| => Bypassed(rest[i], removed));
    assert forall t :: t in rest ==> Bypassed(t, removed) in r by {
      forall t | t in rest ensures Bypassed(t, removed) in r {
        var i :| 0 <= i < |rest| && rest[i] == t;
        assert r[i] in r;
      }
    }
    r
  }

  /** Connections of a removed root group that no longer exist: they have nowhere to go. */
  function Stale(removed: Tag, connections: seq<Id>): set<Token> {
    if removed.parent.Some? then {}
    else set c | c in removed.conns && c !in connections :: ConnToken(c)
  }

  function RemovedLayout(n: Layout, removed: Tag, connections: seq<Id>): Layout {
    Layout(Align(BypassedTags(n.tags, removed)),
           Drop(Splice(n.root, TagToken(removed.id), removed.order), Stale(removed, connections)))
  }

  // ----- the list without the tag -----

  lemma {:induction false} WithoutTagDistinct(tags: seq<Tag>, id: Id)
    requires DistinctIds(tags)
    ensures DistinctIds(WithoutTag(tags, id))
  {
    if tags != [] {
      WithoutTagDistinct(tags[..|tags| - 1], id);
      var r, last := WithoutTag(tags[..|tags| - 1], id), tags[|tags| - 1];
      LastIdIsNew(tags);
      forall i | 0 <= i < |r| ensures r[i].id != last.id {
        assert r[i] in tags[..|tags| - 1];
      }
    }
  }

  lemma BypassedFrom(tags: seq<Tag>, removed: Tag, u: Tag) returns (t: Tag)
    requires u in BypassedTags(tags, removed)
    ensures t in tags && t.id != removed.id && u == Bypassed(t, removed)
  {
    var i :| 0 <= i < |BypassedTags(tags, removed)| && BypassedTags(tags, removed)[i] == u;
    t := WithoutTag(tags, removed.id)[i];
  }

  lemma BypassedDistinct(tags: seq<Tag>, removed: Tag)
    requires DistinctIds(tags)
    ensures DistinctIds(BypassedTags(tags, removed))
  {
    WithoutTagDistinct(tags, removed.id);
  }

  lemma BypassedParents(tags: seq<Tag>, removed: Tag, x: Id)
    requires DistinctIds(tags) && removed in tags
    ensures var up, up' := Parents(tags), Parents(BypassedTags(tags, removed));
            x in up' ==> x in up && up'[x] == if up[x] == removed.id && removed.id in up then up[removed.id] else up[x]
  {
    var r := BypassedTags(tags, removed);
    BypassedDistinct(tags, removed);
    if x in Parents(r) {
      var u := Find(r, x).value;
      var t := BypassedFrom(tags, removed, u);
      ParentsOf(tags, t);
      ParentsOf(tags, removed);
      ParentsOf(r, u);
    }
  }

  lemma BypassedAcyclic(tags: seq<Tag>, removed: Tag)
    requires DistinctIds(tags) && Acyclic(Parents(tags)) && removed in tags
    ensures Acyclic(Parents(BypassedTags(tags, removed)))
  {
    var up, up' := Parents(tags), Parents(BypassedTags(tags, removed));
    forall x | x in up'
      ensures x in up && up'[x] == if up[x] == removed.id && removed.id in up then up[removed.id] else up[x]
    {
      BypassedParents(tags, removed, x);
    }
    BypassAcyclic(up, removed.id, up');
  }

  lemma NoSelfParent(tags: seq<Tag>, t: Tag)
    requires DistinctIds(tags) && Acyclic(Parents(tags)) && t in tags
    ensures t.parent != Some(t.id)
  {
    if t.parent == Some(t.id) {
      SelfParentIsCycle(tags, t);
    }
  }

  lemma BypassedSoundParents(tags: seq<Tag>, removed: Tag)
    requires DistinctIds(tags) && SoundParents(tags) && removed in tags
    ensures SoundParents(BypassedTags(tags, removed))
  {
    var r := BypassedTags(tags, removed);
    BypassedAcyclic(tags, removed);
    NoSelfParent(tags, removed);
    forall u | u in r && u.parent.Some? ensures u.parent.value in Ids(r) {
      var t := BypassedFrom(tags, removed, u);
      var p := Find(tags, u.parent.value).value;
      assert Bypassed(p, removed) in r;
    }
  }

  lemma BypassedSoleOwners(tags: seq<Tag>, removed: Tag)
    requires DistinctIds(tags) && SoleOwners(tags) && removed in tags
    ensures SoleOwners(BypassedTags(tags, removed))
  {
    var r := BypassedTags(tags, removed);
    forall u | u in r ensures NoDup(u.conns) {
      var t := BypassedFrom(tags, removed, u);
      if removed.parent == Some(t.id) {
        NoDupConcat(t.conns, removed.conns);
      }
    }
    forall u, v, c | u in r && v in r && c in u.conns && c in v.conns ensures u.id == v.id {
      var t := BypassedFrom(tags, removed, u);
      var w := BypassedFrom(tags, removed, v);
      assert c in t.conns || c in removed.conns;
      assert c in w.conns || c in removed.conns;
    }
  }

  /** The removed tag's token stands in its parent's list only. */
  lemma TokenInOrder(tags: seq<Tag>, removed: Tag, t: Tag)
    requires Consistent(tags) && removed in tags && t in tags
    ensures TagToken(removed.id) in t.order <==> removed.parent == Some(t.id)
  {
    assert CompleteOrder(tags, t);
    TagIsChild(tags, t, removed);
    assert TagToken(removed.id) in t.order <==> IsChild(tags, t, TagToken(removed.id));
  }

  /** Different tags list different tokens. */
  lemma OrdersDisjoint(tags: seq<Tag>, t: Tag, u: Tag, tok: Token)
    requires Consistent(tags) && t in tags && u in tags && tok in t.order && tok in u.order
    ensures t.id == u.id
  {
    ChildIsUnder(tags, t, tok);
    ChildIsUnder(tags, u, tok);
  }

  lemma BypassedIsChild(tags: seq<Tag>, removed: Tag, t: Tag, tok: Token)
    requires Consistent(tags) && removed in tags && t in tags && t.id != removed.id
    ensures IsChild(BypassedTags(tags, removed), Bypassed(t, removed), tok) <==>
            (tok in t.order && tok != TagToken(removed.id)) || (removed.parent == Some(t.id) && tok in removed.order)
  {
    assert CompleteOrder(tags, t) && CompleteOrder(tags, removed);
    assert tok in t.order <==> IsChild(tags, t, tok);
    assert tok in removed.order <==> IsChild(tags, removed, tok);
    match tok
    case ConnToken(c) =>
    case TagToken(k) =>
      NoSelfParent(tags, removed);
      BypassedTagIsChild(tags, removed, t, k);
  }

  lemma BypassedTagIsChild(tags: seq<Tag>, removed: Tag, t: Tag, k: Id)
    requires DistinctIds(tags) && removed in tags && t in tags && t.id != removed.id && removed.parent != Some(removed.id)
    ensures var r := BypassedTags(tags, removed);
            IsChild(r, Bypassed(t, removed), TagToken(k)) <==>
            (IsChild(tags, t, TagToken(k)) && k != removed.id)
            || (removed.parent == Some(t.id) && IsChild(tags, removed, TagToken(k)))
  {
    var r := BypassedTags(tags, removed);
    BypassedDistinct(tags, removed);
    if k in Ids(tags) && k != removed.id {
      var w := Find(tags, k).value;
      TagIsChild(tags, t, w);
      TagIsChild(tags, removed, w);
      TagIsChild(r, Bypassed(t, removed), Bypassed(w, removed));
    } else if k == removed.id {
      TagIsChild(tags, removed, removed);
      if IsChild(r, Bypassed(t, removed), TagToken(k)) {
        var v :| v in r && v.id == k && v.parent == Some(t.id);
        var w := BypassedFrom(tags, removed, v);
      }
    } else {
      if IsChild(r, Bypassed(t, removed), TagToken(k)) {
        var v :| v in r && v.id == k && v.parent == Some(t.id);
        var w := BypassedFrom(tags, removed, v);
      }
    }
  }

  lemma BypassedOrder(tags: seq<Tag>, removed: Tag, t: Tag)
    requires Consistent(tags) && removed in tags && t in tags && t.id != removed.id
    ensures CompleteOrder(BypassedTags(tags, removed), Bypassed(t, removed))
  {
    var token := TagToken(removed.id);
    TokenInOrder(tags, removed, t);
    TokenInOrder(tags, removed, removed);
    NoSelfParent(tags, removed);
    assert CompleteOrder(tags, t) && CompleteOrder(tags, removed);
    forall y | y in removed.order ensures y !in t.order {
      if y in t.order {
        OrdersDisjoint(tags, t, removed, y);
      }
    }
    SpliceNoDup(t.order, token, removed.order);
    forall tok ensures tok in Bypassed(t, removed).order <==> IsChild(BypassedTags(tags, removed), Bypassed(t, removed), tok) {
      SpliceMembers(t.order, token, removed.order, tok);
      BypassedIsChild(tags, removed, t, tok);
    }
  }

  lemma BypassedConsistent(tags: seq<Tag>, removed: Tag)
    requires Consistent(tags) && removed in tags
    ensures Consistent(BypassedTags(tags, removed))
  {
    BypassedDistinct(tags, removed);
    BypassedSoundParents(tags, removed);
    BypassedSoleOwners(tags, removed);
    forall u | u in BypassedTags(tags, removed) ensures CompleteOrder(BypassedTags(tags, removed), u) {
      var t := BypassedFrom(tags, removed, u);
      BypassedOrder(tags, removed, t);
    }
  }

  // ----- the root order -----

  /** Owners after the removal: the others, and the parent for what the removed tag had. */
  ghost predicate StillOwned(tags: seq<Tag>, removed: Tag, c: Id) {
    (exists t :: t in tags && t.id != removed.id && c in t.conns) || (removed.parent.Some? && c in removed.conns)
  }

  lemma BypassedOwned(tags: seq<Tag>, removed: Tag, c: Id)
    requires Consistent(tags) && removed in tags
    ensures c in Owned(BypassedTags(tags, removed)) <==> StillOwned(tags, removed, c)
  {
    NoSelfParent(tags, removed);
    if c in Owned(BypassedTags(tags, removed)) {
      OwnedWasOwned(tags, removed, c);
    }
    if StillOwned(tags, removed, c) {
      OwnedStays(tags, removed, c);
    }
  }

  lemma OwnedWasOwned(tags: seq<Tag>, removed: Tag, c: Id)
    requires removed.parent != Some(removed.id) && c in Owned(BypassedTags(tags, removed))
    ensures StillOwned(tags, removed, c)
  {
    var u :| u in BypassedTags(tags, removed) && c in u.conns;
    var t := BypassedFrom(tags, removed, u);
    assert c in t.conns || (c in removed.conns && removed.parent.Some?);
  }

  lemma OwnedStays(tags: seq<Tag>, removed: Tag, c: Id)
    requires removed.parent != Some(removed.id) && StillOwned(tags, removed, c)
    requires removed.parent.Some? ==> removed.parent.value in Ids(tags)
    ensures c in Owned(BypassedTags(tags, removed))
  {
    if t :| t in tags && t.id != removed.id && c in t.conns {
      assert c in Bypassed(t, removed).conns;
    } else {
      var p := Find(tags, removed.parent.value).value;
      assert c in Bypassed(p, removed).conns;
    }
  }

  lemma BypassedConnIsRoot(tags: seq<Tag>, removed: Tag, connections: seq<Id>, c: Id)
    requires Consistent(tags) && removed in tags
    ensures IsRoot(BypassedTags(tags, removed), connections, ConnToken(c)) <==>
            c in connections && (c !in Owned(tags) || (removed.parent == None && c in removed.conns))
  {
    BypassedOwned(tags, removed, c);
    if c in Owned(tags) {
      var t :| t in tags && c in t.conns;
      if t.id == removed.id {
        FindMember(tags, t);
        FindMember(tags, removed);
      }
    }
  }

  lemma BypassedTagIsRoot(tags: seq<Tag>, removed: Tag, connections: seq<Id>, k: Id)
    requires DistinctIds(tags) && removed in tags && removed.parent != Some(removed.id)
    ensures IsRoot(BypassedTags(tags, removed), connections, TagToken(k)) <==>
            (IsRoot(tags, connections, TagToken(k)) && k != removed.id)
            || (removed.parent == None && IsChild(tags, removed, TagToken(k)))
  {
    var r := BypassedTags(tags, removed);
    BypassedDistinct(tags, removed);
    if k in Ids(tags) && k != removed.id {
      var w := Find(tags, k).value;
      TagIsRoot(tags, connections, w);
      TagIsChild(tags, removed, w);
      TagIsRoot(r, connections, Bypassed(w, removed));
    } else {
      if k == removed.id {
        TagIsChild(tags, removed, removed);
      }
      if IsRoot(r, connections, TagToken(k)) {
        var v :| v in r && v.id == k && v.parent == None;
        var w := BypassedFrom(tags, removed, v);
      }
    }
  }

  /** The spliced root list, less what no longer exists, is complete. */
  lemma BypassedRoot(n: Layout, connections: seq<Id>, removed: Tag)
    requires Normal(n, connections) && removed in n.tags
    ensures NoDup(Splice(n.root, TagToken(removed.id), removed.order))
    ensures CompleteRoot(BypassedTags(n.tags, removed), RemovedLayout(n, removed, connections).root, connections)
  {
    var token := TagToken(removed.id);
    var spliced := Splice(n.root, token, removed.order);
    NoSelfParent(n.tags, removed);
    assert CompleteOrder(n.tags, removed);
    TagIsRoot(n.tags, connections, removed);
    assert token in n.root <==> IsRoot(n.tags, connections, token);
    forall y | y in removed.order ensures y !in n.root && y != token {
      ChildIsUnder(n.tags, removed, y);
      if y in n.root {
        RootHasNoParent(n, connections, y);
      }
      TokenInOrder(n.tags, removed, removed);
    }
    SpliceNoDup(n.root, token, removed.order);
    NoDupDrop(spliced, Stale(removed, connections));
    forall tok ensures tok in Drop(spliced, Stale(removed, connections))
                       <==> IsRoot(BypassedTags(n.tags, removed), connections, tok) {
      SpliceMembers(n.root, token, removed.order, tok);
      BypassedRootToken(n, connections, removed, tok);
    }
  }

  lemma BypassedRootToken(n: Layout, connections: seq<Id>, removed: Tag, tok: Token)
    requires Normal(n, connections) && removed in n.tags
    ensures IsRoot(BypassedTags(n.tags, removed), connections, tok) <==>
            ((tok in n.root && tok != TagToken(removed.id)) || (removed.parent == None && tok in removed.order))
            && tok !in Stale(removed, connections)
  {
    NoSelfParent(n.tags, removed);
    assert CompleteOrder(n.tags, removed);
    assert tok in n.root <==> IsRoot(n.tags, connections, tok);
    assert tok in removed.order <==> IsChild(n.tags, removed, tok);
    match tok
    case ConnToken(c) =>
      BypassedConnIsRoot(n.tags, removed, connections, c);
      if c in removed.conns {
        assert c in Owned(n.tags);
      }
    case TagToken(k) => BypassedTagIsRoot(n.tags, removed, connections, k);
  }

  // ----- the code arrives there -----

  /** In its list the token is replaced by tokens that are not there yet: a splice. */
  lemma ReplaceIsSplice(order: seq<Token>, token: Token, fill: seq<Token>)
    requires NoDup(order) && token in order && NoDup(fill)
    requires forall x :: x in fill ==> x !in order
    ensures Replace(order, token, fill) == Splice(order, token, fill)
  {
    var pre, post := NoDupSplit(order, token);
    ReplaceSplices(pre, token, post, fill);
    SpliceOnce(pre, token, post, fill);
  }

  lemma PromotedTag(tags: seq<Tag>, removed: Tag, t: Tag)
    requires Consistent(tags) && removed in tags && t in tags && t.id != removed.id
    ensures if removed.parent == Some(t.id) then
              Replace(t.order, TagToken(removed.id), removed.order) == Bypassed(t, removed).order
            else Bypassed(t, removed).order == t.order
  {
    TokenInOrder(tags, removed, t);
    if removed.parent == Some(t.id) {
      assert CompleteOrder(tags, t) && CompleteOrder(tags, removed);
      forall y | y in removed.order ensures y !in t.order {
        if y in t.order {
          OrdersDisjoint(tags, t, removed, y);
        }
      }
      ReplaceIsSplice(t.order, TagToken(removed.id), removed.order);
    } else {
      SpliceAbsent(t.order, TagToken(removed.id), removed.order);
    }
  }

  lemma PromotedUnder(tags: seq<Tag>, removed: Tag, p: Id)
    requires Consistent(tags) && removed in tags && removed.parent == Some(p)
    ensures SetOrder(Promote(WithoutTag(tags, removed.id), removed), p,
                     Replace(ChildOrderOf(tags, p), TagToken(removed.id), removed.order))
         == BypassedTags(tags, removed)
  {
    var rest := WithoutTag(tags, removed.id);
    var parent := Find(tags, p).value;
    CompleteOrderFixed(tags, parent);
    forall t | t in rest
      ensures (if t.id == p then Replace(parent.order, TagToken(removed.id), removed.order) else t.order)
           == Bypassed(t, removed).order
    {
      PromotedTag(tags, removed, t);
      FindMember(tags, t);
    }
    PromotedOrders(rest, removed, p, Replace(parent.order, TagToken(removed.id), removed.order));
  }

  lemma PromotedOrders(rest: seq<Tag>, removed: Tag, p: Id, order: seq<Token>)
    requires forall t :: t in rest ==> (if t.id == p then order else t.order) == Bypassed(t, removed).order
    ensures SetOrder(Promote(rest, removed), p, order) == seq(|rest|, i requires 0 <= i < |rest| => Bypassed(rest[i], removed))
  {
    forall i | 0 <= i < |rest| ensures SetOrder(Promote(rest, removed), p, order)[i] == Bypassed(rest[i], removed) {
      assert rest[i] in rest;
    }
  }

  lemma PromotedToRoot(tags: seq<Tag>, removed: Tag)
    requires Consistent(tags) && removed in tags && removed.parent == None
    ensures Promote(WithoutTag(tags, removed.id), removed) == BypassedTags(tags, removed)
  {
    var rest := WithoutTag(tags, removed.id);
    forall i | 0 <= i < |rest| ensures rest[i].order == Bypassed(rest[i], removed).order {
      assert rest[i] in rest;
      PromotedTag(tags, removed, rest[i]);
    }
  }

  lemma PromotedRoot(n: Layout, connections: seq<Id>, removed: Tag)
    requires Normal(n, connections) && removed in n.tags
    ensures (if removed.parent.Some? then n.root else Replace(n.root, TagToken(removed.id), removed.order))
         == Splice(n.root, TagToken(removed.id), removed.order)
  {
    var token := TagToken(removed.id);
    TagIsRoot(n.tags, connections, removed);
    assert token in n.root <==> IsRoot(n.tags, connections, token);
    if removed.parent.Some? {
      SpliceAbsent(n.root, token, removed.order);
    } else {
      assert CompleteOrder(n.tags, removed);
      forall y | y in removed.order ensures y !in n.root {
        ChildIsUnder(n.tags, removed, y);
        if y in n.root {
          RootHasNoParent(n, connections, y);
        }
      }
      ReplaceIsSplice(n.root, token, removed.order);
    }
  }

  lemma RemoveGroupExact(n: Layout, connections: seq<Id>, removed: Tag)
    requires Normal(n, connections) && removed in n.tags
    ensures RemoveGroup(n, connections, removed.id) == RemovedLayout(n, removed, connections)
  {
    NormalIsFixed(n, connections);
    FindMember(n.tags, removed);
    CompleteOrderFixed(n.tags, removed);
    if removed.parent.Some? {
      PromotedUnder(n.tags, removed, removed.parent.value);
    } else {
      PromotedToRoot(n.tags, removed);
    }
    PromotedRoot(n, connections, removed);
    BypassedConsistent(n.tags, removed);
    NormalizeConsistent(BypassedTags(n.tags, removed));
    RemovedRoot(n, connections, removed);
  }

  lemma AlignKeeps(tags: seq<Tag>)
    requires Consistent(tags)
    ensures SameOwners(tags, Align(tags)) && Owned(tags) == Owned(Align(tags))
  {
    forall i, c | 0 <= i < |tags| ensures c in tags[i].conns <==> c in Align(tags)[i].conns {
      assert tags[i] in tags && CompleteOrder(tags, tags[i]);
      assert ConnToken(c) in tags[i].order <==> IsChild(tags, tags[i], ConnToken(c));
    }
    SameOwnersOwned(tags, Align(tags));
  }

  lemma RemovedRoot(n: Layout, connections: seq<Id>, removed: Tag)
    requires Normal(n, connections) && removed in n.tags
    ensures RootOrder(Splice(n.root, TagToken(removed.id), removed.order), Align(BypassedTags(n.tags, removed)), connections)
         == RemovedLayout(n, removed, connections).root
  {
    var tags := BypassedTags(n.tags, removed);
    var order := Splice(n.root, TagToken(removed.id), removed.order);
    BypassedConsistent(n.tags, removed);
    AlignKeeps(tags);
    BypassedRoot(n, connections, removed);
    var known := ChildTokens(Align(tags), None) + UngroupedTokens(Align(tags), connections);
    forall x ensures x in known <==> x in order && x !in Stale(removed, connections) {
      KnownRoots(Align(tags), connections, x);
      SkeletonIsRoot(tags, Align(tags), connections, x);
      assert x in RemovedLayout(n, removed, connections).root <==> IsRoot(tags, connections, x);
    }
    ResolveDrops(order, known, Stale(removed, connections));
  }

  // ----- what the user sees -----

  lemma RemovedIsNormal(n: Layout, connections: seq<Id>, removed: Tag)
    requires Normal(n, connections) && removed in n.tags
    ensures Normal(RemovedLayout(n, removed, connections), connections)
  {
    RemoveGroupExact(n, connections, removed);
    FindMember(n.tags, removed);
    NormalIsFixed(n, connections);
    NormalizeIsNormal(WithoutGroup(n, removed), connections);
  }

  lemma RemovedIds(tags: seq<Tag>, removed: Tag, x: Id)
    requires removed in tags
    ensures x in Ids(Align(BypassedTags(tags, removed))) <==> x in Ids(tags) && x != removed.id
  {
    var r := BypassedTags(tags, removed);
    CutIds(r, Align(r));
    if x in Ids(r) {
      var t := BypassedFrom(tags, removed, Find(r, x).value);
    }
    if x in Ids(tags) && x != removed.id {
      assert Bypassed(Find(tags, x).value, removed) in r;
    }
  }

  lemma RemovedFind(tags: seq<Tag>, removed: Tag, t: Tag)
    requires DistinctIds(tags) && removed in tags && t in tags && t.id != removed.id
    ensures var r := Align(BypassedTags(tags, removed));
            Find(r, t.id).Some? && Find(r, t.id).value.order == Splice(t.order, TagToken(removed.id), removed.order)
  {
    var r := BypassedTags(tags, removed);
    BypassedDistinct(tags, removed);
    var i :| 0 <= i < |r| && r[i] == Bypassed(t, removed);
    assert DistinctIds(Align(r));
    assert Align(r)[i] in Align(r);
    FindMember(Align(r), Align(r)[i]);
  }

  lemma RemovedKidsAt(tags: seq<Tag>, removed: Tag, tok: Token)
    requires DistinctIds(tags) && removed in tags
    ensures var a, kids := Kids(Align(BypassedTags(tags, removed))), Kids(tags);
            && (tok in a <==> tok in kids && tok != TagToken(removed.id))
            && (tok in a ==> a[tok] == Splice(kids[tok], TagToken(removed.id), removed.order))
  {
    KidsAt(tags, tok);
    KidsAt(Align(BypassedTags(tags, removed)), tok);
    if tok.TagToken? {
      RemovedIds(tags, removed, tok.tag);
      if tok.tag in Ids(tags) && tok.tag != removed.id {
        RemovedFind(tags, removed, Find(tags, tok.tag).value);
      }
    }
  }

  /** The child lists of the outcome are the spliced child lists. */
  lemma RemovedKids(tags: seq<Tag>, removed: Tag)
    requires DistinctIds(tags) && removed in tags
    ensures Kids(Align(BypassedTags(tags, removed))) == SpliceKids(Kids(tags), TagToken(removed.id), removed.order)
  {
    SplicedMap(Kids(tags), Kids(Align(BypassedTags(tags, removed))), TagToken(removed.id), removed.order) by {
      forall tok
        ensures var a, kids := Kids(Align(BypassedTags(tags, removed))), Kids(tags);
                && (tok in a <==> tok in kids && tok != TagToken(removed.id))
                && (tok in a ==> a[tok] == Splice(kids[tok], TagToken(removed.id), removed.order))
      {
        RemovedKidsAt(tags, removed, tok);
      }
    }
  }

  lemma SplicedMap(kids: map<Token, seq<Token>>, a: map<Token, seq<Token>>, x: Token, fill: seq<Token>)
    requires forall tok :: tok in a <==> tok in kids && tok != x
    requires forall tok :: tok in a ==> a[tok] == Splice(kids[tok], x, fill)
    ensures a == SpliceKids(kids, x, fill)
  {
  }

  /** A walk of a whole forest does not depend on the depth bound, so long as it fits. */
  lemma SameWalk(kids: map<Token, seq<Token>>, xs: seq<Token>, d: nat, e: nat)
    requires Fits(kids, xs, d) && Fits(kids, xs, e)
    ensures Walk(kids, xs, d) == Walk(kids, xs, e)
  {
    if d <= e {
      WalkStable(kids, xs, d, e);
    } else {
      WalkStable(kids, xs, e, d);
    }
  }

  /** Removing a group, at the root or nested, takes exactly its own line out of what is shown (and,
      for a root group, the lines of connections that no longer exist): every live connection and
      every other group keeps its place in the top-to-bottom sequence. */
  lemma RemoveGroupKeepsSequence(l: Layout, connections: seq<Id>, id: Id)
    ensures var n := Normalize(l, connections);
            && Normal(RemoveGroup(l, connections, id), connections)
            && Shown(RemoveGroup(l, connections, id))
               == match Find(n.tags, id)
                  case None => Shown(n)
                  case Some(removed) => Drop(Shown(n), {TagToken(id)} + Stale(removed, connections))
  {
    var n := Normalize(l, connections);
    NormalizeIsNormal(l, connections);
    NormalIsFixed(n, connections);
    match Find(n.tags, id)
    case None =>
    case Some(removed) =>
      RemoveGroupExact(n, connections, removed);
      RemovedIsNormal(n, connections, removed);
      RemovedShown(n, connections, removed);
  }

  lemma RemovedShown(n: Layout, connections: seq<Id>, removed: Tag)
    requires Normal(n, connections) && removed in n.tags
    ensures Shown(RemovedLayout(n, removed, connections))
         == Drop(Shown(n), {TagToken(removed.id)} + Stale(removed, connections))
  {
    var token, fill := TagToken(removed.id), removed.order;
    var m := RemovedLayout(n, removed, connections);
    var depth, kids := |Up(n.tags)|, Kids(n.tags);
    var spliced := Splice(n.root, token, fill);
    NormalShowsEverythingOnce(n, connections);
    KidsAre(n.tags, removed);
    NoSelfParent(n.tags, removed);
    TokenInOrder(n.tags, removed, removed);
    SpliceWalk(kids, n.root, depth, token, fill);
    RemovedKids(n.tags, removed);
    StaleAreLeaves(n, connections, removed);
    WalkWithout(Kids(m.tags), spliced, depth, Stale(removed, connections));
    RemovedIsNormal(n, connections, removed);
    NormalShowsEverythingOnce(m, connections);
    SameWalk(Kids(m.tags), m.root, depth, |Up(m.tags)|);
    DropDrop(Shown(n), {token}, Stale(removed, connections));
  }

  /** After the removal, the connections that no longer exist are in no child list. */
  lemma StaleAreLeaves(n: Layout, connections: seq<Id>, removed: Tag)
    requires Normal(n, connections) && removed in n.tags
    ensures var m := RemovedLayout(n, removed, connections);
            && (forall x :: x in Stale(removed, connections) ==> x !in Kids(m.tags))
            && (forall x, y :: x in Kids(m.tags) && y in Kids(m.tags)[x] ==> y !in Stale(removed, connections))
  {
    var m := RemovedLayout(n, removed, connections);
    RemovedIsNormal(n, connections, removed);
    forall x, y | x in Kids(m.tags) && y in Kids(m.tags)[x] ensures y !in Stale(removed, connections) {
      if y in Stale(removed, connections) {
        ChildIsUnder(m.tags, Find(m.tags, x.tag).value, y);
        UpConn(m.tags, y.conn);
        StaleNotOwned(n, connections, removed, y.conn);
      }
    }
  }

  lemma StaleNotOwned(n: Layout, connections: seq<Id>, removed: Tag, c: Id)
    requires Normal(n, connections) && removed in n.tags && ConnToken(c) in Stale(removed, connections)
    ensures c !in Owned(RemovedLayout(n, removed, connections).tags)
  {
    var r := BypassedTags(n.tags, removed);
    BypassedConsistent(n.tags, removed);
    AlignKeeps(r);
    BypassedOwned(n.tags, removed, c);
  }
}
