/** Removing a group with everything below it: `removeConnectionTagTree`. The worklist is proved to find
    exactly the group and its descendants. The list without them needs no repair but the loss of their
    tokens, because a set that is closed downwards leaves no parent pointer dangling; the live
    connections that they held are missing from the root order and are added at its end, in the order of
    the connection list. */
module SidebarRemoveTree {
  import opened Options
  import opened Seqs
  import opened ParentChain
  import opened SidebarTags
  import opened SidebarNormal
  import opened SidebarPlacement
  import opened SidebarEdits
  import opened SidebarMoveTag

  /** Ids of the tags directly under `parent`, in list order. */
  function ChildIds(tags: seq<Tag>, parent: Id): (r: seq<Id>)
    ensures forall t :: t in tags && t.parent == Some(parent) ==> t.id in r
    ensures forall x :: x in r ==> exists t :: t in tags && t.id == x && t.parent == Some(parent)
  {
    if tags == [] then []
    else
      var r := ChildIds(tags[..|tags| - 1], parent);
      var last := tags[|tags| - 1];
      assert tags == tags[..|tags| - 1] + [last];
      if last.parent == Some(parent) then r + [last.id] else r
  }

  /** The worklist: exactly the tag and everything below it. */
  method CollectSubtree(tags: seq<Tag>, id: Id) returns (removedIds: set<Id>)
    requires DistinctIds(tags)
    ensures forall x :: x in removedIds <==> Below(Parents(tags), x, id)
  {
    ghost var up := Parents(tags);
    ghost var universe := {id} + Ids(tags);
    removedIds := {};
    var pending := [id];
    BelowSelf(up, id);
    while pending != []
      invariant forall x :: x in removedIds ==> x in universe && Below(up, x, id)
      invariant forall x :: x in pending ==> x in universe && Below(up, x, id)
      invariant id in removedIds || id in pending
      invariant forall y :: y in up && up[y] in removedIds ==> y in removedIds || y in pending
      decreases universe - removedIds, |pending|
    {
      var current := pending[|pending| - 1];
      ghost var before := pending;
      pending := pending[..|pending| - 1];
      assert before == pending + [current];
      if current !in removedIds {
        removedIds := removedIds + {current};
        var children := ChildIds(tags, current);
        ChildrenBelow(tags, current, id);
        pending := pending + children;
      }
    }
    forall x ensures x in removedIds <==> Below(up, x, id) {
      if Below(up, x, id) {
        var n: nat :| Ancestor(up, x, n) == Some(id);
        SubtreeIn(up, removedIds, x, id, n);
      }
    }
  }

  lemma ChildrenBelow(tags: seq<Tag>, current: Id, id: Id)
    requires DistinctIds(tags) && Below(Parents(tags), current, id)
    ensures forall x :: x in ChildIds(tags, current) ==> x in Ids(tags) && Below(Parents(tags), x, id)
    ensures forall y :: y in Parents(tags) && Parents(tags)[y] == current ==> y in ChildIds(tags, current)
  {
    forall x | x in ChildIds(tags, current) ensures x in Ids(tags) && Below(Parents(tags), x, id) {
      var t :| t in tags && t.id == x && t.parent == Some(current);
      ParentsOf(tags, t);
      BelowParent(Parents(tags), x, id);
    }
    forall y | y in Parents(tags) && Parents(tags)[y] == current ensures y in ChildIds(tags, current) {
      ParentsOf(tags, Find(tags, y).value);
    }
  }

  /** The tags that are not in a set. */
  function OutsideTags(tags: seq<Tag>, gone: set<Id>): (r: seq<Tag>)
    ensures forall t :: t in r <==> t in tags && t.id !in gone
  {
    if tags == [] then []
    else
      var r := OutsideTags(tags[..|tags| - 1], gone);
      var last := tags[|tags| - 1];
      assert tags == tags[..|tags| - 1] + [last];
      if last.id in gone then r else r + [last]
  }

  function TagTokens(ids: set<Id>): (r: set<Token>)
    ensures forall tok :: tok in r <==> tok.TagToken? && tok.tag in ids
  {
    set x | x in ids :: TagToken(x)
  }

  /** Tag and subtree as a set; what `CollectSubtree` computes. */
  ghost function Subtree(tags: seq<Tag>, id: Id): (r: set<Id>)
    ensures forall x :: x in r ==> Below(Parents(tags), x, id)
    ensures forall x :: x in Ids(tags) + {id} && Below(Parents(tags), x, id) ==> x in r
  {
    set x | x in Ids(tags) + {id} && Below(Parents(tags), x, id)
  }

  ghost function RemoveTree(l: Layout, connections: seq<Id>, id: Id): Layout {
    var n := Normalize(l, connections);
    var gone := Subtree(n.tags, id);
    Normalize(Layout(OutsideTags(n.tags, gone), Drop(n.root, TagTokens(gone))), connections)
  }

  // ----- the outcome, said outright -----

  /** The remaining tags lose only the tokens of removed tags. */
  function Trimmed(tags: seq<Tag>, gone: set<Id>): (r: seq<Tag>) {
    var rest := OutsideTags(tags, gone);
    seq(|rest|, i requires 0 <= i < |rest| => rest[i].(order := Drop(rest[i].order, TagTokens(gone))))
  }

  /** The connections that the removed tags owned. */
  function Freed(tags: seq<Tag>, gone: set<Id>): set<Id> {
    set t, c | t in tags && t.id in gone && c in t.conns :: c
  }

  /** The live connections of the removed tags go last, in the order of `connections`. */
  function TreeRemovedLayout(n: Layout, connections: seq<Id>, gone: set<Id>): Layout {
    Layout(Trimmed(n.tags, gone),
           Drop(n.root, TagTokens(gone)) + Dedup(ConnTokens(Keep(connections, Freed(n.tags, gone)))))
  }

  // ----- the remaining tags -----

  /** A set of tags with everything below them. */
  ghost predicate DownClosed(up: map<Id, Id>, gone: set<Id>) {
    forall x :: x in up && up[x] in gone ==> x in gone
  }

  lemma SubtreeClosed(tags: seq<Tag>, id: Id)
    ensures DownClosed(Parents(tags), Subtree(tags, id))
  {
    forall x | x in Parents(tags) && Parents(tags)[x] in Subtree(tags, id) ensures x in Subtree(tags, id) {
      BelowParent(Parents(tags), x, id);
    }
  }

  lemma {:induction false} OutsideDistinct(tags: seq<Tag>, gone: set<Id>)
    requires DistinctIds(tags)
    ensures DistinctIds(OutsideTags(tags, gone))
  {
    if tags != [] {
      OutsideDistinct(tags[..|tags| - 1], gone);
      var r, last := OutsideTags(tags[..|tags| - 1], gone), tags[|tags| - 1];
      LastIdIsNew(tags);
      forall i | 0 <= i < |r| ensures r[i].id != last.id {
        assert r[i] in tags[..|tags| - 1];
      }
    }
  }

  lemma OutsideSoundParents(tags: seq<Tag>, gone: set<Id>)
    requires DistinctIds(tags) && SoundParents(tags) && DownClosed(Parents(tags), gone)
    ensures SoundParents(OutsideTags(tags, gone))
  {
    var r := OutsideTags(tags, gone);
    OutsideDistinct(tags, gone);
    forall x | x in Parents(r) ensures x in Parents(tags) && Parents(r)[x] == Parents(tags)[x] {
      var t := Find(r, x).value;
      ParentsOf(tags, t);
      ParentsOf(r, t);
    }
    SubAcyclic(Parents(r), Parents(tags));
    forall t | t in r && t.parent.Some? ensures t.parent.value in Ids(r) {
      ParentsOf(tags, t);
      assert Find(tags, t.parent.value).value in r;
    }
  }

  lemma OutsideSound(tags: seq<Tag>, gone: set<Id>)
    requires Consistent(tags) && DownClosed(Parents(tags), gone)
    ensures Sound(OutsideTags(tags, gone))
  {
    OutsideDistinct(tags, gone);
    OutsideSoundParents(tags, gone);
    forall t | t in OutsideTags(tags, gone) ensures NoDup(t.order) {
      assert CompleteOrder(tags, t);
    }
  }

  lemma OutsideIsChild(tags: seq<Tag>, gone: set<Id>, t: Tag, tok: Token)
    requires DistinctIds(tags) && t in tags && t.id !in gone
    ensures IsChild(OutsideTags(tags, gone), t, tok) <==> IsChild(tags, t, tok) && tok !in TagTokens(gone)
  {
    match tok
    case ConnToken(c) =>
    case TagToken(k) =>
      if IsChild(tags, t, tok) && k !in gone {
        var u :| u in tags && u.id == k && u.parent == Some(t.id);
        assert u in OutsideTags(tags, gone);
      }
  }

  lemma OutsideOrder(tags: seq<Tag>, gone: set<Id>, t: Tag)
    requires Consistent(tags) && t in tags && t.id !in gone
    ensures ChildOrder(t, OutsideTags(tags, gone)) == Drop(t.order, TagTokens(gone))
  {
    var r := OutsideTags(tags, gone);
    var known := ConnTokens(t.conns) + ChildTokens(r, Some(t.id));
    assert CompleteOrder(tags, t);
    forall tok ensures tok in known <==> tok in t.order && tok !in TagTokens(gone) {
      assert tok in known <==> IsChild(r, t, tok);
      OutsideIsChild(tags, gone, t, tok);
      assert tok in t.order <==> IsChild(tags, t, tok);
    }
    ResolveDrops(t.order, known, TagTokens(gone));
  }

  lemma OutsideTrimmed(tags: seq<Tag>, gone: set<Id>)
    requires Consistent(tags) && Aligned(tags) && DownClosed(Parents(tags), gone)
    ensures NormalizeTags(OutsideTags(tags, gone)) == Trimmed(tags, gone)
  {
    var rest := OutsideTags(tags, gone);
    OutsideSound(tags, gone);
    NormalizeSound(rest);
    forall i | 0 <= i < |rest| ensures ResolveOrders(rest)[i] == Trimmed(tags, gone)[i] {
      assert rest[i] in rest;
      OutsideOrder(tags, gone, rest[i]);
      ConnIdsDropTags(rest[i].order, TagTokens(gone));
    }
  }

  // ----- the root order -----

  lemma TrimmedOwned(tags: seq<Tag>, gone: set<Id>)
    requires Consistent(tags)
    ensures Owned(Trimmed(tags, gone)) == Owned(tags) - Freed(tags, gone)
  {
    SameConnsOwned(OutsideTags(tags, gone), Trimmed(tags, gone));
  }

  lemma DedupSnoc(s: seq<Token>, x: Token)
    ensures Dedup(s + [x]) == if x in s then Dedup(s) else Dedup(s) + [x]
  {
    assert (s + [x])[..|s|] == s;
  }

  lemma ConnTokensSnoc(ids: seq<Id>, c: Id)
    ensures ConnTokens(ids + [c]) == ConnTokens(ids) + [ConnToken(c)]
  {
    assert (ids + [c])[..|ids|] == ids;
  }

  /** The tokens that the root lacks: those of the freed connections, in order. */
  lemma {:induction false} FreedTokens(connections: seq<Id>, owned: set<Id>, freed: set<Id>, root: set<Token>)
    requires forall c :: c in connections ==> (c in freed <==> c !in owned && ConnToken(c) !in root)
    ensures Drop(Dedup(ConnTokens(Drop(connections, owned))), root) == Dedup(ConnTokens(Keep(connections, freed)))
  {
    if connections != [] {
      var front, c := connections[..|connections| - 1], connections[|connections| - 1];
      assert c in connections;
      FreedTokens(front, owned, freed, root);
      FreedToken(Drop(front, owned), Keep(front, freed), c, root);
    }
  }

  lemma FreedToken(a: seq<Id>, b: seq<Id>, c: Id, root: set<Token>)
    requires Drop(Dedup(ConnTokens(a)), root) == Dedup(ConnTokens(b))
    ensures ConnToken(c) in root ==> Drop(Dedup(ConnTokens(a + [c])), root) == Dedup(ConnTokens(b))
    ensures ConnToken(c) !in root ==> Drop(Dedup(ConnTokens(a + [c])), root) == Dedup(ConnTokens(b + [c]))
  {
    ConnTokensSnoc(a, c);
    ConnTokensSnoc(b, c);
    DedupSnoc(ConnTokens(a), ConnToken(c));
    DedupSnoc(ConnTokens(b), ConnToken(c));
    DropSnoc(Dedup(ConnTokens(a)), ConnToken(c), root);
    assert ConnToken(c) !in root ==>
      (ConnToken(c) in Drop(Dedup(ConnTokens(a)), root) <==> ConnToken(c) in ConnTokens(a));
    assert ConnToken(c) in Dedup(ConnTokens(b)) <==> ConnToken(c) in ConnTokens(b);
  }

  /** An order without stale tokens that holds all of `first`: what it lacks of `rest` follows. */
  lemma ResolveLackingMany(order: seq<Token>, first: seq<Token>, rest: seq<Token>)
    requires NoDup(order)
    requires forall x :: x in order ==> x in first + rest
    requires forall x :: x in first ==> x in order
    ensures Resolve(order, first + rest) == order + Drop(Dedup(rest), Elems(order))
  {
    ResolveParts(order, first + rest);
    KeepAll(order, Elems(first + rest));
    LackingRest(first, rest, Elems(order));
  }

  lemma LackingRest(first: seq<Token>, rest: seq<Token>, have: set<Token>)
    requires forall x :: x in first ==> x in have
    ensures Drop(Dedup(first + rest), have) == Drop(Dedup(rest), have)
  {
    DedupConcat(first, rest);
    DropConcat(Dedup(first), Drop(Dedup(rest), Elems(first)), have);
    DropAll(Dedup(first), have);
    DropDrop(Dedup(rest), Elems(first), have);
    DropSame(Dedup(rest), Elems(first) + have, have);
  }

  lemma TrimmedRoot(n: Layout, connections: seq<Id>, gone: set<Id>)
    requires Normal(n, connections) && DownClosed(Parents(n.tags), gone)
    ensures RootOrder(Drop(n.root, TagTokens(gone)), Trimmed(n.tags, gone), connections)
         == TreeRemovedLayout(n, connections, gone).root
  {
    var tags, order := Trimmed(n.tags, gone), Drop(n.root, TagTokens(gone));
    NoDupDrop(n.root, TagTokens(gone));
    forall tok | tok in order ensures tok in ChildTokens(tags, None) + UngroupedTokens(tags, connections) {
      TrimmedKeepsRoot(n, connections, gone, tok);
    }
    forall tok | tok in ChildTokens(tags, None) ensures tok in order {
      TrimmedRootTag(n, connections, gone, tok);
    }
    ResolveLackingMany(order, ChildTokens(tags, None), UngroupedTokens(tags, connections));
    forall c | c in connections ensures c in Freed(n.tags, gone) <==> c !in Owned(tags) && ConnToken(c) !in Elems(order) {
      FreedIsMissing(n, connections, gone, c);
    }
    FreedTokens(connections, Owned(tags), Freed(n.tags, gone), Elems(order));
  }

  lemma FreedIsMissing(n: Layout, connections: seq<Id>, gone: set<Id>, c: Id)
    requires Normal(n, connections) && c in connections
    ensures c in Freed(n.tags, gone) <==>
            c !in Owned(Trimmed(n.tags, gone)) && ConnToken(c) !in Drop(n.root, TagTokens(gone))
  {
    TrimmedOwned(n.tags, gone);
    assert ConnToken(c) in n.root <==> IsRoot(n.tags, connections, ConnToken(c));
  }

  lemma TrimmedKeepsRoot(n: Layout, connections: seq<Id>, gone: set<Id>, tok: Token)
    requires Normal(n, connections) && tok in n.root && tok !in TagTokens(gone)
    ensures tok in ChildTokens(Trimmed(n.tags, gone), None) + UngroupedTokens(Trimmed(n.tags, gone), connections)
  {
    KnownRoots(Trimmed(n.tags, gone), connections, tok);
    assert IsRoot(n.tags, connections, tok);
    match tok
    case ConnToken(c) => TrimmedOwned(n.tags, gone);
    case TagToken(k) => TrimmedKeepsTag(n.tags, connections, gone, k);
  }

  lemma TrimmedKeepsTag(tags: seq<Tag>, connections: seq<Id>, gone: set<Id>, k: Id)
    requires IsRoot(tags, connections, TagToken(k)) && k !in gone
    ensures IsRoot(Trimmed(tags, gone), connections, TagToken(k))
  {
    var rest := OutsideTags(tags, gone);
    var u :| u in tags && u.id == k && u.parent == None;
    assert u in rest;
    var i :| 0 <= i < |rest| && rest[i] == u;
    assert Trimmed(tags, gone)[i] in Trimmed(tags, gone);
  }

  lemma TrimmedRootTag(n: Layout, connections: seq<Id>, gone: set<Id>, tok: Token)
    requires Normal(n, connections) && tok in ChildTokens(Trimmed(n.tags, gone), None)
    ensures tok in n.root && tok !in TagTokens(gone)
  {
    var rest, tags := OutsideTags(n.tags, gone), Trimmed(n.tags, gone);
    var u :| u in tags && u.id == tok.tag && u.parent == None;
    var i :| 0 <= i < |tags| && tags[i] == u;
    assert rest[i] in rest;
    assert IsRoot(n.tags, connections, tok);
  }

  // ----- main result -----

  /** Exactly the tag and its descendants go; every other list loses only their tokens; the live
      connections they held stand after everything else at the root, in `connections` order. */
  lemma RemoveTreeExact(l: Layout, connections: seq<Id>, id: Id)
    ensures var n := Normalize(l, connections);
            RemoveTree(l, connections, id) == TreeRemovedLayout(n, connections, Subtree(n.tags, id))
  {
    var n := Normalize(l, connections);
    NormalizeIsNormal(l, connections);
    SubtreeClosed(n.tags, id);
    OutsideTrimmed(n.tags, Subtree(n.tags, id));
    TrimmedRoot(n, connections, Subtree(n.tags, id));
  }
}
