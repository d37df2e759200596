/** Moving several connections at once: `moveConnectionsToTag`. The action moves them one by one, in
    reverse for the root. The lemmas first show that on a repaired layout each single move is the pure
    function `RelocatedLayout`, then sum up a whole sequence of them: where every token of the batch has
    come to stand, and that nothing else has moved. For the root the sum is a list in which each root
    group is followed by what the batch took out of it. */
module SidebarBatch {
  import opened Options
  import opened Seqs
  import opened ParentChain
  import opened SidebarTags
  import opened SidebarNormal
  import opened SidebarForest
  import opened SidebarPlacement
  import opened SidebarMoveConn

  function Reverse<T>(s: seq<T>): seq<T> {
    if s == [] then [] else Reverse(s[1..]) + [s[0]]
  }

  /** The single moves, one after the other. */
  ghost function MoveEach(l: Layout, connections: seq<Id>, cs: seq<Id>, to: Option<Id>): Layout {
    if cs == [] then l
    else
      var p := MoveEach(l, connections, cs[..|cs| - 1], to);
      match MoveConnInTree(p, connections, cs[|cs| - 1], to, None, false)
      case None => p
      case Some(m) => m
  }

  /** The requested connections that are live, each once. */
  function Selected(ids: seq<Id>, connections: seq<Id>): seq<Id> {
    Dedup(Keep(ids, Elems(connections)))
  }

  ghost function MoveConns(l: Layout, connections: seq<Id>, ids: seq<Id>, to: Option<Id>): Layout {
    var selected := Selected(ids, connections);
    if selected == [] || (to.Some? && to.value !in Ids(l.tags)) then l
    else MoveEach(l, connections, if to.Some? then selected else Reverse(selected), to)
  }

  // ----- the same on repaired layouts -----

  function RelocateEach(n: Layout, cs: seq<Id>, to: Option<Id>): Layout {
    if cs == [] then n
    else RelocatedLayout(RelocateEach(n, cs[..|cs| - 1], to), cs[|cs| - 1], to, None, false)
  }

  lemma RelocatedIds(n: Layout, c: Id, to: Option<Id>)
    ensures Ids(RelocatedLayout(n, c, to, None, false).tags) == Ids(n.tags)
  {
    CutIds(n.tags, RelocatedLayout(n, c, to, None, false).tags);
  }

  lemma {:induction false} RelocateEachNormal(n: Layout, connections: seq<Id>, cs: seq<Id>, to: Option<Id>)
    requires Normal(n, connections) && (to.Some? ==> to.value in Ids(n.tags))
    requires forall c :: c in cs ==> c in connections
    ensures Normal(RelocateEach(n, cs, to), connections) && Ids(RelocateEach(n, cs, to).tags) == Ids(n.tags)
  {
    if cs != [] {
      var front, c := cs[..|cs| - 1], cs[|cs| - 1];
      assert c in cs;
      RelocateEachNormal(n, connections, front, to);
      RelocatedIsNormal(RelocateEach(n, front, to), connections, c, to, None, false);
      RelocatedIds(RelocateEach(n, front, to), c, to);
    }
  }

  lemma {:induction false} MoveEachNormal(l: Layout, connections: seq<Id>, cs: seq<Id>, to: Option<Id>)
    requires to.Some? ==> to.value in Ids(l.tags)
    requires forall c :: c in cs ==> c in connections
    ensures Normalize(MoveEach(l, connections, cs, to), connections) == RelocateEach(Normalize(l, connections), cs, to)
    ensures cs != [] ==> MoveEach(l, connections, cs, to) == RelocateEach(Normalize(l, connections), cs, to)
  {
    if cs != [] {
      var n := Normalize(l, connections);
      var front, c := cs[..|cs| - 1], cs[|cs| - 1];
      assert c in cs;
      MoveEachNormal(l, connections, front, to);
      NormalizeIsNormal(l, connections);
      NormalizeTagsConsistent(l.tags);
      RelocateEachNormal(n, connections, front, to);
      MoveConnExact(MoveEach(l, connections, front, to), connections, c, to, None, false);
      RelocateEachNormal(n, connections, cs, to);
      NormalIsFixed(RelocateEach(n, cs, to), connections);
    }
  }

  // ----- what becomes of the tags -----

  function ManyTag(t: Tag, cs: seq<Id>, to: Option<Id>): Tag {
    var order := Drop(t.order, Elems(ConnTokens(cs))) + if to == Some(t.id) then ConnTokens(cs) else [];
    t.(order := order, conns := ConnIds(order))
  }

  /** The chosen connections leave every list; the target group's list ends with them, in order. */
  function ManyTags(tags: seq<Tag>, cs: seq<Id>, to: Option<Id>): (r: seq<Tag>)
    ensures |r| == |tags|
  {
    seq(|tags|, i requires 0 <= i < |tags| => ManyTag(tags[i], cs, to))
  }

  lemma ManyTokens(cs: seq<Id>, c: Id)
    ensures ConnTokens(cs + [c]) == ConnTokens(cs) + [ConnToken(c)]
    ensures Elems(ConnTokens(cs + [c])) == Elems(ConnTokens(cs)) + {ConnToken(c)}
  {
    assert (cs + [c])[..|cs|] == cs;
  }

  lemma ManyTagStep(t: Tag, cs: seq<Id>, c: Id, to: Option<Id>)
    requires c !in cs
    ensures RelocatedTag(ManyTag(t, cs, to), c, to, None, false) == ManyTag(t, cs + [c], to)
  {
    var gone, added := Elems(ConnTokens(cs)), if to == Some(t.id) then ConnTokens(cs) else [];
    ManyTokens(cs, c);
    DropConcat(Drop(t.order, gone), added, {ConnToken(c)});
    DropDrop(t.order, gone, {ConnToken(c)});
    DropNone(added, {ConnToken(c)});
    ConcatSnoc(Drop(t.order, gone + {ConnToken(c)}), ConnTokens(cs), ConnToken(c));
  }

  lemma ManyTagNone(t: Tag, to: Option<Id>)
    requires t.conns == ConnIds(t.order)
    ensures ManyTag(t, [], to) == t
  {
    assert ConnTokens([]) == [];
    DropNone(t.order, Elems(ConnTokens([])));
    assert t.order + [] == t.order;
  }

  lemma {:induction false} RelocateEachTags(n: Layout, cs: seq<Id>, to: Option<Id>)
    requires Aligned(n.tags) && NoDup(cs)
    ensures RelocateEach(n, cs, to).tags == ManyTags(n.tags, cs, to)
  {
    if cs == [] {
      forall i | 0 <= i < |n.tags| ensures ManyTag(n.tags[i], cs, to) == n.tags[i] {
        assert n.tags[i] in n.tags;
        ManyTagNone(n.tags[i], to);
      }
    } else {
      var front, c := cs[..|cs| - 1], cs[|cs| - 1];
      assert cs == front + [c];
      NoDupParts(front, [c]);
      RelocateEachTags(n, front, to);
      forall i | 0 <= i < |n.tags|
        ensures RelocatedTag(ManyTag(n.tags[i], front, to), c, to, None, false) == ManyTag(n.tags[i], cs, to)
      {
        ManyTagStep(n.tags[i], front, c, to);
      }
    }
  }

  lemma {:induction false} RelocateEachIntoRoot(n: Layout, cs: seq<Id>, to: Id)
    ensures RelocateEach(n, cs, Some(to)).root == Drop(n.root, Elems(ConnTokens(cs)))
  {
    if cs == [] {
      DropNone(n.root, Elems(ConnTokens([])));
    } else {
      var front, c := cs[..|cs| - 1], cs[|cs| - 1];
      assert cs == front + [c];
      RelocateEachIntoRoot(n, front, to);
      ManyTokens(front, c);
      DropDrop(n.root, Elems(ConnTokens(front)), {ConnToken(c)});
    }
  }

  lemma SelectedLive(ids: seq<Id>, connections: seq<Id>)
    ensures NoDup(Selected(ids, connections))
    ensures forall c :: c in Selected(ids, connections) <==> c in ids && c in connections
  {
  }

  /** A batch move into a group: its list ends with the chosen connections in request order, and they
      are gone from every other list. */
  lemma BatchIntoGroup(l: Layout, connections: seq<Id>, ids: seq<Id>, to: Id)
    requires to in Ids(l.tags) && Selected(ids, connections) != []
    ensures var n, chosen := Normalize(l, connections), Selected(ids, connections);
            MoveConns(l, connections, ids, Some(to))
            == Layout(ManyTags(n.tags, chosen, Some(to)), Drop(n.root, Elems(ConnTokens(chosen))))
  {
    var n, chosen := Normalize(l, connections), Selected(ids, connections);
    SelectedLive(ids, connections);
    MoveEachNormal(l, connections, chosen, Some(to));
    NormalizeIsNormal(l, connections);
    RelocateEachTags(n, chosen, Some(to));
    RelocateEachIntoRoot(n, chosen, to);
  }

  // ----- a batch to the root -----

  /** The root group of each connection; the lists below only need to know who belongs where. */
  function GroupOf(tags: seq<Tag>): Id -> Option<Id> {
    (c: Id) => RootGroup(tags, c)
  }

  /** The connections of `cs` from root group `g`, last moved first. */
  function From(group: Id -> Option<Id>, cs: seq<Id>, g: Option<Id>): (r: seq<Id>)
    ensures forall c :: c in r <==> c in cs && group(c) == g
  {
    if cs == [] then []
    else
      var c := cs[|cs| - 1];
      (if group(c) == g then [c] else []) + From(group, cs[..|cs| - 1], g)
  }

  /** The token of a root group, followed by the connections that came out of it. */
  function WithFreed(group: Id -> Option<Id>, cs: seq<Id>, tok: Token): (r: seq<Token>)
    ensures forall x :: x in r ==> x == tok || (x.ConnToken? && x.conn in cs)
  {
    [tok] + if tok.TagToken? then ConnTokens(From(group, cs, Some(tok.tag))) else []
  }

  function Expand(group: Id -> Option<Id>, cs: seq<Id>, order: seq<Token>): (r: seq<Token>)
    ensures forall x :: x in r ==> x in order || (x.ConnToken? && x.conn in cs)
  {
    if order == [] then []
    else Expand(group, cs, order[..|order| - 1]) + WithFreed(group, cs, order[|order| - 1])
  }

  /** Connections that were at the root already, in the order in which they were moved. */
  function Loose(group: Id -> Option<Id>, cs: seq<Id>): (r: seq<Id>)
    ensures forall c :: c in r <==> c in cs && group(c) == None
  {
    if cs == [] then []
    else
      var r := Loose(group, cs[..|cs| - 1]);
      var c := cs[|cs| - 1];
      if group(c) == None then r + [c] else r
  }

  function RootAfter(n: Layout, cs: seq<Id>): seq<Token> {
    Expand(GroupOf(n.tags), cs, Drop(n.root, Elems(ConnTokens(cs)))) + ConnTokens(Loose(GroupOf(n.tags), cs))
  }

  lemma FromSnoc(group: Id -> Option<Id>, cs: seq<Id>, c: Id, g: Option<Id>)
    ensures From(group, cs + [c], g) == (if group(c) == g then [c] else []) + From(group, cs, g)
  {
    assert (cs + [c])[..|cs|] == cs;
  }

  lemma LooseSnoc(group: Id -> Option<Id>, cs: seq<Id>, c: Id)
    ensures Loose(group, cs + [c]) == if group(c) == None then Loose(group, cs) + [c] else Loose(group, cs)
  {
    assert (cs + [c])[..|cs|] == cs;
  }

  lemma ConnTokensSnoc(ids: seq<Id>, c: Id)
    ensures ConnTokens(ids + [c]) == ConnTokens(ids) + [ConnToken(c)]
  {
    assert (ids + [c])[..|ids|] == ids;
  }

  lemma {:induction false} ConnTokensConcat(a: seq<Id>, b: seq<Id>)
    ensures ConnTokens(a + b) == ConnTokens(a) + ConnTokens(b)
  {
    if b == [] {
      assert a + b == a;
    } else {
      assert (a + b)[..|a + b| - 1] == a + b[..|b| - 1];
      ConnTokensConcat(a, b[..|b| - 1]);
    }
  }

  lemma {:induction false} ExpandConcat(group: Id -> Option<Id>, cs: seq<Id>, a: seq<Token>, b: seq<Token>)
    ensures Expand(group, cs, a + b) == Expand(group, cs, a) + Expand(group, cs, b)
  {
    if b == [] {
      assert a + b == a;
    } else {
      assert (a + b)[..|a + b| - 1] == a + b[..|b| - 1];
      ExpandConcat(group, cs, a, b[..|b| - 1]);
    }
  }

  lemma ExpandOne(group: Id -> Option<Id>, cs: seq<Id>, tok: Token)
    ensures Expand(group, cs, [tok]) == WithFreed(group, cs, tok)
  {
    assert [tok][..0] == [];
  }

  /** A connection that has not been moved yet can be taken out before or after expanding. */
  lemma {:induction false} ExpandDrop(group: Id -> Option<Id>, cs: seq<Id>, order: seq<Token>, c: Id)
    requires c !in cs
    ensures Drop(Expand(group, cs, order), {ConnToken(c)}) == Expand(group, cs, Drop(order, {ConnToken(c)}))
  {
    if order != [] {
      var front, last := order[..|order| - 1], order[|order| - 1];
      ExpandDrop(group, cs, front, c);
      DropConcat(Expand(group, cs, front), WithFreed(group, cs, last), {ConnToken(c)});
      if last == ConnToken(c) {
        DropAll(WithFreed(group, cs, last), {ConnToken(c)});
      } else {
        DropNone(WithFreed(group, cs, last), {ConnToken(c)});
        ExpandConcat(group, cs, Drop(front, {ConnToken(c)}), [last]);
        ExpandOne(group, cs, last);
      }
    }
  }

  /** One more moved connection changes the expansion of its own root group only. */
  lemma {:induction false} ExpandSame(group: Id -> Option<Id>, cs: seq<Id>, order: seq<Token>, c: Id)
    requires group(c).Some? ==> TagToken(group(c).value) !in order
    ensures Expand(group, cs + [c], order) == Expand(group, cs, order)
  {
    if order != [] {
      var front, last := order[..|order| - 1], order[|order| - 1];
      assert last in order;
      ExpandSame(group, cs, front, c);
      if last.TagToken? {
        FromSnoc(group, cs, c, Some(last.tag));
        assert [] + From(group, cs, Some(last.tag)) == From(group, cs, Some(last.tag));
      }
    }
  }

  lemma PlaceAfter(a: seq<Token>, x: Token, b: seq<Token>, tok: Token)
    requires x !in a
    ensures PlaceIn(a + [x] + b, tok, Some(x), false) == a + [x, tok] + b
  {
    var s := a + [x] + b;
    assert s[|a|] == x;
    var k := IndexOf(s, x);
    IndexOfFirst(a, x, b);
    assert s[..k + 1] == a + [x] && s[k + 1..] == b;
    assert a + [x] + [tok] == a + [x, tok];
  }

  lemma {:induction false} IndexOfFirst(a: seq<Token>, x: Token, b: seq<Token>)
    requires x !in a
    ensures IndexOf(a + [x] + b, x) == |a|
  {
    if a == [] {
      assert ([] + [x] + b)[0] == x;
    } else {
      assert (a + [x] + b)[1..] == a[1..] + [x] + b;
      IndexOfFirst(a[1..], x, b);
    }
  }

  lemma BaseStep(root: seq<Token>, cs: seq<Id>, c: Id)
    ensures Drop(root, Elems(ConnTokens(cs + [c]))) == Drop(Drop(root, Elems(ConnTokens(cs))), {ConnToken(c)})
  {
    ManyTokens(cs, c);
    DropDrop(root, Elems(ConnTokens(cs)), {ConnToken(c)});
  }

  lemma LooseStep(group: Id -> Option<Id>, cs: seq<Id>, c: Id)
    requires c !in cs
    ensures Drop(ConnTokens(Loose(group, cs)), {ConnToken(c)}) == ConnTokens(Loose(group, cs))
    ensures ConnTokens(Loose(group, cs + [c]))
         == ConnTokens(Loose(group, cs)) + if group(c) == None then [ConnToken(c)] else []
  {
    DropNone(ConnTokens(Loose(group, cs)), {ConnToken(c)});
    LooseSnoc(group, cs, c);
    ManyTokens(Loose(group, cs), c);
  }

  lemma ExpandLoose(group: Id -> Option<Id>, cs: seq<Id>, base: seq<Token>, c: Id)
    requires c !in cs && group(c) == None
    ensures Drop(Expand(group, cs, base), {ConnToken(c)}) == Expand(group, cs + [c], Drop(base, {ConnToken(c)}))
  {
    ExpandDrop(group, cs, base, c);
    ExpandSame(group, cs, Drop(base, {ConnToken(c)}), c);
  }

  /** A connection that was at the root goes to the end. */
  lemma RootStepLoose(n: Layout, cs: seq<Id>, c: Id)
    requires c !in cs && GroupOf(n.tags)(c) == None
    ensures Drop(RootAfter(n, cs), {ConnToken(c)}) + [ConnToken(c)] == RootAfter(n, cs + [c])
  {
    var base := Drop(n.root, Elems(ConnTokens(cs)));
    var a, b := Expand(GroupOf(n.tags), cs, base), ConnTokens(Loose(GroupOf(n.tags), cs));
    BaseStep(n.root, cs, c);
    LooseStep(GroupOf(n.tags), cs, c);
    ExpandLoose(GroupOf(n.tags), cs, base, c);
    DropConcat(a, b, {ConnToken(c)});
    ConcatSnoc(Drop(a, {ConnToken(c)}), b, ConnToken(c));
  }

  lemma ConcatSnoc(a: seq<Token>, b: seq<Token>, x: Token)
    ensures a + b + [x] == a + (b + [x])
  {
  }

  lemma ConnTokensCons(c: Id, r: seq<Id>)
    ensures ConnTokens([c] + r) == [ConnToken(c)] + ConnTokens(r)
  {
    ConnTokensConcat([c], r);
    ConnTokensSnoc([], c);
    assert [] + [c] == [c];
  }

  lemma ConsTwo(x: Token, y: Token, s: seq<Token>)
    ensures [x] + ([y] + s) == [x, y] + s
  {
  }

  lemma FreedStep(group: Id -> Option<Id>, cs: seq<Id>, c: Id, g: Id)
    requires group(c) == Some(g)
    ensures WithFreed(group, cs + [c], TagToken(g)) == [TagToken(g), ConnToken(c)] + ConnTokens(From(group, cs, Some(g)))
  {
    FromSnoc(group, cs, c, Some(g));
    ConnTokensCons(c, From(group, cs, Some(g)));
    ConsTwo(TagToken(g), ConnToken(c), ConnTokens(From(group, cs, Some(g))));
  }

  /** Putting a token behind `x` in a list that falls into parts around it. */
  lemma PlaceInParts(first: seq<Token>, x: Token, freed: seq<Token>, last: seq<Token>, loose: seq<Token>, tok: Token)
    requires x !in first
    ensures PlaceIn(first + ([x] + freed) + last + loose, tok, Some(x), false) == first + ([x, tok] + freed) + last + loose
  {
    PlaceAfter(first, x, freed + last + loose, tok);
    assert first + ([x] + freed) + last + loose == first + [x] + (freed + last + loose);
    assert first + ([x, tok] + freed) + last + loose == first + [x, tok] + (freed + last + loose);
  }

  /** Inserting behind the group's token is expanding with one more connection. */
  lemma ExpandGrouped(group: Id -> Option<Id>, cs: seq<Id>, base: seq<Token>, loose: seq<Token>, c: Id, g: Id)
    requires group(c) == Some(g) && NoDup(base) && TagToken(g) in base
    ensures PlaceIn(Expand(group, cs, base) + loose, ConnToken(c), Some(TagToken(g)), false)
         == Expand(group, cs + [c], base) + loose
  {
    var token := TagToken(g);
    var pre, post := NoDupSplit(base, token);
    ExpandAround(group, cs, pre, token, post);
    ExpandAround(group, cs + [c], pre, token, post);
    ExpandSame(group, cs, pre, c);
    ExpandSame(group, cs, post, c);
    FreedStep(group, cs, c, g);
    PlaceInParts(Expand(group, cs, pre), token, ConnTokens(From(group, cs, Some(g))), Expand(group, cs, post), loose, ConnToken(c));
  }

  /** A connection from a root group goes directly after that group's token. */
  lemma RootStepGrouped(n: Layout, cs: seq<Id>, c: Id, g: Id)
    requires c !in cs && GroupOf(n.tags)(c) == Some(g) && NoDup(n.root)
    requires TagToken(g) in n.root && ConnToken(c) !in n.root
    ensures PlaceIn(Drop(RootAfter(n, cs), {ConnToken(c)}), ConnToken(c), Some(TagToken(g)), false) == RootAfter(n, cs + [c])
  {
    var base, loose := Drop(n.root, Elems(ConnTokens(cs))), ConnTokens(Loose(GroupOf(n.tags), cs));
    NoDupDrop(n.root, Elems(ConnTokens(cs)));
    BaseStep(n.root, cs, c);
    DropNone(base, {ConnToken(c)});
    LooseStep(GroupOf(n.tags), cs, c);
    DropNone(Expand(GroupOf(n.tags), cs, base) + loose, {ConnToken(c)});
    ExpandGrouped(GroupOf(n.tags), cs, base, loose, c, g);
  }

  lemma ExpandAround(group: Id -> Option<Id>, cs: seq<Id>, pre: seq<Token>, token: Token, post: seq<Token>)
    ensures Expand(group, cs, pre + [token] + post)
         == Expand(group, cs, pre) + WithFreed(group, cs, token) + Expand(group, cs, post)
  {
    ExpandConcat(group, cs, pre + [token], post);
    ExpandConcat(group, cs, pre, [token]);
    ExpandOne(group, cs, token);
  }

  // ----- the steps see the same groups -----

  lemma {:induction false} OwnerSame(a: seq<Tag>, b: seq<Tag>, c: Id)
    requires SameSkeleton(a, b) && forall i :: 0 <= i < |a| ==> (c in a[i].conns <==> c in b[i].conns)
    ensures Owner(a, c) == Owner(b, c)
  {
    if a != [] {
      OwnerSame(a[1..], b[1..], c);
    }
  }

  lemma ManyTagConn(t: Tag, cs: seq<Id>, c: Id)
    requires t.conns == ConnIds(t.order) && c !in cs
    ensures c in ManyTag(t, cs, None).conns <==> c in t.conns
  {
    assert c in t.conns <==> ConnToken(c) in t.order;
  }

  lemma ManyTagsGroup(tags: seq<Tag>, cs: seq<Id>, c: Id)
    requires Aligned(tags) && c !in cs
    ensures RootGroup(ManyTags(tags, cs, None), c) == RootGroup(tags, c)
  {
    var r := ManyTags(tags, cs, None);
    forall i | 0 <= i < |tags| ensures c in r[i].conns <==> c in tags[i].conns {
      assert tags[i] in tags;
      ManyTagConn(tags[i], cs, c);
    }
    SkeletonParents(tags, r);
    OwnerSame(tags, r, c);
  }

  lemma RootGroupIsRoot(n: Layout, connections: seq<Id>, c: Id)
    requires Normal(n, connections) && c in connections
    ensures RootGroup(n.tags, c).Some? ==> TagToken(RootGroup(n.tags, c).value) in n.root && ConnToken(c) !in n.root
    ensures RootGroup(n.tags, c).None? ==> ConnToken(c) in n.root
  {
    assert ConnToken(c) in n.root <==> IsRoot(n.tags, connections, ConnToken(c));
    match Owner(n.tags, c)
    case None =>
    case Some(owner) =>
      TopHasNoParent(Parents(n.tags), owner);
      var g := Top(Parents(n.tags), owner).value;
      assert owner in Ids(n.tags);
      TopIsTag(n.tags, owner, g);
      var t := Find(n.tags, g).value;
      ParentsOf(n.tags, t);
      assert IsRoot(n.tags, connections, TagToken(g));
      assert c in Owned(n.tags);
  }

  lemma TopIsTag(tags: seq<Tag>, x: Id, y: Id)
    requires DistinctIds(tags) && x in Ids(tags) && Below(Parents(tags), x, y)
    requires forall t :: t in tags && t.parent.Some? ==> t.parent.value in Ids(tags)
    ensures y in Ids(tags)
  {
    var n: nat :| Ancestor(Parents(tags), x, n) == Some(y);
    forall v | v in Ids(tags) && v in Parents(tags) ensures Parents(tags)[v] in Ids(tags) {
      ParentsOf(tags, Find(tags, v).value);
    }
    ClosedHoldsAncestors(Parents(tags), Ids(tags), x, n);
  }

  lemma {:induction false} RelocateEachToRoot(n: Layout, connections: seq<Id>, cs: seq<Id>)
    requires Normal(n, connections) && NoDup(cs) && forall c :: c in cs ==> c in connections
    ensures RelocateEach(n, cs, None).root == RootAfter(n, cs)
  {
    if cs == [] {
      DropNone(n.root, Elems(ConnTokens([])));
      ExpandNone(GroupOf(n.tags), n.root);
    } else {
      var front, c := cs[..|cs| - 1], cs[|cs| - 1];
      assert cs == front + [c];
      assert c in cs;
      NoDupParts(front, [c]);
      RelocateEachToRoot(n, connections, front);
      RelocateEachTags(n, front, None);
      ManyTagsGroup(n.tags, front, c);
      RootGroupIsRoot(n, connections, c);
      match RootGroup(n.tags, c) {
        case None => RootStepLoose(n, front, c);
        case Some(g) => RootStepGrouped(n, front, c, g);
      }
    }
  }

  lemma {:induction false} ExpandNone(group: Id -> Option<Id>, order: seq<Token>)
    ensures Expand(group, [], order) == order
  {
    if order != [] {
      ExpandNone(group, order[..|order| - 1]);
      assert WithFreed(group, [], order[|order| - 1]) == [order[|order| - 1]];
    }
  }

  // ----- the order in which the batch asked for them -----

  lemma {:induction false} ReverseSound<T(!new)>(s: seq<T>)
    ensures forall x :: x in Reverse(s) <==> x in s
    ensures NoDup(s) ==> NoDup(Reverse(s))
  {
    if s != [] {
      ReverseSound(s[1..]);
      assert s == [s[0]] + s[1..];
      if NoDup(s) {
        NoDupParts([s[0]], s[1..]);
        NoDupSnoc(Reverse(s[1..]), s[0]);
      }
    }
  }

  /** The requested connections from one root group (None: from the root), in request order. */
  function RequestedFrom(group: Id -> Option<Id>, ids: seq<Id>, g: Option<Id>): seq<Id> {
    if ids == [] then []
    else (if group(ids[0]) == g then [ids[0]] else []) + RequestedFrom(group, ids[1..], g)
  }

  /** Moving in reverse puts each group's connections back into request order. */
  lemma {:induction false} FromReversed(group: Id -> Option<Id>, ids: seq<Id>, g: Option<Id>)
    ensures From(group, Reverse(ids), g) == RequestedFrom(group, ids, g)
  {
    if ids != [] {
      FromReversed(group, ids[1..], g);
      FromSnoc(group, Reverse(ids[1..]), ids[0], g);
    }
  }

  /** Those that were at the root already end up reversed. */
  lemma {:induction false} LooseReversed(group: Id -> Option<Id>, ids: seq<Id>)
    ensures Loose(group, Reverse(ids)) == Reverse(RequestedFrom(group, ids, None))
  {
    if ids != [] {
      LooseReversed(group, ids[1..]);
      LooseSnoc(group, Reverse(ids[1..]), ids[0]);
      var rest := RequestedFrom(group, ids[1..], None);
      if group(ids[0]) == None {
        assert ([ids[0]] + rest)[1..] == rest;
      } else {
        assert [] + rest == rest;
      }
    }
  }

  /** What stands after a root token because of the batch. */
  function FreedBy(group: Id -> Option<Id>, chosen: seq<Id>, tok: Token): seq<Token> {
    if tok.TagToken? then ConnTokens(RequestedFrom(group, chosen, Some(tok.tag))) else []
  }

  /** The remaining root tokens, each root group followed by what the batch took out of it. */
  function Regrouped(group: Id -> Option<Id>, chosen: seq<Id>, order: seq<Token>): seq<Token> {
    if order == [] then []
    else
      Regrouped(group, chosen, order[..|order| - 1]) + [order[|order| - 1]] + FreedBy(group, chosen, order[|order| - 1])
  }

  lemma {:induction false} ExpandRegroups(group: Id -> Option<Id>, chosen: seq<Id>, order: seq<Token>)
    ensures Expand(group, Reverse(chosen), order) == Regrouped(group, chosen, order)
  {
    if order != [] {
      var front, tok := order[..|order| - 1], order[|order| - 1];
      ExpandRegroups(group, chosen, front);
      if tok.TagToken? {
        FromReversed(group, chosen, Some(tok.tag));
      }
    }
  }

  /** The root order after a batch move to the root. */
  function RegroupedRoot(n: Layout, chosen: seq<Id>): seq<Token> {
    Regrouped(GroupOf(n.tags), chosen, Drop(n.root, Elems(ConnTokens(chosen))))
    + ConnTokens(Reverse(RequestedFrom(GroupOf(n.tags), chosen, None)))
  }

  lemma ReversedRoot(n: Layout, chosen: seq<Id>)
    ensures RootAfter(n, Reverse(chosen)) == RegroupedRoot(n, chosen)
  {
    ReversedTokens(chosen);
    ExpandRegroups(GroupOf(n.tags), chosen, Drop(n.root, Elems(ConnTokens(chosen))));
    LooseReversed(GroupOf(n.tags), chosen);
  }

  lemma ReversedTokens(chosen: seq<Id>)
    ensures Elems(ConnTokens(Reverse(chosen))) == Elems(ConnTokens(chosen))
  {
    ReverseSound(chosen);
  }

  lemma ReversedTags(tags: seq<Tag>, chosen: seq<Id>)
    ensures ManyTags(tags, Reverse(chosen), None) == ManyTags(tags, chosen, None)
  {
    ReversedTokens(chosen);
  }

  /** A batch move to the root: the connections that came out of one root group stand directly after
      that group's token in request order; the ones that were at the root already go to the end in
      reverse request order; nothing else moves. */
  lemma BatchToRoot(l: Layout, connections: seq<Id>, ids: seq<Id>)
    requires Selected(ids, connections) != []
    ensures var n, chosen := Normalize(l, connections), Selected(ids, connections);
            MoveConns(l, connections, ids, None) == Layout(ManyTags(n.tags, chosen, None), RegroupedRoot(n, chosen))
  {
    var n, chosen := Normalize(l, connections), Selected(ids, connections);
    SelectedLive(ids, connections);
    ReverseSound(chosen);
    assert chosen[0] in Reverse(chosen);
    MoveEachNormal(l, connections, Reverse(chosen), None);
    NormalizeIsNormal(l, connections);
    RelocateEachTags(n, Reverse(chosen), None);
    RelocateEachToRoot(n, connections, Reverse(chosen));
    ReversedRoot(n, chosen);
    ReversedTags(n.tags, chosen);
  }
}
