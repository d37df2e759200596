/** Where connections come to stand when they are moved to the root without a target: directly after the
    root group they were shown in, said by parent pointers and owner lists alone. */
module SidebarToRoot {
  import opened Options
  import opened Seqs
  import opened ParentChain
  import opened SidebarTags
  import opened SidebarNormal
  import opened SidebarForest
  import opened SidebarMoveConn
  import opened SidebarBatch

  /** `g` is a group at the root. */
  ghost predicate IsRootGroup(tags: seq<Tag>, g: Id) {
    g in Ids(tags) && g !in Parents(tags)
  }

  /** The connections that `g` and the groups below it hold. */
  ghost function HeldUnder(tags: seq<Tag>, g: Id): (r: set<Id>)
    ensures forall c :: c in r <==> exists t :: t in tags && c in t.conns && Below(Parents(tags), t.id, g)
  {
    set t, c | t in tags && c in t.conns && Below(Parents(tags), t.id, g) :: c
  }

  /** A chain ends in one place only. */
  lemma TopUnique<T(!new)>(up: map<T, T>, x: T, g: T, h: T)
    requires Below(up, x, g) && Below(up, x, h) && g !in up && h !in up
    ensures g == h
  {
    var m: nat :| Ancestor(up, x, m) == Some(g);
    var n: nat :| Ancestor(up, x, n) == Some(h);
    if m <= n {
      AncestorAdd(up, x, m, n - m);
    } else {
      AncestorAdd(up, x, n, m - n);
    }
  }

  /** The root group that the move looks up is the one above the connection's owner. */
  lemma RootGroupOf(tags: seq<Tag>, t: Tag, c: Id)
    requires Consistent(tags) && t in tags && c in t.conns
    ensures RootGroup(tags, c).Some?
    ensures var g := RootGroup(tags, c).value; IsRootGroup(tags, g) && Below(Parents(tags), t.id, g)
  {
    OwnerOf(tags, t, c);
    TopHasNoParent(Parents(tags), t.id);
    TopIsTag(tags, t.id, Top(Parents(tags), t.id).value);
  }

  /** Every owned connection is held under exactly one root group, the one looked up. */
  lemma HeldUnderOne(tags: seq<Tag>, c: Id, g: Id)
    requires Consistent(tags) && IsRootGroup(tags, g)
    ensures c in HeldUnder(tags, g) <==> RootGroup(tags, c) == Some(g)
  {
    if c in Owned(tags) {
      var t :| t in tags && c in t.conns;
      RootGroupOf(tags, t, c);
      if c in HeldUnder(tags, g) {
        var u :| u in tags && c in u.conns && Below(Parents(tags), u.id, g);
        assert u.id == t.id;
        TopUnique(Parents(tags), t.id, g, RootGroup(tags, c).value);
      }
    }
  }

  // ----- one connection -----

  /** A connection that is moved out of a group to the root, without a target, stands directly after the
      root group above its owner, and nothing else moves there. */
  lemma MoveToRootLands(l: Layout, connections: seq<Id>, t: Tag, c: Id, before: bool)
      returns (g: Id, a: seq<Token>, b: seq<Token>)
    requires t in Normalize(l, connections).tags && c in t.conns && c in connections
    ensures var n, m := Normalize(l, connections), MoveConnInTree(l, connections, c, None, None, before);
            && g !in Parents(n.tags) && Below(Parents(n.tags), t.id, g)
            && n.root == a + [TagToken(g)] + b && NoDup(n.root)
            && m.Some? && m.value.root == a + [TagToken(g), ConnToken(c)] + b
  {
    var n := Normalize(l, connections);
    NormalizeIsNormal(l, connections);
    RootGroupOf(n.tags, t, c);
    RootGroupIsRoot(n, connections, c);
    g := RootGroup(n.tags, c).value;
    a, b := NoDupSplit(n.root, TagToken(g));
    MoveConnExact(l, connections, c, None, None, before);
    DropNone(n.root, {ConnToken(c)});
    PlaceAfter(a, TagToken(g), b, ConnToken(c));
  }

  /** One that is at the root already goes to the end. */
  lemma MoveWithinRootLands(l: Layout, connections: seq<Id>, c: Id, before: bool)
    requires c in connections && ConnToken(c) in Normalize(l, connections).root
    ensures var n, m := Normalize(l, connections), MoveConnInTree(l, connections, c, None, None, before);
            m.Some? && m.value.root == Drop(n.root, {ConnToken(c)}) + [ConnToken(c)]
  {
    NormalizeIsNormal(l, connections);
    RootGroupIsRoot(Normalize(l, connections), connections, c);
    MoveConnExact(l, connections, c, None, None, before);
  }

  // ----- a batch -----

  lemma {:induction false} KeepCons(x: Id, rest: seq<Id>, keep: set<Id>)
    ensures Keep([x] + rest, keep) == (if x in keep then [x] else []) + Keep(rest, keep)
    decreases |rest|
  {
    if rest == [] {
      assert [x] + rest == [x] && [x][..0] == [];
    } else {
      var front := rest[..|rest| - 1];
      assert ([x] + rest)[..|rest|] == [x] + front;
      KeepCons(x, front, keep);
    }
  }

  lemma {:induction false} RequestedIsKept(group: Id -> Option<Id>, ids: seq<Id>, g: Option<Id>, keep: set<Id>)
    requires forall c :: c in ids ==> (group(c) == g <==> c in keep)
    ensures RequestedFrom(group, ids, g) == Keep(ids, keep)
  {
    if ids != [] {
      assert ids == [ids[0]] + ids[1..];
      KeepCons(ids[0], ids[1..], keep);
      RequestedIsKept(group, ids[1..], g, keep);
    }
  }

  lemma RequestedUnder(tags: seq<Tag>, chosen: seq<Id>, g: Id)
    requires Consistent(tags) && IsRootGroup(tags, g)
    ensures RequestedFrom(GroupOf(tags), chosen, Some(g)) == Keep(chosen, HeldUnder(tags, g))
  {
    forall c | c in chosen ensures GroupOf(tags)(c) == Some(g) <==> c in HeldUnder(tags, g) {
      HeldUnderOne(tags, c, g);
    }
    RequestedIsKept(GroupOf(tags), chosen, Some(g), HeldUnder(tags, g));
  }

  lemma RequestedUngrouped(tags: seq<Tag>, chosen: seq<Id>)
    requires Consistent(tags)
    ensures RequestedFrom(GroupOf(tags), chosen, None) == Drop(chosen, Owned(tags))
  {
    var loose := set c | c in chosen && c !in Owned(tags);
    forall c | c in chosen ensures GroupOf(tags)(c) == None <==> c in loose {
      if c in Owned(tags) {
        var t :| t in tags && c in t.conns;
        RootGroupOf(tags, t, c);
      }
    }
    RequestedIsKept(GroupOf(tags), chosen, None, loose);
    KeepIsDrop(chosen, loose, Owned(tags));
  }

  lemma RegroupedAround(group: Id -> Option<Id>, chosen: seq<Id>, pre: seq<Token>, g: Id, post: seq<Token>)
    ensures Regrouped(group, chosen, pre + [TagToken(g)] + post)
         == Regrouped(group, chosen, pre) + ([TagToken(g)] + ConnTokens(RequestedFrom(group, chosen, Some(g))))
            + Regrouped(group, chosen, post)
  {
    RegroupedConcat(group, chosen, pre + [TagToken(g)], post);
    RegroupedConcat(group, chosen, pre, [TagToken(g)]);
    RegroupedOne(group, chosen, TagToken(g));
  }

  lemma RegroupedOne(group: Id -> Option<Id>, chosen: seq<Id>, tok: Token)
    ensures Regrouped(group, chosen, [tok]) == [tok] + FreedBy(group, chosen, tok)
  {
    assert [tok][..0] == [];
    assert Regrouped(group, chosen, []) == [];
  }

  lemma RegroupedConcat(group: Id -> Option<Id>, chosen: seq<Id>, a: seq<Token>, b: seq<Token>)
    ensures Regrouped(group, chosen, a + b) == Regrouped(group, chosen, a) + Regrouped(group, chosen, b)
  {
    ExpandRegroups(group, chosen, a + b);
    ExpandRegroups(group, chosen, a);
    ExpandRegroups(group, chosen, b);
    ExpandConcat(group, Reverse(chosen), a, b);
  }

  lemma RootGroupStays(n: Layout, connections: seq<Id>, chosen: seq<Id>, g: Id)
    requires Normal(n, connections) && IsRootGroup(n.tags, g)
    ensures TagToken(g) in Drop(n.root, Elems(ConnTokens(chosen))) && NoDup(Drop(n.root, Elems(ConnTokens(chosen))))
  {
    var t := Find(n.tags, g).value;
    ParentsOf(n.tags, t);
    assert IsRoot(n.tags, connections, TagToken(g));
    NoDupDrop(n.root, Elems(ConnTokens(chosen)));
  }

  /** After a batch move to the root, each root group is followed directly by the chosen connections that
      were held under it, in the order in which they were asked for. */
  lemma BatchLandsAfterGroup(l: Layout, connections: seq<Id>, ids: seq<Id>, g: Id) returns (a: seq<Token>, b: seq<Token>)
    requires Selected(ids, connections) != [] && IsRootGroup(Normalize(l, connections).tags, g)
    ensures var n, chosen := Normalize(l, connections), Dedup(Keep(ids, Elems(connections)));
            MoveConns(l, connections, ids, None).root
            == a + [TagToken(g)] + ConnTokens(Keep(chosen, HeldUnder(n.tags, g))) + b
  {
    var n, chosen := Normalize(l, connections), Selected(ids, connections);
    NormalizeIsNormal(l, connections);
    BatchToRoot(l, connections, ids);
    RequestedUnder(n.tags, chosen, g);
    a, b := RegroupedRootAround(n, connections, chosen, g);
  }

  lemma RegroupedRootAround(n: Layout, connections: seq<Id>, chosen: seq<Id>, g: Id) returns (a: seq<Token>, b: seq<Token>)
    requires Normal(n, connections) && IsRootGroup(n.tags, g)
    ensures RegroupedRoot(n, chosen) == a + [TagToken(g)] + ConnTokens(RequestedFrom(GroupOf(n.tags), chosen, Some(g))) + b
  {
    RootGroupStays(n, connections, chosen, g);
    var pre, post := NoDupSplit(Drop(n.root, Elems(ConnTokens(chosen))), TagToken(g));
    RegroupedAround(GroupOf(n.tags), chosen, pre, g, post);
    var loose := ConnTokens(Reverse(RequestedFrom(GroupOf(n.tags), chosen, None)));
    a, b := Regrouped(GroupOf(n.tags), chosen, pre), Regrouped(GroupOf(n.tags), chosen, post) + loose;
    Assoc(a, [TagToken(g)], ConnTokens(RequestedFrom(GroupOf(n.tags), chosen, Some(g))),
          Regrouped(GroupOf(n.tags), chosen, post), loose);
  }

  lemma Assoc(a: seq<Token>, b: seq<Token>, c: seq<Token>, d: seq<Token>, e: seq<Token>)
    ensures a + (b + c) + d + e == a + b + c + (d + e)
  {
  }

  /** Those that were at the root already stand at its end, the first one asked for last; everything that
      was not chosen keeps its order. */
  lemma BatchUngroupedLast(l: Layout, connections: seq<Id>, ids: seq<Id>) returns (a: seq<Token>)
    requires Selected(ids, connections) != []
    ensures var n, chosen := Normalize(l, connections), Dedup(Keep(ids, Elems(connections)));
            var root := MoveConns(l, connections, ids, None).root;
            && root == a + ConnTokens(Reverse(Drop(chosen, Owned(n.tags))))
            && Drop(root, Elems(ConnTokens(chosen))) == Drop(n.root, Elems(ConnTokens(chosen)))
            && NoDup(root)
  {
    var n, chosen := Normalize(l, connections), Selected(ids, connections);
    NormalizeIsNormal(l, connections);
    BatchToRoot(l, connections, ids);
    RequestedUngrouped(n.tags, chosen);
    a := Regrouped(GroupOf(n.tags), chosen, Drop(n.root, Elems(ConnTokens(chosen))));
    RegroupedRest(GroupOf(n.tags), chosen, Drop(n.root, Elems(ConnTokens(chosen))), Elems(ConnTokens(chosen)));
    var loose := ConnTokens(Reverse(Drop(chosen, Owned(n.tags))));
    ReverseSound(Drop(chosen, Owned(n.tags)));
    DropConcat(a, loose, Elems(ConnTokens(chosen)));
    DropAll(loose, Elems(ConnTokens(chosen)));
    BatchNormal(l, connections, ids);
  }

  /** Everything that was not chosen keeps its order. */
  lemma {:induction false} RegroupedRest(group: Id -> Option<Id>, chosen: seq<Id>, order: seq<Token>, gone: set<Token>)
    requires forall i :: 0 <= i < |order| ==> order[i] !in gone
    requires forall tok :: tok in ConnTokens(chosen) ==> tok in gone
    ensures Drop(Regrouped(group, chosen, order), gone) == order
  {
    if order != [] {
      var front, tok := order[..|order| - 1], order[|order| - 1];
      RegroupedRest(group, chosen, front, gone);
      FreedAreChosen(group, chosen, tok);
      RestStep(Regrouped(group, chosen, front), tok, FreedBy(group, chosen, tok), gone, order);
    }
  }

  lemma FreedAreChosen(group: Id -> Option<Id>, chosen: seq<Id>, tok: Token)
    ensures forall x :: x in FreedBy(group, chosen, tok) ==> x in ConnTokens(chosen)
  {
    if tok.TagToken? {
      RequestedAmong(group, chosen, Some(tok.tag));
    }
  }

  lemma RestStep(done: seq<Token>, tok: Token, freed: seq<Token>, gone: set<Token>, order: seq<Token>)
    requires tok !in gone && forall x :: x in freed ==> x in gone
    requires order != [] && order[|order| - 1] == tok && Drop(done, gone) == order[..|order| - 1]
    ensures Drop(done + [tok] + freed, gone) == order
  {
    DropConcat(done + [tok], freed, gone);
    DropSnoc(done, tok, gone);
    DropAll(freed, gone);
  }

  lemma {:induction false} RequestedAmong(group: Id -> Option<Id>, ids: seq<Id>, g: Option<Id>)
    ensures forall c :: c in RequestedFrom(group, ids, g) ==> c in ids
  {
    if ids != [] {
      RequestedAmong(group, ids[1..], g);
    }
  }

  lemma BatchNormal(l: Layout, connections: seq<Id>, ids: seq<Id>)
    requires Selected(ids, connections) != []
    ensures Normal(MoveConns(l, connections, ids, None), connections)
  {
    var chosen := Selected(ids, connections);
    SelectedLive(ids, connections);
    ReverseSound(chosen);
    assert chosen[0] in Reverse(chosen);
    NormalizeIsNormal(l, connections);
    MoveEachNormal(l, connections, Reverse(chosen), None);
    RelocateEachNormal(Normalize(l, connections), connections, Reverse(chosen), None);
  }
}
