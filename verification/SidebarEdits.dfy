/** Edits of a normal tag list and what the repair makes of them. */
module SidebarEdits {
  import opened Options
  import opened Seqs
  import opened SidebarTags
  import opened SidebarNormal

  /** Everything a tag list needs except completed order lists. */
  ghost predicate Sound(tags: seq<Tag>) {
    && DistinctIds(tags)
    && SoundParents(tags)
    && SoleOwners(tags)
    && (forall t :: t in tags ==> NoDup(t.order))
  }

  /** Owners depend on the owner lists only. */
  lemma SameConnsSole(a: seq<Tag>, b: seq<Tag>)
    requires SoleOwners(a) && |a| == |b|
    requires forall i :: 0 <= i < |a| ==> a[i].id == b[i].id && a[i].conns == b[i].conns
    ensures SoleOwners(b)
  {
    forall t | t in b ensures NoDup(t.conns) {
      var i :| 0 <= i < |b| && b[i] == t;
      assert a[i] in a;
    }
    forall t, u, c | t in b && u in b && c in t.conns && c in u.conns ensures t.id == u.id {
      var i :| 0 <= i < |b| && b[i] == t;
      var j :| 0 <= j < |b| && b[j] == u;
      assert a[i] in a && a[j] in a;
    }
  }

  /** On a sound list the repair only completes the order lists. */
  lemma NormalizeSound(tags: seq<Tag>)
    requires Sound(tags)
    ensures NormalizeTags(tags) == ResolveOrders(tags)
  {
    CleanTagsFixed(tags);
    SoundParentsFixed(tags);
    ClaimFixed(tags);
  }

  /** `t` lists all its children but `tok`. */
  ghost predicate LacksOnly(tags: seq<Tag>, t: Tag, tok: Token) {
    && NoDup(t.order) && tok !in t.order && IsChild(tags, t, tok)
    && forall x :: x in t.order || x == tok <==> IsChild(tags, t, x)
  }

  /** A missing child is added at the end. */
  lemma LackingOrder(tags: seq<Tag>, t: Tag, tok: Token)
    requires t in tags && LacksOnly(tags, t, tok)
    ensures ChildOrder(t, tags) == t.order + [tok]
  {
    var known := ConnTokens(t.conns) + ChildTokens(tags, Some(t.id));
    forall x ensures x in known <==> IsChild(tags, t, x) {
      assert x in known <==> x in ConnTokens(t.conns) || x in ChildTokens(tags, Some(t.id));
    }
    ResolveLacking(t.order, known, tok);
  }

  lemma KnownRoots(tags: seq<Tag>, connections: seq<Id>, tok: Token)
    ensures tok in ChildTokens(tags, None) + UngroupedTokens(tags, connections) <==> IsRoot(tags, connections, tok)
  {
  }

  /** A missing root is added at the end. */
  lemma LackingRoot(order: seq<Token>, tags: seq<Tag>, connections: seq<Id>, tok: Token)
    requires NoDup(order) && tok !in order
    requires forall x :: x in order || x == tok <==> IsRoot(tags, connections, x)
    ensures RootOrder(order, tags, connections) == order + [tok]
  {
    forall x ensures x in ChildTokens(tags, None) + UngroupedTokens(tags, connections) <==> x in order || x == tok {
      KnownRoots(tags, connections, x);
    }
    ResolveLacking(order, ChildTokens(tags, None) + UngroupedTokens(tags, connections), tok);
  }

  /** `b` is `a` with order lists rearranged. */
  ghost predicate Reordered(a: seq<Tag>, b: seq<Tag>) {
    && |a| == |b|
    && (forall i :: 0 <= i < |a| ==> b[i] == a[i].(order := b[i].order) && NoDup(b[i].order))
    && (forall i, tok :: 0 <= i < |a| ==> (tok in b[i].order <==> tok in a[i].order))
  }

  lemma ReorderedConsistent(a: seq<Tag>, b: seq<Tag>)
    requires Consistent(a) && Reordered(a, b)
    ensures Consistent(b) && Owned(b) == Owned(a)
  {
    SkeletonParents(a, b);
    SkeletonSoundParents(a, b);
    SameConnsSole(a, b);
    SameOwnersOwned(a, b);
    forall t | t in b ensures CompleteOrder(b, t) {
      var i :| 0 <= i < |b| && b[i] == t;
      ReorderedOrder(a, b, i);
    }
  }

  lemma ReorderedAligned(a: seq<Tag>, b: seq<Tag>)
    requires Aligned(a) && Reordered(a, b)
    requires forall i :: 0 <= i < |a| ==> ConnIds(b[i].order) == ConnIds(a[i].order)
    ensures Aligned(b)
  {
    forall t | t in b ensures t.conns == ConnIds(t.order) {
      var i :| 0 <= i < |b| && b[i] == t;
      assert a[i] in a;
    }
  }

  lemma ReorderedOrder(a: seq<Tag>, b: seq<Tag>, i: nat)
    requires Consistent(a) && Reordered(a, b) && i < |a|
    ensures CompleteOrder(b, b[i])
  {
    assert a[i] in a && CompleteOrder(a, a[i]);
    forall tok ensures tok in b[i].order <==> IsChild(b, b[i], tok) {
      assert tok in a[i].order <==> IsChild(a, a[i], tok);
      SkeletonIsChild(a, b, i, tok);
    }
  }

  lemma SkeletonIsChild(a: seq<Tag>, b: seq<Tag>, i: nat, tok: Token)
    requires SameSkeleton(a, b) && i < |a| && a[i].conns == b[i].conns
    ensures IsChild(a, a[i], tok) <==> IsChild(b, b[i], tok)
  {
    SkeletonChildTokens(a, b, Some(a[i].id));
    match tok
    case ConnToken(c) =>
    case TagToken(k) =>
      assert IsChild(a, a[i], tok) <==> tok in ChildTokens(a, Some(a[i].id));
      assert IsChild(b, b[i], tok) <==> tok in ChildTokens(b, Some(a[i].id));
  }

  /** Root tokens depend on ids, parents and the set of owned connections only. */
  lemma SkeletonIsRoot(a: seq<Tag>, b: seq<Tag>, connections: seq<Id>, tok: Token)
    requires SameSkeleton(a, b) && Owned(a) == Owned(b)
    ensures IsRoot(a, connections, tok) <==> IsRoot(b, connections, tok)
  {
    SkeletonChildTokens(a, b, None);
    match tok
    case ConnToken(c) =>
    case TagToken(k) =>
      assert IsRoot(a, connections, tok) <==> tok in ChildTokens(a, None);
      assert IsRoot(b, connections, tok) <==> tok in ChildTokens(b, None);
  }
}
