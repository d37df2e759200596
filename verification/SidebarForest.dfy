/** A normal layout, read the way the sidebar draws it: from the root order down through the order
    list of each tag. It is one ordered forest, so the drawing ends and shows every tag and every
    live connection exactly once. */
module SidebarForest {
  import opened Options
  import opened Seqs
  import opened ParentChain
  import opened OrderedForest
  import opened SidebarTags
  import opened SidebarNormal

  /** The child lists, by token. */
  function Kids(tags: seq<Tag>): map<Token, seq<Token>> {
    map x | x in Ids(tags) && Find(tags, x).Some? :: TagToken(x) := Find(tags, x).value.order
  }

  lemma KidsAt(tags: seq<Tag>, tok: Token)
    ensures tok in Kids(tags) <==> tok.TagToken? && tok.tag in Ids(tags)
    ensures tok in Kids(tags) ==> Find(tags, tok.tag).Some? && Kids(tags)[tok] == Find(tags, tok.tag).value.order
  {
  }

  /** The first tag that lists a connection (`getConnectionOwnerTagId`). */
  function Owner(tags: seq<Tag>, c: Id): (r: Option<Id>)
    ensures r.Some? ==> exists t :: t in tags && t.id == r.value && c in t.conns
    ensures r.None? ==> c !in Owned(tags)
  {
    if tags == [] then None
    else if c in tags[0].conns then Some(tags[0].id)
    else
      assert forall t :: t in tags <==> t == tags[0] || t in tags[1..];
      Owner(tags[1..], c)
  }

  /** The place of every token that is not at the root. */
  function Up(tags: seq<Tag>): map<Token, Token> {
    (map x | x in Parents(tags) :: TagToken(x) := TagToken(Parents(tags)[x]))
    + (map c | c in Owned(tags) && Owner(tags, c).Some? :: ConnToken(c) := TagToken(Owner(tags, c).value))
  }

  /** What the sidebar shows, top to bottom. */
  function Shown(l: Layout): seq<Token> {
    Walk(Kids(l.tags), l.root, |Up(l.tags)|)
  }

  lemma OwnerOf(tags: seq<Tag>, t: Tag, c: Id)
    requires SoleOwners(tags) && t in tags && c in t.conns
    ensures Owner(tags, c) == Some(t.id)
  {
    assert c in Owned(tags);
  }

  lemma UpTag(tags: seq<Tag>, x: Id)
    ensures TagToken(x) in Up(tags) <==> x in Parents(tags)
    ensures x in Parents(tags) ==> Up(tags)[TagToken(x)] == TagToken(Parents(tags)[x])
  {
  }

  lemma UpConn(tags: seq<Tag>, c: Id)
    ensures ConnToken(c) in Up(tags) <==> c in Owned(tags)
    ensures c in Owned(tags) ==> Owner(tags, c).Some? && Up(tags)[ConnToken(c)] == TagToken(Owner(tags, c).value)
  {
  }

  // ----- chains of tokens are chains of tags -----

  lemma {:induction false} UpAncestor(tags: seq<Tag>, x: Id, n: nat)
    ensures Ancestor(Up(tags), TagToken(x), n)
         == match Ancestor(Parents(tags), x, n) case None => None case Some(y) => Some(TagToken(y))
  {
    UpTag(tags, x);
    if n > 0 && x in Parents(tags) {
      UpAncestor(tags, Parents(tags)[x], n - 1);
    }
  }

  lemma UpAcyclic(tags: seq<Tag>)
    requires Acyclic(Parents(tags))
    ensures Acyclic(Up(tags))
  {
    forall tok ensures !OnCycle(Up(tags), tok) {
      if OnCycle(Up(tags), tok) {
        TokenCycle(tags, tok);
      }
    }
  }

  lemma TokenCycle(tags: seq<Tag>, tok: Token)
    requires OnCycle(Up(tags), tok)
    ensures tok.TagToken? && OnCycle(Parents(tags), tok.tag)
  {
    var n: nat :| n > 0 && Ancestor(Up(tags), tok, n) == Some(tok);
    match tok
    case TagToken(x) => UpAncestor(tags, x, n);
    case ConnToken(c) =>
      UpIsTag(tags);
      AboveIsTag(Up(tags), tok, n);
  }

  /** Only tags are above anything. */
  lemma {:induction false} AboveIsTag(up: map<Token, Token>, x: Token, n: nat)
    requires n > 0 && forall t :: t in up ==> up[t].TagToken?
    ensures Ancestor(up, x, n).Some? ==> Ancestor(up, x, n).value.TagToken?
    decreases n
  {
    if x in up && n > 1 {
      AboveIsTag(up, up[x], n - 1);
    }
  }

  lemma UpIsTag(tags: seq<Tag>)
    ensures forall t :: t in Up(tags) ==> Up(tags)[t].TagToken?
  {
  }

  // ----- the forest -----

  lemma KidsAre(tags: seq<Tag>, t: Tag)
    requires DistinctIds(tags) && t in tags
    ensures TagToken(t.id) in Kids(tags) && Kids(tags)[TagToken(t.id)] == t.order
  {
    FindMember(tags, t);
  }

  lemma ChildIsUnder(tags: seq<Tag>, t: Tag, tok: Token)
    requires Consistent(tags) && t in tags && tok in t.order
    ensures tok in Up(tags) && Up(tags)[tok] == TagToken(t.id)
  {
    assert CompleteOrder(tags, t);
    assert IsChild(tags, t, tok);
    match tok
    case ConnToken(c) =>
      OwnerOf(tags, t, c);
      UpConn(tags, c);
    case TagToken(k) =>
      var u :| u in tags && u.id == k && u.parent == Some(t.id);
      ParentsOf(tags, u);
      UpTag(tags, k);
  }

  lemma UnderIsChild(tags: seq<Tag>, tok: Token) returns (t: Tag)
    requires Consistent(tags) && tok in Up(tags)
    ensures t in tags && Up(tags)[tok] == TagToken(t.id) && tok in t.order
  {
    match tok
    case ConnToken(c) =>
      UpConn(tags, c);
      t :| t in tags && t.id == Owner(tags, c).value && c in t.conns;
      assert CompleteOrder(tags, t);
      assert IsChild(tags, t, tok);
    case TagToken(k) =>
      UpTag(tags, k);
      var u := Find(tags, k).value;
      ParentsOf(tags, u);
      t := Find(tags, u.parent.value).value;
      assert CompleteOrder(tags, t);
      assert IsChild(tags, t, tok);
  }

  lemma RootHasNoParent(l: Layout, connections: seq<Id>, tok: Token)
    requires Normal(l, connections) && tok in l.root
    ensures tok !in Up(l.tags)
  {
    assert IsRoot(l.tags, connections, tok);
    match tok
    case ConnToken(c) => UpConn(l.tags, c);
    case TagToken(k) =>
      var u :| u in l.tags && u.id == k && u.parent == None;
      ParentsOf(l.tags, u);
      UpTag(l.tags, k);
  }

  lemma RootsAreOnTop(l: Layout, connections: seq<Id>)
    requires Normal(l, connections)
    ensures OnTop(Up(l.tags), l.root)
  {
    forall r | r in l.root ensures r !in Up(l.tags) {
      RootHasNoParent(l, connections, r);
    }
  }

  lemma KidsAreUnder(tags: seq<Tag>)
    requires Consistent(tags)
    ensures KidsUnder(Up(tags), Kids(tags))
  {
    forall x | x in Kids(tags) ensures NoDup(Kids(tags)[x]) {
      assert CompleteOrder(tags, Find(tags, x.tag).value);
    }
    forall x, y | x in Kids(tags) && y in Kids(tags)[x] ensures y in Up(tags) && Up(tags)[y] == x {
      ChildIsUnder(tags, Find(tags, x.tag).value, y);
    }
  }

  lemma UnderAreKids(tags: seq<Tag>)
    requires Consistent(tags)
    ensures UnderKids(Up(tags), Kids(tags))
  {
    forall y | y in Up(tags) ensures Up(tags)[y] in Kids(tags) && y in Kids(tags)[Up(tags)[y]] {
      var t := UnderIsChild(tags, y);
      KidsAre(tags, t);
    }
  }

  /** Parent pointers, owner lists, order lists and root order describe one ordered forest. */
  lemma LayoutIsForest(l: Layout, connections: seq<Id>)
    requires Normal(l, connections)
    ensures IsForest(Up(l.tags), Kids(l.tags), l.root)
  {
    UpAcyclic(l.tags);
    RootsAreOnTop(l, connections);
    KidsAreUnder(l.tags);
    UnderAreKids(l.tags);
  }

  lemma TagHasPlace(l: Layout, connections: seq<Id>, t: Tag)
    requires Normal(l, connections) && t in l.tags
    ensures TagToken(t.id) in Up(l.tags) || TagToken(t.id) in l.root
  {
    ParentsOf(l.tags, t);
    UpTag(l.tags, t.id);
    if t.parent.None? {
      assert IsRoot(l.tags, connections, TagToken(t.id));
    }
  }

  lemma LayoutIsRooted(l: Layout, connections: seq<Id>)
    requires Normal(l, connections)
    ensures Rooted(Up(l.tags), l.root)
  {
    forall y | y in Up(l.tags) ensures Up(l.tags)[y] in Up(l.tags) || Up(l.tags)[y] in l.root {
      var t := UnderIsChild(l.tags, y);
      TagHasPlace(l, connections, t);
    }
  }

  /** The tokens of a layout: its tags, the connections they own, and the live ones. */
  ghost predicate Exists(l: Layout, connections: seq<Id>, tok: Token) {
    match tok
    case TagToken(k) => k in Ids(l.tags)
    case ConnToken(c) => c in Owned(l.tags) || c in connections
  }

  lemma PlacedExists(l: Layout, connections: seq<Id>, tok: Token)
    requires Normal(l, connections)
    ensures Exists(l, connections, tok) <==> tok in Up(l.tags) || tok in l.root
  {
    assert tok in l.root <==> IsRoot(l.tags, connections, tok);
    match tok
    case ConnToken(c) => UpConn(l.tags, c);
    case TagToken(k) =>
      UpTag(l.tags, k);
      if k in Ids(l.tags) {
        TagHasPlace(l, connections, Find(l.tags, k).value);
      }
  }

  /** For any persisted tags, order and connections: after the repair the drawing ends (the depth
      bound of `Shown` cuts nothing off) and meets every tag and every connection exactly once. */
  lemma RepairedShowsEverythingOnce(l: Layout, connections: seq<Id>)
    ensures var n := Normalize(l, connections);
            && Fits(Kids(n.tags), n.root, |Up(n.tags)|)
            && NoDup(Shown(n))
            && (forall tok :: tok in Shown(n) <==> Exists(n, connections, tok))
            && (forall x :: x in Ids(l.tags) ==> TagToken(x) in Shown(n))
            && (forall c :: c in connections ==> ConnToken(c) in Shown(n))
  {
    var n := Normalize(l, connections);
    NormalizeIsNormal(l, connections);
    NormalizeTagsConsistent(l.tags);
    NormalShowsEverythingOnce(n, connections);
    forall x | x in Ids(l.tags) ensures TagToken(x) in Shown(n) {
      assert Exists(n, connections, TagToken(x));
    }
    forall c | c in connections ensures ConnToken(c) in Shown(n) {
      assert Exists(n, connections, ConnToken(c));
    }
  }

  lemma NormalShowsEverythingOnce(n: Layout, connections: seq<Id>)
    requires Normal(n, connections)
    ensures Fits(Kids(n.tags), n.root, |Up(n.tags)|)
    ensures NoDup(Shown(n))
    ensures forall tok :: tok in Shown(n) <==> Exists(n, connections, tok)
  {
    LayoutIsForest(n, connections);
    LayoutIsRooted(n, connections);
    ForestWalk(Up(n.tags), Kids(n.tags), n.root);
    forall tok ensures tok in Shown(n) <==> Exists(n, connections, tok) {
      PlacedExists(n, connections, tok);
    }
  }
}
