/** What the repair makes of a persisted tag list, however corrupted, said by the list alone: of each id the
    first entry counts; it keeps its parent unless that is unknown, the tag itself or on a cycle with it;
    a connection stays with the first tag that lists it; a stored order is kept as far as it names
    children, and what it lacks follows. */
module SidebarStored {
  import opened Options
  import opened Seqs
  import opened ParentChain
  import opened SidebarTags
  import opened SidebarNormal

  // ----- the first entry of each id -----

  lemma {:induction false} FindSnoc(tags: seq<Tag>, last: Tag, x: Id)
    ensures Find(tags + [last], x) == if x in Ids(tags) then Find(tags, x) else if last.id == x then Some(last) else None
    decreases |tags|
  {
    if tags == [] {
      assert tags + [last] == [last] && [last][1..] == [];
    } else {
      assert (tags + [last])[1..] == tags[1..] + [last];
      FindSnoc(tags[1..], last, x);
    }
  }

  function Tidied(t: Tag): Tag {
    t.(conns := Dedup(t.conns), order := Dedup(t.order))
  }

  lemma {:induction false} CleanFind(value: seq<Tag>, x: Id)
    requires x in Ids(value)
    ensures Find(CleanTags(value), x) == Some(Tidied(Find(value, x).value))
    decreases |value|
  {
    if value != [] {
      var front, last := value[..|value| - 1], value[|value| - 1];
      assert value == front + [last];
      CleanTagsIds(front);
      FindSnoc(front, last, x);
      IdsSnoc(front, last);
      FindSnoc(CleanTags(front), Tidied(last), x);
      if x in Ids(front) {
        CleanFind(front, x);
      }
    }
  }

  /** The ids in list order. */
  function IdList(tags: seq<Tag>): (r: seq<Id>)
    ensures |r| == |tags|
  {
    seq(|tags|, i requires 0 <= i < |tags| => tags[i].id)
  }

  lemma IdListIds(tags: seq<Tag>, x: Id)
    ensures x in IdList(tags) <==> x in Ids(tags)
  {
    if x in Ids(tags) {
      var i := IdIndex(tags, x);
      assert IdList(tags)[i] == x;
    }
    if x in IdList(tags) {
      var i :| 0 <= i < |tags| && IdList(tags)[i] == x;
      assert tags[i] in tags;
    }
  }

  lemma {:induction false} CleanIdList(value: seq<Tag>)
    ensures IdList(CleanTags(value)) == Dedup(IdList(value))
    decreases |value|
  {
    if value != [] {
      var front, last := value[..|value| - 1], value[|value| - 1];
      CleanIdList(front);
      assert IdList(value)[..|value| - 1] == IdList(front);
      IdListIds(CleanTags(front), last.id);
      assert last.id !in Ids(CleanTags(front)) ==>
        IdList(CleanTags(front) + [Tidied(last)]) == IdList(CleanTags(front)) + [last.id];
    }
  }

  // ----- parents -----

  /** The parents that the list gives: those of first entries, if they name another tag of the list. */
  function GivenParents(value: seq<Tag>): map<Id, Id> {
    map x | x in Ids(value) && GivesParent(value, x) :: Find(value, x).value.parent.value
  }

  predicate GivesParent(value: seq<Tag>, x: Id)
    requires x in Ids(value)
  {
    var parent := Find(value, x).value.parent;
    parent.Some? && parent.value != x && parent.value in Ids(value)
  }

  lemma KnownParentsAt(value: seq<Tag>, x: Id)
    ensures var up := Parents(ClearUnknownParents(CleanTags(value)));
            && (x in up <==> x in GivenParents(value))
            && (x in up ==> up[x] == GivenParents(value)[x])
  {
    var clean := CleanTags(value);
    var known := ClearUnknownParents(clean);
    CleanTagsIds(value);
    CutIds(clean, known);
    if x in Ids(value) {
      CleanFind(value, x);
      var i := IdIndex(clean, x);
      assert clean[i] in clean && known[i] in known;
      FindMember(clean, clean[i]);
      FindMember(known, known[i]);
    }
  }

  lemma KnownParents(value: seq<Tag>)
    ensures Parents(ClearUnknownParents(CleanTags(value))) == GivenParents(value)
  {
    var up := Parents(ClearUnknownParents(CleanTags(value)));
    forall x ensures (x in up <==> x in GivenParents(value)) && (x in up ==> up[x] == GivenParents(value)[x]) {
      KnownParentsAt(value, x);
    }
  }

  /** The list that owners and orders are repaired in. */
  ghost function CutList(value: seq<Tag>): seq<Tag> {
    CutCycles(ClearUnknownParents(CleanTags(value)))
  }

  lemma CutDistinct(value: seq<Tag>)
    ensures DistinctIds(CutList(value)) && Ids(CutList(value)) == Ids(value)
  {
    var known := ClearUnknownParents(CleanTags(value));
    CleanTagsIds(value);
    CutIds(CleanTags(value), known);
    CutKeepsIds(known);
  }

  lemma LaterPhases(cut: seq<Tag>)
    requires DistinctIds(cut)
    ensures var claimed := ClaimConnections(cut);
            && SameSkeleton(cut, claimed) && DistinctIds(claimed) && SoleOwners(claimed)
            && SameSkeleton(claimed, ResolveOrders(claimed)) && DistinctIds(ResolveOrders(claimed))
            && Parents(ResolveOrders(claimed)) == Parents(cut)
  {
    var claimed := ClaimConnections(cut);
    ClaimSkeleton(cut);
    ClaimSound(cut);
    ResolveSkeleton(claimed);
    SkeletonParents(cut, claimed);
    SkeletonParents(claimed, ResolveOrders(claimed));
  }

  lemma ResolveSkeleton(tags: seq<Tag>)
    ensures SameSkeleton(tags, ResolveOrders(tags))
  {
  }

  lemma CutParents(value: seq<Tag>, x: Id)
    ensures var up, cut := GivenParents(value), Parents(CutList(value));
            (x in cut <==> x in up && !OnCycle(up, x)) && (x in cut ==> cut[x] == up[x])
  {
    var known := ClearUnknownParents(CleanTags(value));
    CleanTagsIds(value);
    CutIds(CleanTags(value), known);
    KnownParents(value);
    CutCyclesExact(known);
  }

  /** Which parent pointers of a corrupted list survive: precisely those that first entries give and that are
      not on a cycle of such pointers. */
  lemma RepairedParents(value: seq<Tag>, t: Tag)
    requires t in NormalizeTags(value)
    ensures var up := GivenParents(value);
            t.parent == if t.id in up && !OnCycle(up, t.id) then Some(up[t.id]) else None
  {
    CutDistinct(value);
    LaterPhases(CutList(value));
    CutParents(value, t.id);
    ParentsOf(NormalizeTags(value), t);
  }

  // ----- the rest of each tag -----

  /** The cut list is the list of first entries, parents aside. */
  lemma CutEntries(value: seq<Tag>, i: nat)
    requires i < |CutList(value)|
    ensures var t := CutList(value)[i];
            && t.id in Ids(value)
            && t == Tidied(Find(value, t.id).value).(parent := t.parent)
  {
    var clean := CleanTags(value);
    CleanTagsIds(value);
    assert clean[i] in clean;
    FindMember(clean, clean[i]);
    CleanFind(value, clean[i].id);
  }

  lemma SameIdList(a: seq<Tag>, b: seq<Tag>)
    requires SameSkeleton(a, b)
    ensures IdList(a) == IdList(b)
  {
  }

  lemma CutIdList(value: seq<Tag>)
    ensures IdList(CutList(value)) == Dedup(IdList(value))
  {
    CleanIdList(value);
    assert IdList(CutList(value)) == IdList(CleanTags(value));
  }

  lemma RepairedIds(value: seq<Tag>)
    ensures IdList(NormalizeTags(value)) == Dedup(IdList(value))
  {
    CutIdList(value);
    ClaimSkeleton(CutList(value));
    ResolveSkeleton(ClaimConnections(CutList(value)));
    SameIdList(CutList(value), ClaimConnections(CutList(value)));
    SameIdList(ClaimConnections(CutList(value)), NormalizeTags(value));
  }

  lemma RepairedInfo(value: seq<Tag>, i: nat)
    requires i < |NormalizeTags(value)|
    ensures var t := NormalizeTags(value)[i]; t.id in Ids(value) && t.info == Find(value, t.id).value.info
  {
    CutEntries(value, i);
    ClaimKeeps(CutList(value), i);
  }

  /** The ids come in the order of their first entries, and with their names and settings. */
  lemma RepairedEntries(value: seq<Tag>)
    ensures IdList(NormalizeTags(value)) == Dedup(IdList(value))
    ensures forall t :: t in NormalizeTags(value) ==> t.id in Ids(value) && t.info == Find(value, t.id).value.info
  {
    var r := NormalizeTags(value);
    RepairedIds(value);
    forall t | t in r ensures t.id in Ids(value) && t.info == Find(value, t.id).value.info {
      var i :| 0 <= i < |r| && r[i] == t;
      RepairedInfo(value, i);
    }
  }

  lemma {:induction false} ClaimKeeps(tags: seq<Tag>, i: nat)
    requires i < |tags|
    ensures |ClaimConnections(tags)| == |tags|
    ensures ClaimConnections(tags)[i] == tags[i].(conns := Drop(Dedup(tags[i].conns), Owned(tags[..i])))
    decreases |tags|
  {
    var front := tags[..|tags| - 1];
    if i < |front| {
      ClaimKeeps(front, i);
      assert front[..i] == tags[..i];
    } else if front != [] {
      ClaimKeeps(front, 0);
    }
  }

  lemma OwnedBefore(tags: seq<Tag>, i: nat, c: Id)
    requires i <= |tags|
    ensures c in Owned(tags[..i]) <==> exists j :: 0 <= j < i && c in tags[j].conns
  {
    if j :| 0 <= j < i && c in tags[j].conns {
      assert tags[..i][j] in tags[..i];
    }
    if c in Owned(tags[..i]) {
      var t :| t in tags[..i] && c in t.conns;
      var j :| 0 <= j < i && tags[j] == t;
    }
  }

  /** The connections that the first entry of an id lists. */
  function Listed(value: seq<Tag>, x: Id): seq<Id> {
    match Find(value, x) case None => [] case Some(u) => u.conns
  }

  lemma ClaimedConn(value: seq<Tag>, i: nat, c: Id)
    requires i < |CutList(value)|
    ensures c in ClaimConnections(CutList(value))[i].conns <==>
            c in Listed(value, CutList(value)[i].id) && forall j :: 0 <= j < i ==> c !in Listed(value, CutList(value)[j].id)
  {
    var cut := CutList(value);
    ClaimKeeps(cut, i);
    OwnedBefore(cut, i, c);
    forall j | 0 <= j <= i ensures c in cut[j].conns <==> c in Listed(value, cut[j].id) {
      CutEntries(value, j);
    }
  }

  /** A connection belongs to the first tag whose entry lists it. */
  lemma RepairedOwners(value: seq<Tag>, i: nat, c: Id)
    requires i < |NormalizeTags(value)|
    ensures var r := NormalizeTags(value);
            c in r[i].conns <==> c in Listed(value, r[i].id) && forall j :: 0 <= j < i ==> c !in Listed(value, r[j].id)
  {
    CutDistinct(value);
    LaterPhases(CutList(value));
    ResolveOrderAt(ClaimConnections(CutList(value)), i);
    ClaimedConn(value, i, c);
  }

  // ----- orders -----

  /** What `order` names of `known`, each once, and then what it does not name. */
  function Arranged(order: seq<Token>, known: seq<Token>): seq<Token> {
    Dedup(Keep(order, Elems(known))) + Drop(Dedup(known), Elems(order))
  }

  lemma ResolveArranges(order: seq<Token>, known: seq<Token>)
    ensures Resolve(order, known) == Arranged(order, known)
  {
    var kept := Keep(order, Elems(known));
    DedupConcat(kept, known);
    DropSame(Dedup(known), Elems(kept), Elems(order));
  }

  lemma {:induction false} KeepDedup(order: seq<Token>, keep: set<Token>)
    ensures Dedup(Keep(Dedup(order), keep)) == Dedup(Keep(order, keep))
  {
    if order != [] {
      var front, last := order[..|order| - 1], order[|order| - 1];
      KeepDedup(front, keep);
      KeepSnoc(Dedup(front), last, keep);
      KeepSnoc(front, last, keep);
      DedupSnoc(Keep(front, keep), last);
      DedupSnoc(Keep(Dedup(front), keep), last);
    }
  }

  lemma KeepSnoc(s: seq<Token>, x: Token, keep: set<Token>)
    ensures Keep(s + [x], keep) == if x in keep then Keep(s, keep) + [x] else Keep(s, keep)
  {
    assert (s + [x])[..|s|] == s;
  }

  lemma DedupSnoc(s: seq<Token>, x: Token)
    ensures Dedup(s + [x]) == if x in s then Dedup(s) else Dedup(s) + [x]
  {
    assert (s + [x])[..|s|] == s;
  }

  lemma DedupFirst(order: seq<Token>, known: seq<Token>)
    ensures Arranged(Dedup(order), known) == Arranged(order, known)
  {
    KeepDedup(order, Elems(known));
    assert Elems(Dedup(order)) == Elems(order);
  }

  function StoredOrder(value: seq<Tag>, x: Id): seq<Token> {
    match Find(value, x) case None => [] case Some(u) => u.order
  }

  lemma DropAsKeep(s: seq<Id>, gone: set<Id>)
    ensures Drop(s, gone) == Keep(s, Elems(Drop(s, gone)))
  {
    KeepIsDrop(s, Elems(Drop(s, gone)), gone);
  }

  /** The connections of a tag in the order in which its entry lists them. */
  lemma ClaimedOrder(value: seq<Tag>, i: nat)
    requires i < |CutList(value)|
    ensures var c := ClaimConnections(CutList(value))[i];
            && c.id == CutList(value)[i].id
            && c.conns == Keep(Dedup(Listed(value, c.id)), Elems(c.conns))
            && c.order == Dedup(StoredOrder(value, c.id))
  {
    var cut := CutList(value);
    ClaimKeeps(cut, i);
    CutEntries(value, i);
    DropAsKeep(Dedup(cut[i].conns), Owned(cut[..i]));
    DedupTwice(Listed(value, cut[i].id));
  }

  lemma DedupTwice(s: seq<Id>)
    ensures Dedup(Dedup(s)) == Dedup(s)
  {
    DedupNoDup(Dedup(s));
  }

  lemma OrderOf(tags: seq<Tag>, i: nat)
    requires DistinctIds(tags) && SoleOwners(tags) && i < |tags|
    ensures var r := ResolveOrders(tags);
            && r[i].id == tags[i].id && Elems(r[i].conns) == Elems(tags[i].conns)
            && r[i].order == Arranged(tags[i].order, ConnTokens(tags[i].conns) + ChildTokens(r, Some(r[i].id)))
            && r[i].conns == ConnIds(r[i].order)
  {
    ResolveOrderAt(tags, i);
    ResolveSkeleton(tags);
    SkeletonChildTokens(tags, ResolveOrders(tags), Some(tags[i].id));
    ResolveArranges(tags[i].order, ConnTokens(tags[i].conns) + ChildTokens(tags, Some(tags[i].id)));
  }

  /** A tag's order is its stored one as far as that names its children, and then the children it does not
      name: first its connections as its entry lists them, then its subgroups in list order. */
  lemma RepairedOrders(value: seq<Tag>, i: nat)
    requires i < |NormalizeTags(value)|
    ensures var r := NormalizeTags(value);
            var children := ConnTokens(Keep(Dedup(Listed(value, r[i].id)), Elems(r[i].conns))) + ChildTokens(r, Some(r[i].id));
            && r[i].order == Arranged(StoredOrder(value, r[i].id), children)
            && r[i].conns == ConnIds(r[i].order)
  {
    var claimed := ClaimConnections(CutList(value));
    CutDistinct(value);
    LaterPhases(CutList(value));
    ClaimedOrder(value, i);
    OrderOf(claimed, i);
    DedupFirst(StoredOrder(value, claimed[i].id), ConnTokens(claimed[i].conns) + ChildTokens(NormalizeTags(value), Some(claimed[i].id)));
  }

  /** The root order is the stored one as far as it names root groups and ungrouped connections, and then the
      missing groups in list order and the missing connections in their order. */
  lemma RepairedRoot(l: Layout, connections: seq<Id>)
    ensures var n := Normalize(l, connections);
            n.root == Arranged(l.root, ChildTokens(n.tags, None) + ConnTokens(Drop(connections, Owned(n.tags))))
  {
    var n := Normalize(l, connections);
    ResolveArranges(l.root, ChildTokens(n.tags, None) + ConnTokens(Drop(connections, Owned(n.tags))));
  }
}
