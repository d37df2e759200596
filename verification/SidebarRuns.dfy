/** Whole runs of edits. The tag list stays consistent through every edit, including the ones that
    do not repair anything themselves, and whatever the stored root order is by then, the sidebar
    that is drawn from it shows every tag and every live connection exactly once. */
module SidebarRuns {
  import opened Options
  import opened Seqs
  import opened OrderedForest
  import opened SidebarTags
  import opened SidebarNormal
  import opened SidebarForest
  import opened SidebarPlacement
  import opened SidebarMoveTag
  import opened SidebarMoveConn
  import opened SidebarRemove
  import opened SidebarRemoveTree
  import opened SidebarBatch
  import opened SidebarGroups
  import opened SidebarOutcomes

  datatype State = State(tags: seq<Tag>, root: seq<Token>, connections: seq<Id>)

  datatype Edit =
    | AddConnection(c: Id)
    | UpdateConnection(c: Id, c': Id)
    | RemoveConnection(c: Id)
    | ReplaceConnections(cs: seq<Id>)
    | KeepManualOrder(group: Option<Id>, shown: seq<Id>)
    | ShowSorted(tag: Id, info: Info)
    | ReplaceLayout(layout: Layout)
    | InsertGroup(added: Tag, nameTaken: bool)
    | ChangeGroup(tag: Id, change: Change, nameTaken: bool)
    | OrderGroups(ids: seq<Id>)
    | OrderRoot(source: Token, beside: Token, before: bool)
    | MoveGroup(tag: Id, parent: Option<Id>, target: Option<Token>, before: bool)
    | MoveConnection(c: Id, to: Option<Id>, target: Option<Token>, before: bool, shown: seq<Id>)
    | OrderConnections(c: Id, other: Id, to: Option<Id>, before: bool, manual: bool, sorted: seq<Id>)
    | MoveConnections(cs: seq<Id>, to: Option<Id>)
    | RemoveOneGroup(tag: Id)
    | RemoveGroupTree(tag: Id)

  /** The connections of a mixed list replaced, in place, by `ids` (`applyConnectionOrderToMixedTokens`). */
  function ApplyOrder(order: seq<Token>, ids: seq<Id>): seq<Token> {
    if order == [] then []
    else if order[0].ConnToken? && ids != [] then [ConnToken(ids[0])] + ApplyOrder(order[1..], ids[1..])
    else [order[0]] + ApplyOrder(order[1..], ids)
  }

  /** `ids` is a rearrangement of `of`, which names nothing twice. */
  ghost predicate IsPermutation(ids: seq<Id>, of: seq<Id>) {
    NoDup(ids) && forall c :: c in ids <==> c in of
  }

  function WithManualOrder(tags: seq<Tag>, group: Id, shown: seq<Id>): (r: seq<Tag>)
    ensures |r| == |tags|
  {
    seq(|tags|, i requires 0 <= i < |tags| =>
      if tags[i].id == group then tags[i].(conns := shown, order := ApplyOrder(tags[i].order, shown)) else tags[i])
  }

  function LayoutOf(s: State): Layout {
    Layout(s.tags, s.root)
  }

  /** Freezing the order in which the connections of a group, or the ungrouped ones, are displayed
      (`materializeManualConnectionOrder`); `shown` is what the sorter returned. */
  ghost function Frozen(l: Layout, connections: seq<Id>, group: Option<Id>, shown: seq<Id>): Layout {
    var n := Normalize(l, connections);
    match group
    case Some(g) => Layout(WithManualOrder(n.tags, g, shown), n.root)
    case None => Layout(n.tags, ApplyOrder(n.root, shown))
  }

  /** The sorter is given a group's connections and returns all of them. */
  ghost predicate SortsGroup(tags: seq<Tag>, group: Option<Id>, shown: seq<Id>) {
    group.Some? ==>
      match Find(NormalizeTags(tags), group.value)
      case None => true
      case Some(t) => IsPermutation(shown, t.conns)
  }

  /** Nothing is asked of what the sorter makes of the ungrouped connections. */
  ghost predicate Legal(s: State, e: Edit) {
    match e
    case KeepManualOrder(group, shown) => SortsGroup(s.tags, group, shown)
    case MoveConnection(_, to, target, _, shown) => target.Some? ==> SortsGroup(s.tags, to, shown)
    case _ => true
  }

  function WithInfo(tags: seq<Tag>, group: Id, info: Info): (r: seq<Tag>)
    ensures |r| == |tags|
  {
    seq(|tags|, i requires 0 <= i < |tags| => if tags[i].id == group then tags[i].(info := info) else tags[i])
  }

  ghost function WithLayout(s: State, l: Layout): State {
    s.(tags := l.tags, root := l.root)
  }

  /** `moveConnectionToTag`: with a target the displayed order is frozen first. */
  ghost function MovedConnection(s: State, c: Id, to: Option<Id>, target: Option<Token>, before: bool, shown: seq<Id>): (r: State)
    ensures Repaired(s.tags) ==> Repaired(r.tags)
    ensures MoveDone(s, MoveConnection(c, to, target, before, shown), r)
  {
    var base := if target.Some? then Frozen(LayoutOf(s), s.connections, to, shown) else LayoutOf(s);
    MoveConnRepaired(base, s.connections, c, to, target, before);
    ConnMoveDoes(base, s.connections, c, to, target, before, LayoutOf(s));
    WithLayout(s, MoveConnInTree(base, s.connections, c, to, target, before).GetOr(LayoutOf(s)))
  }

  /** `reorderConnections`: at the root the list of connections is sorted by the new order. */
  ghost function OrderedConnection(s: State, c: Id, other: Id, to: Option<Id>, before: bool, sorted: seq<Id>): (r: State)
    ensures Repaired(s.tags) ==> Repaired(r.tags)
    ensures c != other && other in s.connections ==> MoveDone(s, OrderConnections(c, other, to, before, true, sorted), r)
  {
    MoveConnRepaired(LayoutOf(s), s.connections, c, to, Some(ConnToken(other)), before);
    MoveConnExact(LayoutOf(s), s.connections, c, to, Some(ConnToken(other)), before);
    match MoveConnInTree(LayoutOf(s), s.connections, c, to, Some(ConnToken(other)), before)
    case None => s
    case Some(m) =>
      var live := if to.Some? then s.connections else sorted;
      WithLayout(s.(connections := live), Layout(m.tags, RootOrder(m.root, m.tags, live)))
  }

  /** A connection is dropped beside another one, with manual sorting on and both of them live, into a group
      that exists or the root. */
  ghost predicate MayOrder(s: State, c: Id, other: Id, to: Option<Id>, manual: bool) {
    && manual && c != other && other in s.connections
    && c in s.connections && (to.Some? ==> to.value in Ids(Normalize(LayoutOf(s), s.connections).tags))
  }

  /** What the edits that move connections do: `r` is left by edit `e` of `s`. */
  ghost predicate MoveDone(s: State, e: Edit, r: State) {
    var l, live := LayoutOf(s), s.connections;
    match e
    case MoveConnection(c, to, target, before, shown) =>
      var n := Normalize(if target.Some? then Frozen(l, live, to, shown) else l, live);
      r == WithLayout(s, ConnMoved(l, n, live, c, to, target, before))
    case OrderConnections(c, other, to, before, manual, sorted) =>
      if !MayOrder(s, c, other, to, manual) then r == s
      else
        var m := RelocatedLayout(Normalize(l, live), c, to, Some(ConnToken(other)), before);
        && r.connections == (if to.Some? then live else sorted)
        && LayoutOf(r) == Layout(m.tags, RootOrder(m.root, m.tags, r.connections))
    case MoveConnections(ids, to) => r == WithLayout(s, BatchAfter(l, Normalize(l, live), live, ids, to))
    case _ => true
  }

  /** The same of the edits of groups and of the root list. */
  ghost predicate GroupsDone(s: State, e: Edit, r: State) {
    var l, live := LayoutOf(s), s.connections;
    var n := Normalize(l, live);
    match e
    case InsertGroup(added, nameTaken) => r == WithLayout(s, AddedAfter(n, added, nameTaken))
    case ChangeGroup(tag, change, nameTaken) => r == WithLayout(s, ChangedAfter(n, live, tag, change, nameTaken))
    case OrderGroups(ids) => r == WithLayout(s, GroupsOrdered(n, ids))
    case OrderRoot(source, beside, before) => r == WithLayout(s, RootOrdered(n, source, beside, before))
    case MoveGroup(tag, parent, target, before) => r == WithLayout(s, GroupMoved(l, n, tag, parent, target, before))
    case RemoveOneGroup(tag) => r == WithLayout(s, RemovedAfter(n, live, tag))
    case RemoveGroupTree(tag) => r == WithLayout(s, TreeRemovedAfter(n, live, tag))
    case _ => true
  }

  /** The edits of groups and of the root list. */
  ghost function ApplyToGroups(s: State, e: Edit): (r: State)
    ensures Repaired(s.tags) ==> Repaired(r.tags)
    ensures GroupsDone(s, e, r)
  {
    var l, live := LayoutOf(s), s.connections;
    match e
    case InsertGroup(added, nameTaken) =>
      AddGroupRepaired(l, live, added, nameTaken);
      InsertDoes(l, live, added, nameTaken);
      WithLayout(s, AddGroup(l, live, added, nameTaken))
    case ChangeGroup(tag, change, nameTaken) =>
      UpdateGroupRepaired(l, live, tag, change, nameTaken);
      ChangeDoes(l, live, tag, change, nameTaken);
      WithLayout(s, UpdateGroup(l, live, tag, change, nameTaken))
    case OrderGroups(ids) =>
      ReorderGroupsRepaired(l, live, ids);
      OrderGroupsDoes(l, live, ids);
      WithLayout(s, ReorderGroups(l, live, ids))
    case OrderRoot(source, beside, before) =>
      ReorderRootRepaired(l, live, source, beside, before);
      OrderRootDoes(l, live, source, beside, before);
      WithLayout(s, ReorderRoot(l, live, source, beside, before))
    case MoveGroup(tag, parent, target, before) =>
      MoveTagRepaired(l, live, tag, parent, target, before);
      MoveGroupDoes(l, live, tag, parent, target, before);
      WithLayout(s, MoveTagInTree(l, live, tag, parent, target, before).GetOr(l))
    case RemoveOneGroup(tag) =>
      RemoveGroupRepaired(l, live, tag);
      RemoveDoes(l, live, tag);
      WithLayout(s, RemoveGroup(l, live, tag))
    case RemoveGroupTree(tag) =>
      RemoveTreeRepaired(l, live, tag);
      RemoveTreeDoes(l, live, tag);
      WithLayout(s, RemoveTree(l, live, tag))
    case _ => s
  }

  /** The edits that move connections; all others are edits of groups. */
  ghost function ApplyMove(s: State, e: Edit): (r: State)
    ensures Repaired(s.tags) ==> Repaired(r.tags)
    ensures MoveDone(s, e, r) && GroupsDone(s, e, r)
  {
    match e
    case MoveConnection(c, to, target, before, shown) =>
      MovedConnection(s, c, to, target, before, shown)
    case OrderConnections(c, other, to, before, manual, sorted) =>
      if !manual || c == other || other !in s.connections then s else OrderedConnection(s, c, other, to, before, sorted)
    case MoveConnections(cs, to) =>
      MoveConnsRepaired(LayoutOf(s), s.connections, cs, to);
      BatchDoes(LayoutOf(s), s.connections, cs, to);
      WithLayout(s, MoveConns(LayoutOf(s), s.connections, cs, to))
    case _ => ApplyToGroups(s, e)
  }

  /** A layout and a connection list taken over, repaired. */
  ghost function Reloaded(s: State, l: Layout, connections: seq<Id>): (r: State)
    ensures Repaired(r.tags)
    ensures r == WithLayout(s.(connections := connections), Normalize(l, connections))
  {
    NormalizeRepaired(l, connections);
    WithLayout(s.(connections := connections), Normalize(l, connections))
  }

  /** `removeConnection`: one connection taken out of everything, and then the repair. */
  ghost function WithoutOne(s: State, c: Id): (r: State)
    ensures Repaired(r.tags) && ListDone(s, RemoveConnection(c), r)
  {
    RemoveConnectionIs(s, c);
    Reloaded(s, Stripped(LayoutOf(s), c), Drop(s.connections, {c}))
  }

  lemma RemoveConnectionIs(s: State, c: Id)
    ensures Repaired(s.tags) ==> Normalize(Stripped(LayoutOf(s), c), Drop(s.connections, {c}))
                                 == Layout(WithoutConnection(s.tags, c), Drop(Drawn(s).root, {ConnToken(c)}))
  {
    if Repaired(s.tags) {
      RemoveConnectionDoes(LayoutOf(s), s.connections, c);
    }
  }

  ghost function WithFrozen(s: State, group: Option<Id>, shown: seq<Id>): (r: State)
    ensures SortsGroup(s.tags, group, shown) ==> Repaired(r.tags)
    ensures r == WithLayout(s, Frozen(LayoutOf(s), s.connections, group, shown))
  {
    FrozenRepaired(LayoutOf(s), s.connections, group, shown);
    WithLayout(s, Frozen(LayoutOf(s), s.connections, group, shown))
  }

  /** The same of the edits of the connection list, of display orders and of the whole layout. */
  ghost predicate ListDone(s: State, e: Edit, r: State) {
    var l, live := LayoutOf(s), s.connections;
    match e
    case AddConnection(c) => r == s.(connections := live + [c])
    case UpdateConnection(c, c') => r == s.(connections := Renamed(live, c, c'))
    case RemoveConnection(c) =>
      && r.connections == Drop(live, {c})
      && (Repaired(s.tags) ==> LayoutOf(r) == Layout(WithoutConnection(s.tags, c), Drop(Drawn(s).root, {ConnToken(c)})))
    case ReplaceConnections(cs) => r == WithLayout(s.(connections := cs), Normalize(l, cs))
    case KeepManualOrder(group, shown) => r == WithLayout(s, Frozen(l, live, group, shown))
    case ShowSorted(tag, info) =>
      && r == s.(tags := r.tags) && |r.tags| == |s.tags|
      && forall i :: 0 <= i < |s.tags| ==> r.tags[i] == if s.tags[i].id == tag then s.tags[i].(info := info) else s.tags[i]
    case ReplaceLayout(layout) => r == WithLayout(s, Normalize(layout, live))
    case _ => true
  }

  predicate EditsList(e: Edit) {
    || e.AddConnection? || e.UpdateConnection? || e.RemoveConnection? || e.ReplaceConnections?
    || e.KeepManualOrder? || e.ShowSorted? || e.ReplaceLayout?
  }

  ghost function ApplyToList(s: State, e: Edit): (r: State)
    ensures Repaired(s.tags) && Legal(s, e) ==> Repaired(r.tags)
    ensures ListDone(s, e, r)
  {
    var l, live := LayoutOf(s), s.connections;
    match e
    case AddConnection(c) => s.(connections := live + [c])
    case UpdateConnection(c, c') =>
      RenamedIs(live, c, c');
      s.(connections := seq(|live|, i requires 0 <= i < |live| => if live[i] == c then c' else live[i]))
    case RemoveConnection(c) => WithoutOne(s, c)
    case ReplaceConnections(cs) => Reloaded(s, l, cs)
    case KeepManualOrder(group, shown) => WithFrozen(s, group, shown)
    case ShowSorted(tag, info) =>
      InfoRepaired(s.tags, tag, info);
      s.(tags := WithInfo(s.tags, tag, info))
    case ReplaceLayout(layout) => Reloaded(s, layout, live)
    case _ => s
  }

  /** One edit. Whatever it does, a repaired tag list stays repaired; and this is what it does. */
  ghost function Apply(s: State, e: Edit): (r: State)
    ensures Repaired(s.tags) && Legal(s, e) ==> Repaired(r.tags)
    ensures ListDone(s, e, r) && MoveDone(s, e, r) && GroupsDone(s, e, r)
  {
    if EditsList(e) then ApplyToList(s, e) else ApplyMove(s, e)
  }

  ghost predicate LegalRun(s: State, es: seq<Edit>)
    decreases |es|
  {
    es == [] || (Legal(s, es[0]) && LegalRun(Apply(s, es[0]), es[1..]))
  }

  ghost function Run(s: State, es: seq<Edit>): State
    decreases |es|
  {
    if es == [] then s else Run(Apply(s, es[0]), es[1..])
  }

  ghost predicate Repaired(tags: seq<Tag>) {
    Consistent(tags) && Aligned(tags)
  }

  /** What is drawn: the stored root order is resolved on every read. */
  function Drawn(s: State): Layout {
    Layout(s.tags, RootOrder(s.root, s.tags, s.connections))
  }

  // ----- freezing a display order -----

  lemma ConnIdsCons(head: Token, rest: seq<Token>)
    ensures ConnIds([head] + rest) == (if head.ConnToken? then [head.conn] else []) + ConnIds(rest)
  {
    ConnIdsConcat([head], rest);
    assert [head][..0] == [];
  }

  lemma {:induction false} ApplyOrderConns(order: seq<Token>, ids: seq<Id>)
    requires |ids| == |ConnIds(order)|
    ensures ConnIds(ApplyOrder(order, ids)) == ids
  {
    if order != [] {
      var head, rest := order[0], order[1..];
      assert order == [head] + rest;
      ConnIdsCons(head, rest);
      if head.ConnToken? {
        ApplyOrderConns(rest, ids[1..]);
        ConnIdsCons(ConnToken(ids[0]), ApplyOrder(rest, ids[1..]));
      } else {
        ApplyOrderConns(rest, ids);
        ConnIdsCons(head, ApplyOrder(rest, ids));
      }
    }
  }

  lemma {:induction false} ApplyOrderTags(order: seq<Token>, ids: seq<Id>)
    ensures forall k :: TagToken(k) in ApplyOrder(order, ids) <==> TagToken(k) in order
  {
    if order != [] {
      if order[0].ConnToken? && ids != [] {
        ApplyOrderTags(order[1..], ids[1..]);
      } else {
        ApplyOrderTags(order[1..], ids);
      }
    }
  }

  lemma {:induction false} ApplyOrderNoDup(order: seq<Token>, ids: seq<Id>)
    requires NoDup(order) && NoDup(ids) && |ids| == |ConnIds(order)|
    ensures NoDup(ApplyOrder(order, ids))
  {
    if order != [] {
      var head, rest := order[0], order[1..];
      assert order == [head] + rest;
      NoDupParts([head], rest);
      ConnIdsCons(head, rest);
      var ids' := if head.ConnToken? then ids[1..] else ids;
      if head.ConnToken? {
        TailNoDup(ids);
      }
      ApplyOrderNoDup(rest, ids');
      ApplyOrderConns(rest, ids');
      ApplyOrderTags(rest, ids');
      ConsNoDup(if head.ConnToken? then ConnToken(ids[0]) else head, ApplyOrder(rest, ids'), ids');
    }
  }

  lemma TailNoDup(ids: seq<Id>)
    requires ids != [] && NoDup(ids)
    ensures NoDup(ids[1..]) && ids[0] !in ids[1..]
  {
    assert ids == [ids[0]] + ids[1..];
    NoDupParts([ids[0]], ids[1..]);
  }

  lemma ConsNoDup(x: Token, tail: seq<Token>, ids: seq<Id>)
    requires NoDup(tail) && ConnIds(tail) == ids
    requires if x.ConnToken? then x.conn !in ids else x !in tail
    ensures NoDup([x] + tail)
  {
    if x.ConnToken? {
      assert x in tail <==> x.conn in ConnIds(tail);
    }
    NoDupConcat([x], tail);
  }

  lemma PermutationLength(a: seq<Id>, b: seq<Id>)
    requires IsPermutation(a, b) && NoDup(b)
    ensures |a| == |b|
  {
    NoDupLength(a);
    NoDupLength(b);
    assert Elems(a) == Elems(b);
  }

  lemma FrozenOrder(order: seq<Token>, shown: seq<Id>)
    requires NoDup(order) && NoDup(ConnIds(order)) && IsPermutation(shown, ConnIds(order))
    ensures NoDup(ApplyOrder(order, shown)) && ConnIds(ApplyOrder(order, shown)) == shown
    ensures forall tok :: tok in ApplyOrder(order, shown) <==> tok in order
  {
    PermutationLength(shown, ConnIds(order));
    ApplyOrderConns(order, shown);
    ApplyOrderTags(order, shown);
    ApplyOrderNoDup(order, shown);
    forall tok ensures tok in ApplyOrder(order, shown) <==> tok in order {
      match tok
      case TagToken(k) =>
      case ConnToken(c) =>
        assert tok in ApplyOrder(order, shown) <==> c in ConnIds(ApplyOrder(order, shown));
        assert tok in order <==> c in ConnIds(order);
    }
  }

  /** What freezing does to a list: every group keeps its place, and the connections' places are filled
      with `shown`, in order. */
  lemma {:induction false} ApplyOrderPlaces(order: seq<Token>, ids: seq<Id>)
    ensures |ApplyOrder(order, ids)| == |order|
    ensures forall i :: 0 <= i < |order| ==> ApplyOrder(order, ids)[i].TagToken? == order[i].TagToken?
    ensures forall i :: 0 <= i < |order| && order[i].TagToken? ==> ApplyOrder(order, ids)[i] == order[i]
  {
    if order != [] {
      ApplyOrderPlaces(order[1..], if order[0].ConnToken? && ids != [] then ids[1..] else ids);
    }
  }

  /** `b` is `a` with its connections shown in this order, in the places where connections stood. */
  ghost predicate ShowsConnections(a: Tag, b: Tag, shown: seq<Id>) {
    && b == a.(conns := shown, order := b.order)
    && |b.order| == |a.order| && ConnIds(b.order) == shown
    && forall i :: 0 <= i < |a.order| && a.order[i].TagToken? ==> b.order[i] == a.order[i]
  }

  /** Freezing a display order: the group shows its connections in that order, in the places where they
      stood among its subgroups; no other tag changes, and the list stays repaired. */
  lemma ManualOrderRepaired(tags: seq<Tag>, group: Id, shown: seq<Id>)
    requires Repaired(tags)
    requires match Find(tags, group) case None => true case Some(t) => IsPermutation(shown, t.conns)
    ensures var r := WithManualOrder(tags, group, shown);
            && Repaired(r)
            && forall i :: 0 <= i < |tags| ==>
                 if tags[i].id == group then ShowsConnections(tags[i], r[i], shown) else r[i] == tags[i]
  {
    var r := WithManualOrder(tags, group, shown);
    forall i | 0 <= i < |tags|
      ensures NoDup(r[i].order) && r[i].conns == ConnIds(r[i].order) && NoDup(r[i].conns)
      ensures forall tok :: tok in r[i].order <==> tok in tags[i].order
      ensures tags[i].id == group ==> ShowsConnections(tags[i], r[i], shown)
    {
      assert tags[i] in tags && CompleteOrder(tags, tags[i]);
      if tags[i].id == group {
        FindMember(tags, tags[i]);
        FrozenOrder(tags[i].order, shown);
        ApplyOrderPlaces(tags[i].order, shown);
      }
    }
    ManualConsistent(tags, r);
  }

  /** Freezing the order of one group's connections, of any layout: that group changes as said, and no other
      tag and nothing at the root. */
  lemma FrozenGroupExact(l: Layout, connections: seq<Id>, group: Id, shown: seq<Id>)
    requires match Find(NormalizeTags(l.tags), group) case None => true case Some(t) => IsPermutation(shown, t.conns)
    ensures var n, f := Normalize(l, connections), Frozen(l, connections, Some(group), shown);
            && Repaired(f.tags) && |f.tags| == |n.tags| && f.root == n.root
            && forall i :: 0 <= i < |n.tags| ==>
                 if n.tags[i].id == group then ShowsConnections(n.tags[i], f.tags[i], shown) else f.tags[i] == n.tags[i]
  {
    NormalizeRepaired(l, connections);
    ManualOrderRepaired(NormalizeTags(l.tags), group, shown);
  }

  /** Freezing the order of the ungrouped connections permutes them among their own places and keeps the
      layout normal. */
  lemma FrozenRootExact(l: Layout, connections: seq<Id>, shown: seq<Id>)
    requires IsPermutation(shown, ConnIds(Normalize(l, connections).root))
    ensures var n, f := Normalize(l, connections), Frozen(l, connections, None, shown);
            && Normal(f, connections) && f.tags == n.tags
            && ConnIds(f.root) == shown && |f.root| == |n.root|
            && forall i :: 0 <= i < |n.root| && n.root[i].TagToken? ==> f.root[i] == n.root[i]
  {
    var root := Normalize(l, connections).root;
    NormalizeIsNormal(l, connections);
    ConnIdsNoDup(root);
    FrozenOrder(root, shown);
    ApplyOrderPlaces(root, shown);
  }

  lemma ManualConsistent(a: seq<Tag>, b: seq<Tag>)
    requires Repaired(a) && SameSkeleton(a, b)
    requires forall i :: 0 <= i < |a| ==> NoDup(b[i].order) && b[i].conns == ConnIds(b[i].order) && NoDup(b[i].conns)
    requires forall i, tok :: 0 <= i < |a| ==> (tok in b[i].order <==> tok in a[i].order)
    ensures Repaired(b)
  {
    SkeletonParents(a, b);
    SkeletonSoundParents(a, b);
    forall i, c | 0 <= i < |a| ensures c in a[i].conns <==> c in b[i].conns {
      assert a[i] in a;
      assert ConnToken(c) in a[i].order <==> ConnToken(c) in b[i].order;
    }
    SameOwnersSole(a, b);
    forall t | t in b ensures CompleteOrder(b, t) {
      var i :| 0 <= i < |b| && b[i] == t;
      ManualOrder(a, b, i);
    }
  }

  lemma ManualOrder(a: seq<Tag>, b: seq<Tag>, i: nat)
    requires Consistent(a) && SameOwners(a, b) && i < |a| && NoDup(b[i].order)
    requires forall tok :: tok in b[i].order <==> tok in a[i].order
    ensures CompleteOrder(b, b[i])
  {
    assert a[i] in a && CompleteOrder(a, a[i]);
    SkeletonChildTokens(a, b, Some(a[i].id));
    forall tok ensures tok in b[i].order <==> IsChild(b, b[i], tok) {
      assert tok in a[i].order <==> IsChild(a, a[i], tok);
      match tok
      case ConnToken(c) =>
      case TagToken(k) =>
        assert IsChild(a, a[i], tok) <==> tok in ChildTokens(a, Some(a[i].id));
        assert IsChild(b, b[i], tok) <==> tok in ChildTokens(b, Some(a[i].id));
    }
  }

  // ----- runs -----

  lemma MoveEachRepaired(l: Layout, connections: seq<Id>, cs: seq<Id>, to: Option<Id>)
    requires Repaired(l.tags)
    ensures Repaired(MoveEach(l, connections, cs, to).tags)
  {
    if cs != [] {
      var p := MoveEach(l, connections, cs[..|cs| - 1], to);
      MoveEachRepaired(l, connections, cs[..|cs| - 1], to);
      MoveConnRepaired(p, connections, cs[|cs| - 1], to, None, false);
    }
  }

  lemma NormalizeRepaired(l: Layout, connections: seq<Id>)
    ensures Repaired(Normalize(l, connections).tags)
  {
    NormalizeTagsConsistent(l.tags);
  }

  lemma FrozenRepaired(l: Layout, live: seq<Id>, group: Option<Id>, shown: seq<Id>)
    ensures SortsGroup(l.tags, group, shown) ==> Repaired(Frozen(l, live, group, shown).tags)
  {
    NormalizeRepaired(l, live);
    if group.Some? && SortsGroup(l.tags, group, shown) {
      ManualOrderRepaired(NormalizeTags(l.tags), group.value, shown);
    }
  }

  lemma InfoRepaired(tags: seq<Tag>, group: Id, info: Info)
    ensures Repaired(tags) ==> Repaired(WithInfo(tags, group, info))
  {
    if Repaired(tags) {
      SameInfoRepaired(tags, group, info);
    }
  }

  lemma SameInfoRepaired(tags: seq<Tag>, group: Id, info: Info)
    requires Repaired(tags)
    ensures Repaired(WithInfo(tags, group, info))
  {
    forall i | 0 <= i < |tags| ensures NoDup(tags[i].order) && tags[i].conns == ConnIds(tags[i].order) && NoDup(tags[i].conns) {
      assert tags[i] in tags && CompleteOrder(tags, tags[i]);
    }
    ManualConsistent(tags, WithInfo(tags, group, info));
  }

  lemma AddGroupRepaired(l: Layout, live: seq<Id>, added: Tag, nameTaken: bool)
    ensures Repaired(AddGroup(l, live, added, nameTaken).tags)
  {
    NormalizeRepaired(l, live);
    NormalizeRepaired(GroupAdded(Normalize(l, live), live, added), live);
  }

  lemma UpdateGroupRepaired(l: Layout, live: seq<Id>, id: Id, change: Change, nameTaken: bool)
    ensures Repaired(UpdateGroup(l, live, id, change, nameTaken).tags)
  {
    var n := Normalize(l, live);
    NormalizeRepaired(l, live);
    var found := Find(n.tags, id);
    if found.Some? {
      var next := Layout(NormalizeTags(Changed(n.tags, id, change)), n.root);
      NormalizeRepaired(next, live);
      MoveTagRepaired(next, live, id, change.parent.GetOr(found.value.parent), None, false);
    }
  }

  lemma MoveTagRepaired(l: Layout, live: seq<Id>, tag: Id, parent: Option<Id>, target: Option<Token>, before: bool)
    ensures match MoveTagInTree(l, live, tag, parent, target, before) case None => true case Some(m) => Repaired(m.tags)
  {
    NormalizeRepaired(Reparented(Normalize(l, live), live, tag, parent, target, before), live);
  }

  lemma MoveConnRepaired(l: Layout, live: seq<Id>, c: Id, to: Option<Id>, target: Option<Token>, before: bool)
    ensures match MoveConnInTree(l, live, c, to, target, before) case None => true case Some(m) => Repaired(m.tags)
  {
    NormalizeRepaired(Relocated(Normalize(l, live), live, c, to, target, before), live);
  }

  lemma MoveConnsRepaired(l: Layout, live: seq<Id>, cs: seq<Id>, to: Option<Id>)
    ensures Repaired(l.tags) ==> Repaired(MoveConns(l, live, cs, to).tags)
  {
    if Repaired(l.tags) {
      var selected := Selected(cs, live);
      MoveEachRepaired(l, live, if to.Some? then selected else Reverse(selected), to);
    }
  }

  lemma ReorderGroupsRepaired(l: Layout, live: seq<Id>, ids: seq<Id>)
    ensures Repaired(ReorderGroups(l, live, ids).tags)
  {
    var n := Normalize(l, live);
    NormalizeRepaired(Layout(n.tags, GroupsFirst(n.root, ids)), live);
  }

  lemma ReorderRootRepaired(l: Layout, live: seq<Id>, source: Token, beside: Token, before: bool)
    ensures Repaired(ReorderRoot(l, live, source, beside, before).tags)
  {
    var n := Normalize(l, live);
    NormalizeRepaired(Layout(n.tags, MovedInRoot(n.root, source, beside, before)), live);
  }

  lemma RemoveGroupRepaired(l: Layout, live: seq<Id>, tag: Id)
    ensures Repaired(RemoveGroup(l, live, tag).tags)
  {
    RemoveGroupKeepsSequence(l, live, tag);
  }

  lemma RemoveTreeRepaired(l: Layout, live: seq<Id>, tag: Id)
    ensures Repaired(RemoveTree(l, live, tag).tags)
  {
    var n := Normalize(l, live);
    var gone := Subtree(n.tags, tag);
    NormalizeRepaired(Layout(OutsideTags(n.tags, gone), Drop(n.root, TagTokens(gone))), live);
  }

  lemma {:induction false} RunKeepsRepaired(s: State, es: seq<Edit>)
    requires Repaired(s.tags) && LegalRun(s, es)
    ensures Repaired(Run(s, es).tags)
    decreases |es|
  {
    if es != [] {
      RunKeepsRepaired(Apply(s, es[0]), es[1..]);
    }
  }

  /** From any loaded state, after any run of edits: what is drawn is one forest that holds every tag
      and every live connection exactly once. */
  lemma RunShowsEverythingOnce(loaded: Layout, connections: seq<Id>, es: seq<Edit>)
    requires LegalRun(WithLayout(State([], [], connections), Normalize(loaded, connections)), es)
    ensures var s := Run(WithLayout(State([], [], connections), Normalize(loaded, connections)), es);
            && IsForest(Up(s.tags), Kids(s.tags), Drawn(s).root)
            && Fits(Kids(s.tags), Drawn(s).root, |Up(s.tags)|)
            && NoDup(Shown(Drawn(s)))
            && (forall tok :: tok in Shown(Drawn(s)) <==> Exists(Drawn(s), s.connections, tok))
  {
    var s := Run(WithLayout(State([], [], connections), Normalize(loaded, connections)), es);
    NormalizeRepaired(loaded, connections);
    RunKeepsRepaired(WithLayout(State([], [], connections), Normalize(loaded, connections)), es);
    RootOrderComplete(s.root, s.tags, s.connections);
    LayoutIsForest(Drawn(s), s.connections);
    NormalShowsEverythingOnce(Drawn(s), s.connections);
  }
}
