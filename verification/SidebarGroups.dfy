/** Adding, changing and reordering groups, and reordering the root list. Each of these actions ends in
    the repair: for the two reorderings it is shown to leave the layout it is given as it is; what it makes
    of an added or a changed group is in `SidebarRegroup`. */
module SidebarGroups {
  import opened Options
  import opened Seqs
  import opened SidebarTags
  import opened SidebarNormal
  import opened SidebarPlacement
  import opened SidebarMoveTag

  // ----- adding and changing a group -----

  /** A group gives up its claim to some connections. */
  function Disowned(t: Tag, gone: seq<Id>): Tag {
    t.(conns := Drop(t.conns, Elems(gone)), order := Drop(t.order, Elems(ConnTokens(gone))))
  }

  function WithGroup(tags: seq<Tag>, added: Tag): seq<Tag> {
    var direct := Dedup(added.conns);
    seq(|tags|, i requires 0 <= i < |tags| => Disowned(tags[i], direct))
    + [added.(conns := direct, order := Dedup(added.order))]
  }

  /** The layout that `addConnectionTag` hands to its last repair. */
  ghost function GroupAdded(n: Layout, connections: seq<Id>, added: Tag): Layout {
    var tags := NormalizeTags(WithGroup(n.tags, added));
    var token := TagToken(added.id);
    var found := Find(tags, added.id);
    Layout(tags,
           if found.Some? && found.value.parent.Some? then n.root
           else InsertBeforeUngrouped(Drop(RootOrder(n.root, tags, connections), {token}), token))
  }

  /** `nameTaken`: a sibling has that name. */
  ghost function AddGroup(l: Layout, connections: seq<Id>, added: Tag, nameTaken: bool): Layout {
    var n := Normalize(l, connections);
    if added.id in Ids(n.tags) || nameTaken then n else Normalize(GroupAdded(n, connections, added), connections)
  }

  /** What a change of a group asks for; None: as before. */
  datatype Change = Change(info: Info, parent: Option<Option<Id>>, conns: seq<Id>, order: Option<seq<Token>>)

  function Changed(tags: seq<Tag>, id: Id, change: Change): seq<Tag> {
    var direct := Dedup(change.conns);
    seq(|tags|, i requires 0 <= i < |tags| =>
      if tags[i].id == id then
        tags[i].(info := change.info, conns := direct,
                 order := if change.order.Some? then Dedup(change.order.value) else tags[i].order)
      else Disowned(tags[i], direct))
  }

  ghost function UpdateGroup(l: Layout, connections: seq<Id>, id: Id, change: Change, nameTaken: bool): Layout {
    var n := Normalize(l, connections);
    match Find(n.tags, id)
    case None => n
    case Some(existing) =>
      if nameTaken then n
      else
        var next := Layout(NormalizeTags(Changed(n.tags, id, change)), n.root);
        var parent := change.parent.GetOr(existing.parent);
        var moved := if parent != existing.parent then MoveTagInTree(next, connections, id, parent, None, false) else None;
        moved.GetOr(Normalize(next, connections))
  }

  // ----- reordering -----

  function OnlyTags(order: seq<Token>): (r: seq<Token>)
    ensures forall tok :: tok in r <==> tok in order && tok.TagToken?
    ensures NoDup(order) ==> NoDup(r)
  {
    if order == [] then []
    else
      var front, last := order[..|order| - 1], order[|order| - 1];
      assert order == front + [last];
      if last.TagToken? then OnlyTags(front) + [last] else OnlyTags(front)
  }

  function OnlyConns(order: seq<Token>): (r: seq<Token>)
    ensures forall tok :: tok in r <==> tok in order && tok.ConnToken?
    ensures NoDup(order) ==> NoDup(r)
  {
    if order == [] then []
    else
      var front, last := order[..|order| - 1], order[|order| - 1];
      assert order == front + [last];
      if last.ConnToken? then OnlyConns(front) + [last] else OnlyConns(front)
  }

  /** Tokens of the requested groups that are at the root, each once. */
  function Requested(root: seq<Token>, ids: seq<Id>): (r: seq<Token>)
    ensures NoDup(r) && forall tok :: tok in r ==> tok.TagToken? && tok in root
  {
    if ids == [] then []
    else
      var r, tok := Requested(root, ids[..|ids| - 1]), TagToken(ids[|ids| - 1]);
      if tok in root && tok !in r then
        NoDupSnoc(r, tok);
        r + [tok]
      else r
  }

  /** The requested groups first, then the other groups, then the connections. */
  function GroupsFirst(root: seq<Token>, ids: seq<Id>): seq<Token> {
    var requested := Requested(root, ids);
    requested + Drop(OnlyTags(root), Elems(requested)) + OnlyConns(root)
  }

  ghost function ReorderGroups(l: Layout, connections: seq<Id>, ids: seq<Id>): Layout {
    var n := Normalize(l, connections);
    Normalize(Layout(n.tags, GroupsFirst(n.root, ids)), connections)
  }

  /** `moveSidebarRootToken`. */
  function MovedInRoot(root: seq<Token>, source: Token, target: Token, before: bool): seq<Token> {
    if source == target then root else PlaceIn(Drop(root, {source}), source, Some(target), before)
  }

  ghost function ReorderRoot(l: Layout, connections: seq<Id>, source: Token, target: Token, before: bool): Layout {
    var n := Normalize(l, connections);
    Normalize(Layout(n.tags, MovedInRoot(n.root, source, target, before)), connections)
  }

  /** A rearranged root order of a normal layout is kept. */
  lemma RearrangedKept(n: Layout, connections: seq<Id>, root: seq<Token>)
    requires Normal(n, connections) && NoDup(root) && forall tok :: tok in root <==> tok in n.root
    ensures Normalize(Layout(n.tags, root), connections) == Layout(n.tags, root)
  {
    NormalIsFixed(Layout(n.tags, root), connections);
  }

  lemma GroupsFirstRearranges(root: seq<Token>, ids: seq<Id>)
    requires NoDup(root)
    ensures NoDup(GroupsFirst(root, ids)) && forall tok :: tok in GroupsFirst(root, ids) <==> tok in root
  {
    var requested := Requested(root, ids);
    var others := Drop(OnlyTags(root), Elems(requested));
    NoDupDrop(OnlyTags(root), Elems(requested));
    NoDupConcat(requested, others);
    NoDupConcat(requested + others, OnlyConns(root));
  }

  /** The tokens of these groups, in this order. */
  function GroupTokens(ids: seq<Id>): seq<Token> {
    seq(|ids|, i requires 0 <= i < |ids| => TagToken(ids[i]))
  }

  function GroupsOf(root: seq<Token>): (r: set<Token>)
    ensures forall tok :: tok in r <==> tok in root && tok.TagToken?
  {
    set tok | tok in root && tok.TagToken?
  }

  lemma {:induction false} RequestedIs(root: seq<Token>, ids: seq<Id>)
    ensures Requested(root, ids) == Dedup(Keep(GroupTokens(ids), Elems(root)))
  {
    if ids != [] {
      var front, last := ids[..|ids| - 1], ids[|ids| - 1];
      RequestedIs(root, front);
      assert GroupTokens(ids)[..|ids| - 1] == GroupTokens(front);
      var kept := Keep(GroupTokens(front), Elems(root));
      assert (kept + [TagToken(last)])[..|kept|] == kept;
    }
  }

  lemma {:induction false} OnlyTagsIs(order: seq<Token>, groups: set<Token>)
    requires forall tok :: tok in order ==> (tok in groups <==> tok.TagToken?)
    ensures OnlyTags(order) == Keep(order, groups) && OnlyConns(order) == Drop(order, groups)
  {
    if order != [] {
      OnlyTagsIs(order[..|order| - 1], groups);
      assert order[|order| - 1] in order;
    }
  }

  /** Reordering the groups of the root puts the requested ones first, each once in request order, then the
      other groups and then the connections as they stood; nothing else changes. */
  lemma ReorderGroupsExact(l: Layout, connections: seq<Id>, ids: seq<Id>)
    ensures var n := Normalize(l, connections);
            var requested := Dedup(Keep(GroupTokens(ids), Elems(n.root)));
            ReorderGroups(l, connections, ids)
            == Layout(n.tags, requested + Drop(Keep(n.root, GroupsOf(n.root)), Elems(requested)) + Drop(n.root, GroupsOf(n.root)))
  {
    var n := Normalize(l, connections);
    NormalizeIsNormal(l, connections);
    GroupsFirstRearranges(n.root, ids);
    RearrangedKept(n, connections, GroupsFirst(n.root, ids));
    RequestedIs(n.root, ids);
    OnlyTagsIs(n.root, GroupsOf(n.root));
  }

  /** Moving an item of the root list beside another moves that item only, directly to the asked side, or to
      the end if the other is not there; an item that is not in the list, or is to go beside itself, changes
      nothing. */
  lemma ReorderRootExact(l: Layout, connections: seq<Id>, source: Token, target: Token, before: bool)
    ensures var n, r := Normalize(l, connections), ReorderRoot(l, connections, source, target, before);
            && r.tags == n.tags
            && (source == target || source !in n.root ==> r.root == n.root)
            && (source != target && source in n.root ==>
                  LandsBeside(r.root, Drop(n.root, {source}), source, Some(target), before))
  {
    ReorderRootMoves(l, connections, source, target, before);
    PlaceInBeside(Drop(Normalize(l, connections).root, {source}), source, Some(target), before);
  }

  lemma ReorderRootMoves(l: Layout, connections: seq<Id>, source: Token, target: Token, before: bool)
    ensures var n := Normalize(l, connections);
            ReorderRoot(l, connections, source, target, before)
            == if source in n.root then Layout(n.tags, MovedInRoot(n.root, source, target, before)) else n
  {
    var n := Normalize(l, connections);
    NormalizeIsNormal(l, connections);
    if source == target {
      NormalIsFixed(n, connections);
    } else if source in n.root {
      MovedRearranges(n, connections, source, target, before);
    } else {
      UnknownInRoot(n, connections, source, target, before);
    }
  }

  lemma MovedRearranges(n: Layout, connections: seq<Id>, source: Token, target: Token, before: bool)
    requires Normal(n, connections) && source in n.root && source != target
    ensures Normalize(Layout(n.tags, MovedInRoot(n.root, source, target, before)), connections)
         == Layout(n.tags, MovedInRoot(n.root, source, target, before))
  {
    NoDupDrop(n.root, {source});
    PlaceInMembers(Drop(n.root, {source}), source, Some(target), before);
    RearrangedKept(n, connections, MovedInRoot(n.root, source, target, before));
  }

  lemma UnknownInRoot(n: Layout, connections: seq<Id>, source: Token, target: Token, before: bool)
    requires Normal(n, connections) && source !in n.root && source != target
    ensures Normalize(Layout(n.tags, MovedInRoot(n.root, source, target, before)), connections) == n
  {
    var moved := MovedInRoot(n.root, source, target, before);
    DropNone(n.root, {source});
    PlaceInMembers(n.root, source, Some(target), before);
    NormalIsFixed(n, connections);
    UnknownDropped(n.tags, connections, moved, n.root, source);
  }

  lemma UnknownDropped(tags: seq<Tag>, connections: seq<Id>, moved: seq<Token>, root: seq<Token>, source: Token)
    requires CompleteRoot(tags, root, connections) && source !in root
    requires NoDup(moved) && Drop(moved, {source}) == root
    ensures RootOrder(moved, tags, connections) == root
  {
    var known := ChildTokens(tags, None) + UngroupedTokens(tags, connections);
    forall tok ensures tok in known <==> tok in moved && tok !in {source} {
      assert tok in known <==> IsRoot(tags, connections, tok);
      assert tok in root <==> tok in Drop(moved, {source});
    }
    ResolveDrops(moved, known, {source});
  }
}
