/** The sidebar's groups ("connection tags"): a flat list with parent pointers, the connections each
    group owns, and one mixed order list per group. `NormalizeTags` is the repair that every edit and
    every load of persisted data goes through. */
module SidebarTags {
  import opened Options
  import opened Seqs
  import opened ParentChain

  /** Identifiers, already trimmed and non-empty. */
  type Id(==, 0, !new)

  /** Name, creation time and display mode: carried along, never interpreted. */
  type Info(==, 0, !new)

  datatype Token = TagToken(tag: Id) | ConnToken(conn: Id)

  datatype Tag = Tag(id: Id, info: Info, parent: Option<Id>, conns: seq<Id>, order: seq<Token>)

  // ----- looking tags up -----

  function Ids(tags: seq<Tag>): (r: set<Id>)
    ensures forall t :: t in tags ==> t.id in r
  {
    if tags == [] then {} else {tags[0].id} + Ids(tags[1..])
  }

  function Find(tags: seq<Tag>, id: Id): (r: Option<Tag>)
    ensures r.Some? ==> r.value in tags && r.value.id == id
    ensures r.Some? <==> id in Ids(tags)
  {
    if tags == [] then None
    else if tags[0].id == id then Some(tags[0])
    else
      assert forall t :: t in tags[1..] ==> t in tags;
      assert forall t :: t in tags ==> t == tags[0] || t in tags[1..];
      Find(tags[1..], id)
  }

  ghost predicate DistinctIds(tags: seq<Tag>) {
    forall i, j :: 0 <= i < j < |tags| ==> tags[i].id != tags[j].id
  }

  lemma FindMember(tags: seq<Tag>, t: Tag)
    requires DistinctIds(tags) && t in tags
    ensures Find(tags, t.id) == Some(t)
  {
  }

  /** The parent pointers as a map. */
  function Parents(tags: seq<Tag>): map<Id, Id> {
    map x | x in Ids(tags) && Find(tags, x).value.parent.Some? :: Find(tags, x).value.parent.value
  }

  /** The connections owned by some tag. */
  function Owned(tags: seq<Tag>): set<Id> {
    set t, c | t in tags && c in t.conns :: c
  }

  // ----- order lists -----

  /** The stored order without stale and repeated tokens, then whatever it lacks. */
  function Resolve(order: seq<Token>, known: seq<Token>): seq<Token> {
    Dedup(Keep(order, Elems(known)) + known)
  }

  function ConnTokens(ids: seq<Id>): (r: seq<Token>)
    ensures |r| == |ids|
    ensures forall tok :: tok in r <==> tok.ConnToken? && tok.conn in ids
  {
    if ids == [] then [] else ConnTokens(ids[..|ids| - 1]) + [ConnToken(ids[|ids| - 1])]
  }

  /** The connections of a mixed order list. */
  function ConnIds(order: seq<Token>): (r: seq<Id>)
    ensures forall c :: c in r <==> ConnToken(c) in order
  {
    if order == [] then []
    else
      var r := ConnIds(order[..|order| - 1]);
      var last := order[|order| - 1];
      if last.ConnToken? then r + [last.conn] else r
  }

  /** Tokens of the tags directly under `parent` (None: of the root tags), in list order. */
  function ChildTokens(tags: seq<Tag>, parent: Option<Id>): (r: seq<Token>)
    ensures forall tok :: tok in r <==> tok.TagToken? && exists t :: t in tags && t.id == tok.tag && t.parent == parent
  {
    if tags == [] then []
    else
      var r := ChildTokens(tags[..|tags| - 1], parent);
      var last := tags[|tags| - 1];
      if last.parent == parent then r + [TagToken(last.id)] else r
  }

  function ChildOrder(t: Tag, tags: seq<Tag>): seq<Token> {
    Resolve(t.order, ConnTokens(t.conns) + ChildTokens(tags, Some(t.id)))
  }

  // ----- the phases of the repair -----

  /** The first tag of each id, its lists without repetitions. */
  function CleanTags(tags: seq<Tag>): seq<Tag> {
    if tags == [] then []
    else
      var r := CleanTags(tags[..|tags| - 1]);
      var last := tags[|tags| - 1];
      if last.id in Ids(r) then r
      else r + [last.(conns := Dedup(last.conns), order := Dedup(last.order))]
  }

  /** Parents that are the tag itself or no tag at all are forgotten. */
  function ClearUnknownParents(tags: seq<Tag>): seq<Tag> {
    seq(|tags|, i requires 0 <= i < |tags| =>
      var t := tags[i];
      if t.parent.Some? && (t.parent.value == t.id || t.parent.value !in Ids(tags)) then t.(parent := None) else t)
  }

  /** Every tag on a cycle of parents moves to the root; nothing else does. */
  ghost function CutCycles(tags: seq<Tag>): seq<Tag> {
    seq(|tags|, i requires 0 <= i < |tags| =>
      if OnCycle(Parents(tags), tags[i].id) then tags[i].(parent := None) else tags[i])
  }

  /** A connection listed by several tags stays with the first. */
  function ClaimConnections(tags: seq<Tag>): (r: seq<Tag>)
    ensures |r| == |tags|
  {
    if tags == [] then []
    else
      var front, last := tags[..|tags| - 1], tags[|tags| - 1];
      ClaimConnections(front) + [last.(conns := Drop(Dedup(last.conns), Owned(front)))]
  }

  /** Order lists are completed, and the owned connections follow the order list. */
  function ResolveOrders(tags: seq<Tag>): seq<Tag> {
    seq(|tags|, i requires 0 <= i < |tags| =>
      var order := ChildOrder(tags[i], tags);
      tags[i].(order := order, conns := ConnIds(order)))
  }

  ghost function NormalizeTags(tags: seq<Tag>): seq<Tag> {
    ResolveOrders(ClaimConnections(CutCycles(ClearUnknownParents(CleanTags(tags)))))
  }

  // ----- the root list -----

  function UngroupedTokens(tags: seq<Tag>, connections: seq<Id>): seq<Token> {
    ConnTokens(Drop(connections, Owned(tags)))
  }

  /** The root order as every reader resolves it. */
  function RootOrder(order: seq<Token>, tags: seq<Tag>, connections: seq<Id>): seq<Token> {
    Resolve(order, ChildTokens(tags, None) + UngroupedTokens(tags, connections))
  }

  datatype Layout = Layout(tags: seq<Tag>, root: seq<Token>)

  ghost function Normalize(l: Layout, connections: seq<Id>): Layout {
    var tags := NormalizeTags(l.tags);
    Layout(tags, RootOrder(l.root, tags, connections))
  }

  // ----- what a repaired layout looks like -----

  ghost predicate SoundParents(tags: seq<Tag>) {
    && (forall t :: t in tags && t.parent.Some? ==> t.parent.value in Ids(tags))
    && Acyclic(Parents(tags))
  }

  ghost predicate SoleOwners(tags: seq<Tag>) {
    && (forall t :: t in tags ==> NoDup(t.conns))
    && (forall t, u, c :: t in tags && u in tags && c in t.conns && c in u.conns ==> t.id == u.id)
  }

  /** `tok` belongs in the order list of `t`. */
  ghost predicate IsChild(tags: seq<Tag>, t: Tag, tok: Token) {
    match tok
    case ConnToken(c) => c in t.conns
    case TagToken(k) => exists u :: u in tags && u.id == k && u.parent == Some(t.id)
  }

  ghost predicate CompleteOrder(tags: seq<Tag>, t: Tag) {
    NoDup(t.order) && forall tok :: tok in t.order <==> IsChild(tags, t, tok)
  }

  ghost predicate Consistent(tags: seq<Tag>) {
    && DistinctIds(tags)
    && SoundParents(tags)
    && SoleOwners(tags)
    && (forall t :: t in tags ==> CompleteOrder(tags, t))
  }

  ghost predicate Aligned(tags: seq<Tag>) {
    forall t :: t in tags ==> t.conns == ConnIds(t.order)
  }

  /** `tok` belongs in the root order. */
  ghost predicate IsRoot(tags: seq<Tag>, connections: seq<Id>, tok: Token) {
    match tok
    case ConnToken(c) => c in connections && c !in Owned(tags)
    case TagToken(k) => exists u :: u in tags && u.id == k && u.parent == None
  }

  ghost predicate CompleteRoot(tags: seq<Tag>, root: seq<Token>, connections: seq<Id>) {
    NoDup(root) && forall tok :: tok in root <==> IsRoot(tags, connections, tok)
  }

  ghost predicate Normal(l: Layout, connections: seq<Id>) {
    Consistent(l.tags) && Aligned(l.tags) && CompleteRoot(l.tags, l.root, connections)
  }
}
