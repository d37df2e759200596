/** Pruning of immutable release directories that no channel refers to. */
module EdgeRetention {
  import opened Options
  import opened Seqs
  import opened EdgeDisk
  import opened EdgeCommands
  import opened EdgeLive

  /** A directory that holds the releases of one channel and kind. */
  datatype Root = Root(ch: Channel, kind: Kind)

  /** What pruning reads of a directory's modification time: whether it is old enough, and its place
      in the order by time and then name. */
  datatype Ages = Ages(aged: Version -> bool, rank: Version -> int)

  ghost predicate Ranked(g: Ages) {
    forall u, v :: g.rank(u) == g.rank(v) ==> u == v
  }

  function RootOf(v: Version): Root {
    Root(v.ch, v.kind)
  }

  function NonEmpty(tag: Tag): set<Tag> {
    if tag == "" then {} else {tag}
  }

  /** A channel whose record cannot be read stops the run; one without a record is left alone. */
  predicate ChannelReadable(d: Disk, e: Env, ch: Channel) {
    ChannelState(ch) in d.files ==>
      && d.files[ChannelState(ch)].Doc?
      && d.files[ChannelState(ch)].doc.channel == ch
      && (Latest(ch, Driver) in d.files ==> e.indexTag(d.files[Latest(ch, Driver)]).Some?)
  }

  function LatestDriverTag(d: Disk, e: Env, ch: Channel): Tag {
    if Latest(ch, Driver) in d.files then e.indexTag(d.files[Latest(ch, Driver)]).GetOr("") else ""
  }

  function KeptTags(d: Disk, e: Env, root: Root): set<Tag>
    requires ChannelState(root.ch) in d.files && ChannelReadable(d, e, root.ch)
  {
    var doc := d.files[ChannelState(root.ch)].doc;
    match root.kind
    case App => NonEmpty(doc.appTag)
    case Driver => NonEmpty(doc.driverTag) + NonEmpty(LatestDriverTag(d, e, root.ch))
  }

  const ROOTS: set<Root> := {Root(Stable, App), Root(Stable, Driver), Root(Dev, App), Root(Dev, Driver)}

  lemma EveryRoot(root: Root)
    ensures root in ROOTS
  {
    match (root.ch, root.kind)
    case (Stable, App) =>
    case (Stable, Driver) =>
    case (Dev, App) =>
    case (Dev, Driver) =>
  }

  type References = map<Root, set<Tag>>

  function ReferencesOf(d: Disk, e: Env): (r: Option<References>)
    ensures r.Some? <==> forall ch :: ChannelReadable(d, e, ch)
    ensures r.Some? ==> forall root :: root in r.value <==> ChannelState(root.ch) in d.files
    ensures r.Some? ==> forall root :: root in r.value ==> r.value[root] == KeptTags(d, e, root)
  {
    if forall ch :: ChannelReadable(d, e, ch) then
      assert forall root :: root in ROOTS by {
        forall root: Root ensures root in ROOTS {
          EveryRoot(root);
        }
      }
      Some(map root | root in ROOTS && ChannelState(root.ch) in d.files :: KeptTags(d, e, root))
    else None
  }

  /** `refs` is right for the channels in `done` and silent about the others. */
  ghost predicate Loaded(refs: References, done: set<Channel>, d: Disk, e: Env) {
    && (forall ch :: ch in done ==> ChannelReadable(d, e, ch))
    && (forall root :: root in refs <==> root.ch in done && ChannelState(root.ch) in d.files)
    && (forall root :: root in refs ==> refs[root] == KeptTags(d, e, root))
  }

  function WithChannel(refs: References, d: Disk, e: Env, ch: Channel): References
    requires ChannelState(ch) in d.files && ChannelReadable(d, e, ch)
  {
    refs[Root(ch, App) := KeptTags(d, e, Root(ch, App))][Root(ch, Driver) := KeptTags(d, e, Root(ch, Driver))]
  }

  lemma WithChannelLoaded(refs: References, done: set<Channel>, d: Disk, e: Env, ch: Channel)
    requires Loaded(refs, done, d, e) && ChannelState(ch) in d.files && ChannelReadable(d, e, ch)
    ensures Loaded(WithChannel(refs, d, e, ch), done + {ch}, d, e)
  {
    forall root: Root | root.ch == ch ensures root == Root(ch, App) || root == Root(ch, Driver) {
      match root.kind
      case App =>
      case Driver =>
    }
  }

  const ALL_CHANNELS: set<Channel> := {Stable, Dev}

  lemma AllLoaded(refs: References, d: Disk, e: Env)
    requires Loaded(refs, ALL_CHANNELS, d, e)
    ensures ReferencesOf(d, e) == Some(refs)
  {
    forall ch ensures ChannelReadable(d, e, ch) {
      match ch
      case Stable =>
      case Dev =>
    }
    assert refs == ReferencesOf(d, e).value;
  }

  method LoadReferences(d: Disk, e: Env) returns (r: Option<References>)
    ensures r == ReferencesOf(d, e)
  {
    var references: References := map[];
    var channels := [Stable, Dev];
    for i := 0 to |channels|
      invariant Loaded(references, Elems(channels[..i]), d, e)
    {
      var ch := channels[i];
      assert Elems(channels[..i + 1]) == Elems(channels[..i]) + {ch};
      if ChannelState(ch) in d.files {
        if !ChannelReadable(d, e, ch) {
          return None;
        }
        WithChannelLoaded(references, Elems(channels[..i]), d, e, ch);
        references := WithChannel(references, d, e, ch);
      }
    }
    assert channels[..|channels|] == channels;
    assert channels[0] == Stable && channels[1] == Dev;
    assert Elems(channels) == ALL_CHANNELS;
    AllLoaded(references, d, e);
    r := Some(references);
  }

  // ----- selecting -----

  predicate Unreferenced(refs: References, v: Version) {
    RootOf(v) in refs && v.tag !in refs[RootOf(v)]
  }

  /** The newest driver release that nothing refers to; it is kept as the previous one. */
  ghost predicate IsPrevious(d: Disk, refs: References, g: Ages, v: Version) {
    && v.kind == Driver && v in d.versions && Unreferenced(refs, v)
    && forall u :: u in d.versions && RootOf(u) == RootOf(v) && Unreferenced(refs, u) ==> g.rank(u) <= g.rank(v)
  }

  ghost predicate Prunable(d: Disk, refs: References, g: Ages, v: Version) {
    v in d.versions && Unreferenced(refs, v) && !IsPrevious(d, refs, g, v) && g.aged(v)
  }

  ghost predicate ListsRoot(candidates: seq<Version>, d: Disk, root: Root) {
    NoDup(candidates) && forall v :: v in candidates <==> v in d.versions && RootOf(v) == root
  }

  /** The previous driver release of one root, if there is any unreferenced one. */
  method FindPrevious(d: Disk, refs: References, g: Ages, root: Root, candidates: seq<Version>) returns (r: Option<Version>)
    requires Ranked(g) && root.kind == Driver && ListsRoot(candidates, d, root)
    ensures forall v :: v in candidates ==> (IsPrevious(d, refs, g, v) <==> r == Some(v))
  {
    r := None;
    for i := 0 to |candidates|
      invariant r.Some? ==> r.value in candidates[..i] && Unreferenced(refs, r.value)
      invariant forall u :: u in candidates[..i] && Unreferenced(refs, u) ==> r.Some? && g.rank(u) <= g.rank(r.value)
    {
      var v := candidates[i];
      assert candidates[..i + 1] == candidates[..i] + [v];
      if Unreferenced(refs, v) && (r == None || g.rank(v) > g.rank(r.value)) {
        r := Some(v);
      }
    }
    assert candidates[..|candidates|] == candidates;
  }

  method SelectFrom(d: Disk, refs: References, g: Ages, root: Root, candidates: seq<Version>) returns (selected: seq<Version>)
    requires Ranked(g) && root in refs && ListsRoot(candidates, d, root)
    ensures NoDup(selected) && forall v :: v in selected <==> v in candidates && Prunable(d, refs, g, v)
  {
    var previous: Option<Version> := None;
    if root.kind == Driver {
      previous := FindPrevious(d, refs, g, root, candidates);
    }
    assert forall v :: v in candidates ==> (IsPrevious(d, refs, g, v) <==> previous == Some(v));
    selected := [];
    for i := 0 to |candidates|
      invariant NoDup(selected)
      invariant forall v :: v in selected <==> v in candidates[..i] && Prunable(d, refs, g, v)
    {
      var v := candidates[i];
      assert candidates[..i + 1] == candidates[..i] + [v];
      assert v in candidates && v !in candidates[..i];
      if v.tag !in refs[root] && previous != Some(v) && g.aged(v) {
        NoDupSnoc(selected, v);
        selected := selected + [v];
      }
    }
    assert candidates[..|candidates|] == candidates;
  }

  /** All prunable directories, or None if the records of a channel cannot be read. */
  method SelectPrunable(d: Disk, e: Env, g: Ages, candidates: Root -> seq<Version>) returns (r: Option<seq<Version>>)
    requires Ranked(g) && forall root :: ListsRoot(candidates(root), d, root)
    ensures Selected(d, e, g, r.GetOr([]))
    ensures r == None <==> ReferencesOf(d, e) == None
  {
    var refs := LoadReferences(d, e);
    if refs == None {
      return None;
    }
    var roots := [Root(Stable, App), Root(Stable, Driver), Root(Dev, App), Root(Dev, Driver)];
    var selected: seq<Version> := [];
    for i := 0 to |roots|
      invariant NoDup(selected)
      invariant forall v :: v in selected <==> RootOf(v) in roots[..i] && Prunable(d, refs.value, g, v)
    {
      assert roots[..i + 1] == roots[..i] + [roots[i]];
      if roots[i] in refs.value {
        var more := SelectFrom(d, refs.value, g, roots[i], candidates(roots[i]));
        NoDupConcat(selected, more);
        selected := selected + more;
      }
    }
    AllRootsListed(roots);
    assert roots[..|roots|] == roots;
    r := Some(selected);
  }

  lemma AllRootsListed(roots: seq<Root>)
    requires roots == [Root(Stable, App), Root(Stable, Driver), Root(Dev, App), Root(Dev, Driver)]
    ensures forall root :: root in roots
  {
    forall root: Root ensures root in roots {
      EveryRoot(root);
      assert roots[0] in roots && roots[1] in roots && roots[2] in roots && roots[3] in roots;
    }
  }

  // ----- removing -----

  /** Removes one directory file by file and then itself, stopping at the first error. */
  function RemoveFiles(w: World, v: Version, names: seq<Parts>): World
    decreases |names|
  {
    if names == [] then w else RemoveFiles(Do(w, RemoveFrom(v, names[0])), v, names[1..])
  }

  function RemoveVersionTree(w: World, v: Version, names: seq<Parts>): World {
    Do(RemoveFiles(w, v, names), RemoveVersion(v))
  }

  /** `list` gives the order in which the files of a directory are found. */
  function RemoveAll(w: World, selected: seq<Version>, list: Version -> seq<Parts>): World
    decreases |selected|
  {
    if selected == [] then w else RemoveAll(RemoveVersionTree(w, selected[0], list(selected[0])), selected[1..], list)
  }

  /** Nothing but the selected directories changes. */
  ghost predicate OnlyVersions(d: Disk, d': Disk, gone: set<Version>) {
    && d'.files == d.files
    && d'.versions.Keys <= d.versions.Keys
    && forall v :: v in d.versions && v !in gone ==> v in d'.versions && d'.versions[v] == d.versions[v]
  }

  lemma {:induction false} RemoveFilesFrame(w: World, v: Version, names: seq<Parts>)
    ensures OnlyVersions(w.disk, RemoveFiles(w, v, names).disk, {v})
    decreases |names|
  {
    if names != [] {
      RemoveFilesFrame(Do(w, RemoveFrom(v, names[0])), v, names[1..]);
    }
  }

  lemma {:induction false} RemoveAllFrame(w: World, selected: seq<Version>, list: Version -> seq<Parts>)
    ensures OnlyVersions(w.disk, RemoveAll(w, selected, list).disk, Elems(selected))
    decreases |selected|
  {
    if selected != [] {
      var v := selected[0];
      RemoveFilesFrame(w, v, list(v));
      var one := RemoveVersionTree(w, v, list(v));
      assert OnlyVersions(w.disk, one.disk, {v});
      RemoveAllFrame(one, selected[1..], list);
      assert forall u :: u !in selected ==> u != v && u !in selected[1..];
    }
  }

  ghost predicate ListsFiles(d: Disk, v: Version, names: seq<Parts>) {
    v in d.versions && NoDup(names) && Elems(names) == d.versions[v].Keys
  }

  lemma FileGone(d: Disk, v: Version, names: seq<Parts>)
    requires names != [] && ListsFiles(d, v, names)
    ensures Enabled(d, RemoveFrom(v, names[0]))
    ensures var d' := Apply(d, RemoveFrom(v, names[0]));
            ListsFiles(d', v, names[1..]) && d'.versions[v := map[]] == d.versions[v := map[]]
  {
    var d' := d.(versions := d.versions[v := d.versions[v] - {names[0]}]);
    assert names == [names[0]] + names[1..];
    NoDupParts([names[0]], names[1..]);
    assert names[0] in Elems(names);
    assert d'.versions[v].Keys == Elems(names[1..]);
  }

  lemma {:induction false} RemoveFilesAll(w: World, v: Version, names: seq<Parts>)
    requires w.status == Going && w.script == [] && ListsFiles(w.disk, v, names)
    ensures var r := RemoveFiles(w, v, names);
            r == World(Disk(w.disk.files, w.disk.versions[v := map[]]), [], Going)
    decreases |names|
  {
    var content := w.disk.versions[v];
    if names == [] {
      assert content == map[];
      assert w.disk.versions[v := map[]] == w.disk.versions;
    } else {
      FileGone(w.disk, v, names);
      RemoveFilesAll(Do(w, RemoveFrom(v, names[0])), v, names[1..]);
    }
  }

  /** A pruning run that is not disturbed removes exactly the selected directories. */
  lemma {:induction false} PruneRemovesExactly(w: World, selected: seq<Version>, list: Version -> seq<Parts>)
    requires w.status == Going && w.script == [] && NoDup(selected)
    requires forall v :: v in selected ==> ListsFiles(w.disk, v, list(v))
    ensures RemoveAll(w, selected, list) == World(Disk(w.disk.files, w.disk.versions - Elems(selected)), [], Going)
    decreases |selected|
  {
    if selected == [] {
      assert w.disk.versions - Elems(selected) == w.disk.versions;
    } else {
      var v, rest := selected[0], selected[1..];
      assert selected == [v] + rest;
      NoDupParts([v], rest);
      RemoveFilesAll(w, v, list(v));
      var one := RemoveVersionTree(w, v, list(v));
      assert one.disk.versions == w.disk.versions - {v};
      PruneRemovesExactly(one, rest, list);
      assert one.disk.versions - Elems(rest) == w.disk.versions - Elems(selected);
    }
  }

  /** What a channel refers to is never selected. */
  lemma ReferencedNotPrunable(d: Disk, e: Env, refs: References, g: Ages, ch: Channel, kind: Kind)
    requires ReferencesOf(d, e) == Some(refs) && ChannelState(ch) in d.files && d.files[ChannelState(ch)].Doc?
    ensures var doc := d.files[ChannelState(ch)].doc;
            var tag := if kind == App then doc.appTag else doc.driverTag;
            tag != "" ==> !Prunable(d, refs, g, Version(ch, kind, tag))
  {
    assert Root(ch, kind) in refs && refs[Root(ch, kind)] == KeptTags(d, e, Root(ch, kind));
  }

  /** `selected` lists the prunable directories of a disk whose records can all be read. */
  ghost predicate Selected(d: Disk, e: Env, g: Ages, selected: seq<Version>) {
    match ReferencesOf(d, e)
    case None => selected == []
    case Some(refs) => NoDup(selected) && forall v :: v in selected <==> Prunable(d, refs, g, v)
  }

  /** The record of a channel, or the driver index beside it, cannot be read. */
  ghost predicate Unreadable(d: Disk, e: Env, ch: Channel) {
    && ChannelState(ch) in d.files
    && (|| !d.files[ChannelState(ch)].Doc?
        || d.files[ChannelState(ch)].doc.channel != ch
        || (Latest(ch, Driver) in d.files && e.indexTag(d.files[Latest(ch, Driver)]) == None))
  }

  /** Neither the channel's record nor, for a driver release, its current index names the tag. */
  ghost predicate Unnamed(d: Disk, e: Env, v: Version) {
    && ChannelState(v.ch) in d.files && d.files[ChannelState(v.ch)].Doc?
    && (v.tag != "" ==>
          match v.kind
          case App => d.files[ChannelState(v.ch)].doc.appTag != v.tag
          case Driver =>
            && d.files[ChannelState(v.ch)].doc.driverTag != v.tag
            && (Latest(v.ch, Driver) in d.files ==> e.indexTag(d.files[Latest(v.ch, Driver)]) != Some(v.tag)))
  }

  lemma UnnamedIff(d: Disk, e: Env, refs: References, v: Version)
    requires ReferencesOf(d, e) == Some(refs)
    ensures Unreferenced(refs, v) <==> Unnamed(d, e, v)
  {
    if ChannelState(v.ch) in d.files {
      assert ChannelReadable(d, e, v.ch);
      assert refs[RootOf(v)] == KeptTags(d, e, RootOf(v));
    }
  }

  /** Which directories a pruning run selects, read off the disk: none if any record cannot be read; else those
      of recorded channels that are old enough and that nothing names, and of the driver releases only such
      as are not the newest of those of their channel. */
  lemma SelectedExactly(d: Disk, e: Env, g: Ages, selected: seq<Version>)
    requires Selected(d, e, g, selected)
    ensures NoDup(selected)
    ensures (exists ch :: Unreadable(d, e, ch)) ==> selected == []
    ensures !(exists ch :: Unreadable(d, e, ch)) ==> forall v :: v in selected <==>
              && v in d.versions && Unnamed(d, e, v) && g.aged(v)
              && (v.kind == Driver ==>
                    exists u :: u in d.versions && u.ch == v.ch && u.kind == Driver && Unnamed(d, e, u) && g.rank(u) > g.rank(v))
  {
    forall ch ensures ChannelReadable(d, e, ch) <==> !Unreadable(d, e, ch) {
    }
    if ReferencesOf(d, e).Some? {
      var refs := ReferencesOf(d, e).value;
      forall v ensures Unreferenced(refs, v) <==> Unnamed(d, e, v) {
        UnnamedIff(d, e, refs, v);
      }
      forall v ensures v in selected <==>
        && v in d.versions && Unnamed(d, e, v) && g.aged(v)
        && (v.kind == Driver ==>
              exists u :: u in d.versions && u.ch == v.ch && u.kind == Driver && Unnamed(d, e, u) && g.rank(u) > g.rank(v))
      {
        assert v in selected <==> Prunable(d, refs, g, v);
      }
    }
  }

  /** However a pruning run ends, the releases a channel state names are untouched. */
  lemma PruneKeepsNamed(w: World, e: Env, g: Ages, selected: seq<Version>, list: Version -> seq<Parts>)
    requires Selected(w.disk, e, g, selected) && StatesLive(w.disk)
    ensures var d := RemoveAll(w, selected, list).disk;
            && StatesLive(d) && d.files == w.disk.files
            && forall ch :: ChannelState(ch) in d.files ==> NamedKept(w.disk, d, ch, d.files[ChannelState(ch)].doc)
  {
    var d, d' := w.disk, RemoveAll(w, selected, list).disk;
    RemoveAllFrame(w, selected, list);
    forall ch | ChannelState(ch) in d.files
      ensures NamedKept(d, d', ch, d.files[ChannelState(ch)].doc) && Names(d', ch, d.files[ChannelState(ch)])
    {
      assert Names(d, ch, d.files[ChannelState(ch)]);
      if ReferencesOf(d, e).Some? {
        ReferencedNotPrunable(d, e, ReferencesOf(d, e).value, g, ch, App);
        ReferencedNotPrunable(d, e, ReferencesOf(d, e).value, g, ch, Driver);
      }
    }
  }

  ghost predicate NamedKept(d: Disk, d': Disk, ch: Channel, doc: Document) {
    && SameVersion(d, d', Version(ch, App, doc.appTag))
    && (doc.driverTag != "" ==> SameVersion(d, d', Version(ch, Driver, doc.driverTag)))
  }

  ghost predicate SameVersion(d: Disk, d': Disk, v: Version) {
    v in d.versions ==> v in d'.versions && d'.versions[v] == d.versions[v]
  }
}
