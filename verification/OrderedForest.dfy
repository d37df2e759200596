/** Ordered forests given the way the sidebar stores them: a list of roots and, for some nodes, a
    list of children. The walk is the depth-first, left-to-right traversal of those lists. */
module OrderedForest {
  import opened Options
  import opened Seqs
  import opened ParentChain

  /** The traversal of `xs`, following at most `depth` levels of children. */
  function Walk<T(==, !new)>(kids: map<T, seq<T>>, xs: seq<T>, depth: nat): seq<T>
    decreases depth, |xs|
  {
    if xs == [] then []
    else
      [xs[0]]
      + (if depth > 0 && xs[0] in kids then Walk(kids, kids[xs[0]], depth - 1) else [])
      + Walk(kids, xs[1..], depth)
  }

  /** The traversal of `xs` ends within `depth` levels: the bound cuts nothing off. */
  predicate Fits<T(==, !new)>(kids: map<T, seq<T>>, xs: seq<T>, depth: nat)
    decreases depth, |xs|
  {
    if xs == [] then true
    else
      (xs[0] in kids && kids[xs[0]] != [] ==> depth > 0 && Fits(kids, kids[xs[0]], depth - 1))
      && Fits(kids, xs[1..], depth)
  }

  /** `kids` and `roots` describe one forest: `up` gives each node its one place in the child
      lists, the nodes without one are exactly the roots, and no chain of parents is a cycle. */
  ghost predicate IsForest<T(!new)>(up: map<T, T>, kids: map<T, seq<T>>, roots: seq<T>) {
    Acyclic(up) && OnTop(up, roots) && KidsUnder(up, kids) && UnderKids(up, kids)
  }

  ghost predicate KidsUnder<T(!new)>(up: map<T, T>, kids: map<T, seq<T>>) {
    && (forall x :: x in kids ==> NoDup(kids[x]))
    && (forall x, y :: x in kids && y in kids[x] ==> y in up && up[y] == x)
  }

  ghost predicate UnderKids<T(!new)>(up: map<T, T>, kids: map<T, seq<T>>) {
    forall y :: y in up ==> up[y] in kids && y in kids[up[y]]
  }

  ghost predicate OnTop<T(!new)>(up: map<T, T>, roots: seq<T>) {
    NoDup(roots) && forall r :: r in roots ==> r !in up
  }

  /** Every chain of parents ends at a root. */
  ghost predicate Rooted<T(!new)>(up: map<T, T>, roots: seq<T>) {
    forall y :: y in up ==> up[y] in up || up[y] in roots
  }

  // ----- general facts about walks -----

  lemma {:induction false} WalkConcat<T(!new)>(kids: map<T, seq<T>>, a: seq<T>, b: seq<T>, depth: nat)
    ensures Walk(kids, a + b, depth) == Walk(kids, a, depth) + Walk(kids, b, depth)
  {
    if a == [] {
      assert a + b == b;
    } else {
      assert (a + b)[1..] == a[1..] + b;
      WalkConcat(kids, a[1..], b, depth);
    }
  }

  lemma {:induction false} FitsConcat<T(!new)>(kids: map<T, seq<T>>, a: seq<T>, b: seq<T>, depth: nat)
    ensures Fits(kids, a + b, depth) <==> Fits(kids, a, depth) && Fits(kids, b, depth)
  {
    if a == [] {
      assert a + b == b;
    } else {
      assert (a + b)[1..] == a[1..] + b;
      FitsConcat(kids, a[1..], b, depth);
    }
  }

  /** A bound that cuts nothing off does not matter. */
  lemma {:induction false} WalkStable<T(!new)>(kids: map<T, seq<T>>, xs: seq<T>, d: nat, e: nat)
    requires Fits(kids, xs, d) && d <= e
    ensures Fits(kids, xs, e)
    ensures Walk(kids, xs, d) == Walk(kids, xs, e)
    decreases d, |xs|
  {
    if xs != [] {
      WalkStable(kids, xs[1..], d, e);
      if xs[0] in kids {
        if kids[xs[0]] != [] {
          WalkStable(kids, kids[xs[0]], d - 1, e - 1);
        }
      }
    }
  }

  lemma {:induction false} FitsElements<T(!new)>(kids: map<T, seq<T>>, xs: seq<T>, depth: nat)
    requires forall x :: x in xs && x in kids && kids[x] != [] ==> depth > 0 && Fits(kids, kids[x], depth - 1)
    ensures Fits(kids, xs, depth)
  {
    if xs != [] {
      assert xs[0] in xs;
      FitsElements(kids, xs[1..], depth);
    }
  }

  lemma WalkNode<T(!new)>(kids: map<T, seq<T>>, x: T, depth: nat)
    ensures Walk(kids, [x], depth)
         == [x] + (if depth > 0 && x in kids then Walk(kids, kids[x], depth - 1) else [])
  {
    assert [x][1..] == [];
  }

  // ----- the traversal of a forest -----

  /** `level` counts proper ancestors, and none exceeds `top`. */
  ghost predicate IsLevel<T(!new)>(up: map<T, T>, level: T -> nat, top: nat) {
    && (forall y {:trigger y in up} :: y in up ==> level(y) == 1 + level(up[y]))
    && (forall y {:trigger y in up} :: y in up ==> level(y) <= top)
  }

  lemma LevelIsLevel<T(!new)>(up: map<T, T>)
    requires Acyclic(up)
    ensures IsLevel(up, y => Level(up, y), |up|)
  {
    var level := (y: T) => Level(up, y);
    forall y | y in up ensures level(y) == 1 + level(up[y]) {
      LevelStep(up, y);
    }
    forall y | y in up ensures level(y) <= |up| {
    }
  }

  /** From level `l` on there are at most `top - l` levels left. */
  lemma {:induction false} NodesFit<T(!new)>(up: map<T, T>, kids: map<T, seq<T>>, level: T -> nat, top: nat, xs: seq<T>, l: nat)
    requires IsLevel(up, level, top) && l <= top && KidsUnder(up, kids)
    requires forall x :: x in xs ==> level(x) == l
    ensures Fits(kids, xs, top - l)
    decreases top - l
  {
    forall x | x in xs && x in kids && kids[x] != []
      ensures top - l > 0 && Fits(kids, kids[x], top - l - 1)
    {
      forall y | y in kids[x] ensures level(y) == l + 1 && l + 1 <= top {
        KidIsUnder(up, kids, x, y);
      }
      assert kids[x][0] in kids[x];
      NodesFit(up, kids, level, top, kids[x], l + 1);
    }
    FitsElements(kids, xs, top - l);
  }

  /** The walk from the roots terminates. */
  lemma ForestFits<T(!new)>(up: map<T, T>, kids: map<T, seq<T>>, roots: seq<T>)
    requires IsForest(up, kids, roots)
    ensures Fits(kids, roots, |up|)
  {
    RootsFit(up, kids, roots);
  }

  lemma RootsFit<T(!new)>(up: map<T, T>, kids: map<T, seq<T>>, roots: seq<T>)
    requires Acyclic(up) && KidsUnder(up, kids) && OnTop(up, roots)
    ensures Fits(kids, roots, |up|)
  {
    var level := (y: T) => Level(up, y);
    LevelIsLevel(up);
    forall x | x in roots ensures level(x) == 0 {
      RootLevel(up, x);
    }
    NodesFit(up, kids, level, |up|, roots, 0);
  }

  lemma RootLevel<T(!new)>(up: map<T, T>, x: T)
    requires Acyclic(up) && x !in up
    ensures Level(up, x) == 0
  {
  }

  /** Whatever a walk visits lies below one of its starting points. */
  lemma {:induction false} VisitedIsBelow<T(!new)>(up: map<T, T>, kids: map<T, seq<T>>, xs: seq<T>, depth: nat, y: T)
      returns (x: T)
    requires KidsUnder(up, kids) && y in Walk(kids, xs, depth)
    ensures x in xs && Below(up, y, x)
    decreases depth, |xs|
  {
    if y == xs[0] {
      x := y;
      BelowSelf(up, y);
    } else if depth > 0 && xs[0] in kids && y in Walk(kids, kids[xs[0]], depth - 1) {
      x := xs[0];
      var z := VisitedIsBelow(up, kids, kids[x], depth - 1, y);
      KidIsUnder(up, kids, x, z);
      BelowChild(up, y, z, x);
    } else {
      x := VisitedIsBelow(up, kids, xs[1..], depth, y);
    }
  }

  lemma KidIsUnder<T(!new)>(up: map<T, T>, kids: map<T, seq<T>>, x: T, z: T)
    requires KidsUnder(up, kids) && x in kids && z in kids[x]
    ensures z in up && up[z] == x
  {
  }

  lemma BelowChild<T(!new)>(up: map<T, T>, y: T, z: T, x: T)
    requires Below(up, y, z) && z in up && up[z] == x
    ensures Below(up, y, x)
  {
    BelowSelf(up, x);
    BelowParent(up, z, x);
    BelowTrans(up, y, z, x);
  }

  /** Two nodes of one level above the same node are the same. */
  lemma OneAncestorPerLevel<T(!new)>(up: map<T, T>, y: T, a: T, b: T)
    requires Acyclic(up) && Below(up, y, a) && Below(up, y, b) && Level(up, a) == Level(up, b)
    ensures a == b
  {
    var m: nat :| Ancestor(up, y, m) == Some(a);
    var n: nat :| Ancestor(up, y, n) == Some(b);
    LevelOfAncestor(up, y, m);
    LevelOfAncestor(up, y, n);
  }

  lemma BelowLevel<T(!new)>(up: map<T, T>, y: T, a: T)
    requires Acyclic(up) && Below(up, y, a)
    ensures Level(up, y) >= Level(up, a)
  {
    var m: nat :| Ancestor(up, y, m) == Some(a);
    LevelOfAncestor(up, y, m);
  }

  /** A walk from distinct nodes of one level meets no node twice. */
  lemma {:induction false} WalkNoDup<T(!new)>(up: map<T, T>, kids: map<T, seq<T>>, xs: seq<T>, depth: nat, l: nat)
    requires Acyclic(up) && KidsUnder(up, kids) && NoDup(xs)
    requires forall x :: x in xs ==> Level(up, x) == l
    ensures NoDup(Walk(kids, xs, depth))
    decreases depth, |xs|
  {
    if xs != [] {
      var x, rest := xs[0], xs[1..];
      assert xs == [x] + rest;
      NoDupParts([x], rest);
      WalkNoDup(up, kids, rest, depth, l);
      var under := if depth > 0 && x in kids then Walk(kids, kids[x], depth - 1) else [];
      if depth > 0 && x in kids {
        forall y | y in kids[x] ensures Level(up, y) == l + 1 {
          LevelStep(up, y);
        }
        WalkNoDup(up, kids, kids[x], depth - 1, l + 1);
        forall y | y in under ensures Below(up, y, x) && y != x {
          UnderIsStrictlyBelow(up, kids, x, depth - 1, y);
        }
      }
      NoDupConcat([x], under);
      forall y | y in [x] + under ensures y !in Walk(kids, rest, depth) {
        BelowSelf(up, x);
        assert Below(up, y, x);
        if y in Walk(kids, rest, depth) {
          var z := VisitedIsBelow(up, kids, rest, depth, y);
          OneAncestorPerLevel(up, y, x, z);
        }
      }
      NoDupConcat([x] + under, Walk(kids, rest, depth));
    }
  }

  lemma UnderIsStrictlyBelow<T(!new)>(up: map<T, T>, kids: map<T, seq<T>>, x: T, depth: nat, y: T)
    requires Acyclic(up) && KidsUnder(up, kids) && x in kids && y in Walk(kids, kids[x], depth)
    ensures Below(up, y, x) && y != x
  {
    var z := VisitedIsBelow(up, kids, kids[x], depth, y);
    BelowChild(up, y, z, x);
    LevelStep(up, z);
    BelowLevel(up, y, z);
  }

  /** A walk that visits a node visits its children. */
  lemma {:induction false} WalkVisitsKids<T(!new)>(kids: map<T, seq<T>>, xs: seq<T>, depth: nat, x: T, y: T)
    requires Fits(kids, xs, depth) && x in Walk(kids, xs, depth) && x in kids && y in kids[x]
    ensures y in Walk(kids, xs, depth)
    decreases depth, |xs|
  {
    if x == xs[0] {
      assert y in Walk(kids, kids[x], depth - 1) by { StartsVisited(kids, kids[x], depth - 1, y); }
    } else if depth > 0 && xs[0] in kids && x in Walk(kids, kids[xs[0]], depth - 1) {
      assert kids[xs[0]] != [];
      WalkVisitsKids(kids, kids[xs[0]], depth - 1, x, y);
    } else {
      WalkVisitsKids(kids, xs[1..], depth, x, y);
    }
  }

  lemma {:induction false} StartsVisited<T(!new)>(kids: map<T, seq<T>>, xs: seq<T>, depth: nat, y: T)
    requires y in xs
    ensures y in Walk(kids, xs, depth)
  {
    if y != xs[0] {
      StartsVisited(kids, xs[1..], depth, y);
    }
  }

  /** Every node with a parent, and every root, is visited. */
  lemma {:induction false} NodeIsVisited<T(!new)>(up: map<T, T>, kids: map<T, seq<T>>, roots: seq<T>, y: T)
    requires IsForest(up, kids, roots) && Rooted(up, roots) && (y in up || y in roots)
    ensures y in Walk(kids, roots, |up|)
    decreases Level(up, y)
  {
    ForestFits(up, kids, roots);
    if y in roots {
      StartsVisited(kids, roots, |up|, y);
    } else {
      LevelStep(up, y);
      NodeIsVisited(up, kids, roots, up[y]);
      WalkVisitsKids(kids, roots, |up|, up[y], y);
    }
  }

  lemma {:induction false} VisitedIsNode<T(!new)>(up: map<T, T>, kids: map<T, seq<T>>, xs: seq<T>, depth: nat, y: T)
    requires KidsUnder(up, kids) && y in Walk(kids, xs, depth)
    ensures y in up || y in xs
    decreases depth, |xs|
  {
    if y == xs[0] {
    } else if depth > 0 && xs[0] in kids && y in Walk(kids, kids[xs[0]], depth - 1) {
      VisitedIsNode(up, kids, kids[xs[0]], depth - 1, y);
      if y in kids[xs[0]] {
        KidIsUnder(up, kids, xs[0], y);
      }
    } else {
      VisitedIsNode(up, kids, xs[1..], depth, y);
    }
  }

  /** The walk of a forest ends and visits every node exactly once. */
  lemma ForestWalk<T(!new)>(up: map<T, T>, kids: map<T, seq<T>>, roots: seq<T>)
    requires IsForest(up, kids, roots) && Rooted(up, roots)
    ensures Fits(kids, roots, |up|)
    ensures NoDup(Walk(kids, roots, |up|))
    ensures forall y :: y in Walk(kids, roots, |up|) <==> y in up || y in roots
  {
    ForestFits(up, kids, roots);
    forall x | x in roots ensures Level(up, x) == 0 {
    }
    WalkNoDup(up, kids, roots, |up|, 0);
    forall y ensures y in Walk(kids, roots, |up|) <==> y in up || y in roots {
      if y in up || y in roots {
        NodeIsVisited(up, kids, roots, y);
      } else if y in Walk(kids, roots, |up|) {
        VisitedIsNode(up, kids, roots, |up|, y);
      }
    }
  }

  /** Leaves that stand in the starting list only can be left out before or after walking. */
  lemma {:induction false} WalkWithout<T(!new)>(kids: map<T, seq<T>>, xs: seq<T>, depth: nat, gone: set<T>)
    requires forall x :: x in gone ==> x !in kids
    requires forall x, y :: x in kids && y in kids[x] ==> y !in gone
    ensures Walk(kids, Drop(xs, gone), depth) == Drop(Walk(kids, xs, depth), gone)
    ensures Fits(kids, xs, depth) ==> Fits(kids, Drop(xs, gone), depth)
  {
    if xs != [] {
      var front, last := xs[..|xs| - 1], xs[|xs| - 1];
      assert xs == front + [last];
      WalkWithout(kids, front, depth, gone);
      WalkConcat(kids, front, [last], depth);
      FitsConcat(kids, front, [last], depth);
      DropConcat(Walk(kids, front, depth), Walk(kids, [last], depth), gone);
      WalkNode(kids, last, depth);
      if last in gone {
        assert Walk(kids, [last], depth) == [last];
        DropAll([last], gone);
      } else {
        WalkConcat(kids, Drop(front, gone), [last], depth);
        FitsConcat(kids, Drop(front, gone), [last], depth);
        forall y | y in Walk(kids, [last], depth) ensures y !in gone {
          if y != last {
            VisitedIsListed(kids, kids[last], depth - 1, y);
          }
        }
        DropNone(Walk(kids, [last], depth), gone);
      }
    }
  }

  lemma {:induction false} VisitedIsListed<T(!new)>(kids: map<T, seq<T>>, xs: seq<T>, depth: nat, y: T)
    requires y in Walk(kids, xs, depth)
    ensures y in xs || exists x :: x in kids && y in kids[x]
    decreases depth, |xs|
  {
    if y == xs[0] {
    } else if depth > 0 && xs[0] in kids && y in Walk(kids, kids[xs[0]], depth - 1) {
      VisitedIsListed(kids, kids[xs[0]], depth - 1, y);
    } else {
      VisitedIsListed(kids, xs[1..], depth, y);
    }
  }

  // ----- taking a node out and putting its children in its place -----

  /** `s` with `x` replaced by `fill`. */
  function Splice<T(==)>(s: seq<T>, x: T, fill: seq<T>): seq<T> {
    if s == [] then []
    else (if s[0] == x then fill else [s[0]]) + Splice(s[1..], x, fill)
  }

  /** The child lists after `x` gave way to its children. */
  function SpliceKids<T(==, !new)>(kids: map<T, seq<T>>, x: T, fill: seq<T>): map<T, seq<T>> {
    map y | y in kids && y != x :: Splice(kids[y], x, fill)
  }

  lemma {:induction false} SpliceAbsent<T(!new)>(s: seq<T>, x: T, fill: seq<T>)
    requires x !in s
    ensures Splice(s, x, fill) == s
  {
    if s != [] {
      SpliceAbsent(s[1..], x, fill);
      assert s == [s[0]] + s[1..];
    }
  }

  lemma {:induction false} SpliceConcat<T(!new)>(a: seq<T>, b: seq<T>, x: T, fill: seq<T>)
    ensures Splice(a + b, x, fill) == Splice(a, x, fill) + Splice(b, x, fill)
  {
    if a == [] {
      assert a + b == b;
    } else {
      assert (a + b)[1..] == a[1..] + b;
      SpliceConcat(a[1..], b, x, fill);
    }
  }

  lemma {:induction false} SpliceMembers<T(!new)>(s: seq<T>, x: T, fill: seq<T>, y: T)
    requires x !in fill
    ensures y in Splice(s, x, fill) <==> (y in s && y != x) || (x in s && y in fill)
  {
    if s != [] {
      SpliceMembers(s[1..], x, fill, y);
      assert s == [s[0]] + s[1..];
    }
  }

  lemma SpliceOnce<T(!new)>(pre: seq<T>, x: T, post: seq<T>, fill: seq<T>)
    requires x !in pre && x !in post
    ensures Splice(pre + [x] + post, x, fill) == pre + fill + post
  {
    SpliceConcat(pre + [x], post, x, fill);
    SpliceConcat(pre, [x], x, fill);
    SpliceAbsent(pre, x, fill);
    SpliceAbsent(post, x, fill);
    assert [x][1..] == [];
    assert Splice([x], x, fill) == fill;
  }

  lemma SpliceNoDup<T(!new)>(s: seq<T>, x: T, fill: seq<T>)
    requires NoDup(s) && NoDup(fill)
    requires x in s ==> forall y :: y in fill ==> y !in s
    ensures NoDup(Splice(s, x, fill))
  {
    if x in s {
      var pre, post := NoDupSplit(s, x);
      SpliceOnce(pre, x, post, fill);
      NoDupParts(pre + [x], post);
      NoDupParts(pre, [x]);
      NoDupConcat(pre, fill);
      NoDupConcat(pre + fill, post);
    } else {
      SpliceAbsent(s, x, fill);
    }
  }

  /** Splicing a node's children into its place takes that node, and nothing else, out of the walk. */
  lemma {:induction false} SpliceWalk<T(!new)>(kids: map<T, seq<T>>, xs: seq<T>, depth: nat, x: T, fill: seq<T>)
    requires Fits(kids, xs, depth)
    requires x in kids && kids[x] == fill && x !in fill
    ensures Fits(SpliceKids(kids, x, fill), Splice(xs, x, fill), depth)
    ensures Walk(SpliceKids(kids, x, fill), Splice(xs, x, fill), depth) == Drop(Walk(kids, xs, depth), {x})
    decreases depth, |xs|, 1
  {
    if xs != [] {
      var kids' := SpliceKids(kids, x, fill);
      SpliceWalk(kids, xs[1..], depth, x, fill);
      assert [xs[0]] + xs[1..] == xs;
      WalkConcat(kids, [xs[0]], xs[1..], depth);
      FitsConcat(kids, [xs[0]], xs[1..], depth);
      DropConcat(Walk(kids, [xs[0]], depth), Walk(kids, xs[1..], depth), {x});
      var here := if xs[0] == x then fill else [xs[0]];
      SpliceNode(kids, xs[0], depth, x, fill);
      WalkConcat(kids', here, Splice(xs[1..], x, fill), depth);
      FitsConcat(kids', here, Splice(xs[1..], x, fill), depth);
    }
  }

  /** The same for a single node, which gives way to `fill` when it is `x`. */
  lemma {:induction false} SpliceNode<T(!new)>(kids: map<T, seq<T>>, y: T, depth: nat, x: T, fill: seq<T>)
    requires Fits(kids, [y], depth)
    requires x in kids && kids[x] == fill && x !in fill
    ensures Fits(SpliceKids(kids, x, fill), if y == x then fill else [y], depth)
    ensures Walk(SpliceKids(kids, x, fill), if y == x then fill else [y], depth) == Drop(Walk(kids, [y], depth), {x})
    decreases depth, 0, 0
  {
    var kids' := SpliceKids(kids, x, fill);
    WalkNode(kids, y, depth);
    WalkNode(kids', y, depth);
    var under := if depth > 0 && y in kids then Walk(kids, kids[y], depth - 1) else [];
    DropConcat([y], under, {x});
    assert Drop([y], {x}) == if y == x then [] else [y];
    if y in kids && kids[y] != [] {
      SpliceWalk(kids, kids[y], depth - 1, x, fill);
      if y == x {
        SpliceAbsent(fill, x, fill);
        WalkStable(kids', fill, depth - 1, depth);
      }
    } else if y in kids {
      assert under == [];
    }
  }
}
