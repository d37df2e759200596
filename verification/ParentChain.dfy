/** Chains of parent pointers: iteration, cycles, acyclicity and levels. A parent map holds an
    entry for exactly the items that have a parent. */
module ParentChain {
  import opened Options

  /** The `n`-th ancestor of `x`, if the chain is that long. */
  function Ancestor<T(==)>(up: map<T, T>, x: T, n: nat): Option<T> {
    if n == 0 then Some(x)
    else if x in up then Ancestor(up, up[x], n - 1)
    else None
  }

  /** `x` is `y` or lies below it. */
  ghost predicate Below<T>(up: map<T, T>, x: T, y: T) {
    exists n: nat :: Ancestor(up, x, n) == Some(y)
  }

  ghost predicate OnCycle<T>(up: map<T, T>, x: T) {
    exists n: nat :: n > 0 && Ancestor(up, x, n) == Some(x)
  }

  ghost predicate Acyclic<T(!new)>(up: map<T, T>) {
    forall x :: !OnCycle(up, x)
  }

  lemma {:induction false} AncestorAdd<T(!new)>(up: map<T, T>, x: T, m: nat, n: nat)
    requires Ancestor(up, x, m).Some?
    ensures Ancestor(up, x, m + n) == Ancestor(up, Ancestor(up, x, m).value, n)
  {
    if m > 0 {
      AncestorAdd(up, up[x], m - 1, n);
    }
  }

  /** An ancestor that has a parent makes the chain one longer. */
  lemma AncestorNext<T(!new)>(up: map<T, T>, x: T, n: nat, y: T)
    requires Ancestor(up, x, n) == Some(y)
    ensures Ancestor(up, x, n + 1) == if y in up then Some(up[y]) else None
  {
    AncestorAdd(up, x, n, 1);
    if y in up {
      assert Ancestor(up, y, 1) == Ancestor(up, up[y], 0);
    }
  }

  lemma BelowTrans<T(!new)>(up: map<T, T>, x: T, y: T, z: T)
    requires Below(up, x, y) && Below(up, y, z)
    ensures Below(up, x, z)
  {
    var m: nat :| Ancestor(up, x, m) == Some(y);
    var n: nat :| Ancestor(up, y, n) == Some(z);
    AncestorAdd(up, x, m, n);
  }

  lemma BelowSelf<T(!new)>(up: map<T, T>, x: T)
    ensures Below(up, x, x)
  {
    assert Ancestor(up, x, 0) == Some(x);
  }

  lemma BelowParent<T(!new)>(up: map<T, T>, x: T, y: T)
    requires x in up && Below(up, up[x], y)
    ensures Below(up, x, y)
  {
    var n: nat :| Ancestor(up, up[x], n) == Some(y);
    assert Ancestor(up, x, n + 1) == Some(y);
  }

  /** Everything on a cycle reaches every closed set that it touches: if `up[x]` is in a set
      closed under `up` and `x` is on a cycle, then `x` is in the set. */
  lemma ClosedHoldsCycle<T(!new)>(up: map<T, T>, x: T, s: set<T>)
    requires OnCycle(up, x) && x in up && up[x] in s
    requires forall y :: y in s ==> y in up && up[y] in s
    ensures x in s
  {
    var n: nat :| n > 0 && Ancestor(up, x, n) == Some(x);
    ClosedUnderAncestor(up, up[x], n - 1, s);
  }

  lemma {:induction false} ClosedUnderAncestor<T(!new)>(up: map<T, T>, x: T, n: nat, s: set<T>)
    requires x in s
    requires forall y :: y in s ==> y in up && up[y] in s
    ensures Ancestor(up, x, n).Some? && Ancestor(up, x, n).value in s
  {
    if n > 0 {
      ClosedUnderAncestor(up, up[x], n - 1, s);
    }
  }

  /** The parent of an item on a cycle is on a cycle. */
  lemma CycleParent<T(!new)>(up: map<T, T>, x: T)
    requires OnCycle(up, x)
    ensures x in up && OnCycle(up, up[x])
  {
    var n: nat :| n > 0 && Ancestor(up, x, n) == Some(x);
    assert Ancestor(up, up[x], n - 1) == Some(x);
    AncestorNext(up, up[x], n - 1, x);
    assert Ancestor(up, up[x], n) == Some(up[x]);
  }

  /** From anywhere up a cycle the chain comes back. */
  lemma {:induction false} CycleReturns<T(!new)>(up: map<T, T>, x: T, k: nat)
    requires OnCycle(up, x)
    ensures Ancestor(up, x, k).Some? && Below(up, Ancestor(up, x, k).value, x)
  {
    if k == 0 {
      BelowSelf(up, x);
    } else {
      CycleReturns(up, x, k - 1);
      var y := Ancestor(up, x, k - 1).value;
      var m: nat :| Ancestor(up, y, m) == Some(x);
      if m == 0 {
        var n: nat :| n > 0 && Ancestor(up, x, n) == Some(x);
        assert Ancestor(up, up[x], n - 1) == Some(x);
      } else {
        assert Ancestor(up, up[y], m - 1) == Some(x);
      }
      AncestorNext(up, x, k - 1, y);
    }
  }

  /** A list whose every item has the next as its parent, and the last the first, is a cycle. */
  lemma LoopIsCycle<T(!new)>(up: map<T, T>, loop: seq<T>, k: nat)
    requires k < |loop|
    requires forall i :: 0 <= i < |loop| ==> loop[i] in up
    requires forall i :: 0 <= i < |loop| - 1 ==> up[loop[i]] == loop[i + 1]
    requires up[loop[|loop| - 1]] == loop[0]
    ensures OnCycle(up, loop[k])
  {
    ChainAncestor(up, loop, k, |loop| - 1 - k);
    AncestorNext(up, loop[k], |loop| - 1 - k, loop[|loop| - 1]);
    ChainAncestor(up, loop, 0, k);
    AncestorAdd(up, loop[k], |loop| - k, k);
  }

  lemma {:induction false} ChainAncestor<T(!new)>(up: map<T, T>, chain: seq<T>, k: nat, n: nat)
    requires k + n < |chain|
    requires forall i :: 0 <= i < |chain| - 1 ==> chain[i] in up && up[chain[i]] == chain[i + 1]
    ensures Ancestor(up, chain[k], n) == Some(chain[k + n])
  {
    if n > 0 {
      ChainAncestor(up, chain, k, n - 1);
      AncestorNext(up, chain[k], n - 1, chain[k + n - 1]);
    }
  }

  /** A set closed under parents holds every ancestor of its members. */
  lemma {:induction false} ClosedHoldsAncestors<T(!new)>(up: map<T, T>, s: set<T>, x: T, n: nat)
    requires x in s && forall v :: v in s && v in up ==> up[v] in s
    ensures Ancestor(up, x, n).Some? ==> Ancestor(up, x, n).value in s
  {
    if n > 0 && x in up {
      ClosedHoldsAncestors(up, s, up[x], n - 1);
    }
  }

  // ----- fewer pointers -----

  /** Forgetting pointers shortens chains and changes nothing else. */
  lemma {:induction false} AncestorOfSub<T(!new)>(sub: map<T, T>, up: map<T, T>, x: T, n: nat)
    requires forall y :: y in sub ==> y in up && up[y] == sub[y]
    ensures Ancestor(sub, x, n).Some? ==> Ancestor(up, x, n) == Ancestor(sub, x, n)
  {
    if n > 0 && x in sub {
      AncestorOfSub(sub, up, sub[x], n - 1);
    }
  }

  /** Dropping exactly the pointers of the items on a cycle leaves no cycle. */
  lemma CutIsAcyclic<T(!new)>(up: map<T, T>, cut: map<T, T>)
    requires forall y :: y in cut <==> y in up && !OnCycle(up, y)
    requires forall y :: y in cut ==> cut[y] == up[y]
    ensures Acyclic(cut)
  {
    forall x ensures !OnCycle(cut, x) {
      if OnCycle(cut, x) {
        var n: nat :| n > 0 && Ancestor(cut, x, n) == Some(x);
        AncestorOfSub(cut, up, x, n);
        assert OnCycle(up, x);
      }
    }
  }

  lemma SubAcyclic<T(!new)>(sub: map<T, T>, up: map<T, T>)
    requires Acyclic(up)
    requires forall y :: y in sub ==> y in up && up[y] == sub[y]
    ensures Acyclic(sub)
  {
    forall x ensures !OnCycle(sub, x) {
      if OnCycle(sub, x) {
        var n: nat :| n > 0 && Ancestor(sub, x, n) == Some(x);
        AncestorOfSub(sub, up, x, n);
        assert OnCycle(up, x);
      }
    }
  }

  // ----- levels -----

  /** The number of proper ancestors; the recursion forgets each pointer it follows. */
  function Level<T(==)>(up: map<T, T>, x: T): (n: nat)
    ensures n <= |up|
    decreases |up|
  {
    if x !in up then 0
    else
      var rest := up - {x};
      assert rest.Keys == up.Keys - {x};
      assert |rest.Keys| == |up.Keys| - 1;
      1 + Level(rest, up[x])
  }

  lemma {:induction false} LevelForget<T(!new)>(up: map<T, T>, x: T, gone: T)
    requires !Below(up, x, gone)
    ensures Level(up - {gone}, x) == Level(up, x)
    decreases |up|
  {
    BelowSelf(up, x);
    if x in up {
      var rest := up - {x};
      assert rest.Keys == up.Keys - {x};
      assert |rest.Keys| == |up.Keys| - 1;
      if Below(rest, up[x], gone) {
        var n: nat :| Ancestor(rest, up[x], n) == Some(gone);
        AncestorOfSub(rest, up, up[x], n);
        assert Below(up, up[x], gone);
        BelowParent(up, x, gone);
      }
      LevelForget(rest, up[x], gone);
      assert (up - {gone}) - {x} == rest - {gone};
    }
  }

  lemma BelowParentIsCycle<T(!new)>(up: map<T, T>, x: T)
    requires x in up && Below(up, up[x], x)
    ensures OnCycle(up, x)
  {
    var n: nat :| Ancestor(up, up[x], n) == Some(x);
    assert Ancestor(up, x, n + 1) == Some(x);
  }

  /** In an acyclic map a parent is exactly one level up. */
  lemma LevelStep<T(!new)>(up: map<T, T>, x: T)
    requires Acyclic(up) && x in up
    ensures Level(up, x) == 1 + Level(up, up[x])
  {
    if Below(up, up[x], x) {
      BelowParentIsCycle(up, x);
    }
    LevelForget(up, up[x], x);
  }

  lemma {:induction false} LevelOfAncestor<T(!new)>(up: map<T, T>, x: T, n: nat)
    requires Acyclic(up) && Ancestor(up, x, n).Some?
    ensures Level(up, x) == n + Level(up, Ancestor(up, x, n).value)
  {
    if n > 0 {
      LevelStep(up, x);
      LevelOfAncestor(up, up[x], n - 1);
    }
  }

  /** The end of the chain: the ancestor without a parent. */
  function Top<T(==)>(up: map<T, T>, x: T): Option<T> {
    Ancestor(up, x, Level(up, x))
  }

  lemma {:induction false} TopHasNoParent<T(!new)>(up: map<T, T>, x: T)
    requires Acyclic(up)
    ensures Top(up, x).Some? && Top(up, x).value !in up && Below(up, x, Top(up, x).value)
    decreases Level(up, x)
  {
    BelowSelf(up, x);
    if x in up {
      LevelStep(up, x);
      TopHasNoParent(up, up[x]);
    }
  }

  // ----- one more pointer -----

  /** Hanging an item under something that is not below it makes no cycle. */
  lemma ReparentAcyclic<T(!new)>(up: map<T, T>, x: T, parent: T)
    requires Acyclic(up) && !Below(up, parent, x)
    ensures Acyclic(up[x := parent])
  {
    var up' := up[x := parent];
    forall y ensures !OnCycle(up', y) {
      if OnCycle(up', y) {
        var n: nat :| n > 0 && Ancestor(up', y, n) == Some(y);
        if m: nat :| m <= n && Ancestor(up', y, m) == Some(x) {
          // the cycle passes through x, so the chain from its new parent comes back to x
          AncestorAdd(up', y, m, n - m);
          AncestorAdd(up', y, n, m);
          AncestorAdd(up', x, n - m, m);
          assert Ancestor(up', x, n) == Some(x);
          assert Ancestor(up', parent, n - 1) == Some(x);
          FirstReturn(up, x, parent, parent, n - 1);
        } else {
          assert Avoids(up', y, n, x);
          AncestorAvoiding(up, x, parent, y, n);
          assert OnCycle(up, y);
        }
      }
    }
  }

  lemma {:induction false} FirstReturn<T(!new)>(up: map<T, T>, x: T, parent: T, y: T, n: nat)
    requires Ancestor(up[x := parent], y, n) == Some(x)
    ensures Below(up, y, x)
  {
    if y == x {
      BelowSelf(up, y);
    } else {
      FirstReturn(up, x, parent, up[y], n - 1);
      BelowParent(up, y, x);
    }
  }

  ghost predicate Avoids<T>(up: map<T, T>, y: T, n: nat, x: T) {
    forall m: nat :: m <= n ==> Ancestor(up, y, m) != Some(x)
  }

  lemma {:induction false} AncestorAvoiding<T(!new)>(up: map<T, T>, x: T, parent: T, y: T, n: nat)
    requires Avoids(up[x := parent], y, n, x)
    ensures Ancestor(up, y, n) == Ancestor(up[x := parent], y, n)
  {
    if n > 0 {
      var up' := up[x := parent];
      assert Ancestor(up', y, 0) == Some(y);
      if y in up {
        assert Avoids(up', up[y], n - 1, x) by {
          forall m: nat | m <= n - 1 ensures Ancestor(up', up[y], m) != Some(x) {
            assert Ancestor(up', y, m + 1) != Some(x);
          }
        }
        AncestorAvoiding(up, x, parent, up[y], n - 1);
      }
    }
  }

  // ----- taking one item out of the chains -----

  /** The chains without `gone`: its children take its parent. */
  ghost predicate Bypasses<T(!new)>(up: map<T, T>, gone: T, up': map<T, T>) {
    forall x :: x in up' ==>
      x in up && up'[x] == if up[x] == gone && gone in up then up[gone] else up[x]
  }

  /** One bypassed step is one or two steps. */
  lemma {:induction false} BypassAncestor<T(!new)>(up: map<T, T>, gone: T, up': map<T, T>, x: T, n: nat) returns (m: nat)
    requires Bypasses(up, gone, up') && Ancestor(up', x, n).Some?
    ensures m >= n && Ancestor(up, x, m) == Ancestor(up', x, n)
  {
    if n == 0 {
      m := 0;
    } else {
      var k := BypassAncestor(up, gone, up', up'[x], n - 1);
      if up'[x] == up[x] {
        m := k + 1;
      } else {
        assert Ancestor(up, up[x], k + 1) == Ancestor(up, up[gone], k);
        m := k + 2;
      }
    }
  }

  lemma BypassAcyclic<T(!new)>(up: map<T, T>, gone: T, up': map<T, T>)
    requires Acyclic(up) && Bypasses(up, gone, up')
    ensures Acyclic(up')
  {
    forall x ensures !OnCycle(up', x) {
      if OnCycle(up', x) {
        var n: nat :| n > 0 && Ancestor(up', x, n) == Some(x);
        var m := BypassAncestor(up, gone, up', x, n);
        assert OnCycle(up, x);
      }
    }
  }

  /** A set that holds `top` and every child of its members holds everything below `top`. */
  lemma {:induction false} SubtreeIn<T(!new)>(up: map<T, T>, s: set<T>, x: T, top: T, n: nat)
    requires top in s && Ancestor(up, x, n) == Some(top)
    requires forall y :: y in up && up[y] in s ==> y in s
    ensures x in s
  {
    if n > 0 {
      SubtreeIn(up, s, up[x], top, n - 1);
    }
  }
}
