/** Duplicate-free sequences: the filters and first-occurrence passes that the modelled code
    writes as `filter`, `Set` and `push` loops. Every function recurses on the last element, so
    that a loop over `s[..i]` can be tied to it one element at a time. */
module Seqs {

  ghost predicate NoDup<T>(s: seq<T>) {
    forall i, j :: 0 <= i < j < |s| ==> s[i] != s[j]
  }

  /** The elements of `s` that are in `keep`, in order. */
  function Keep<T(==, !new)>(s: seq<T>, keep: set<T>): (r: seq<T>)
    ensures forall x :: x in r <==> x in s && x in keep
  {
    if s == [] then []
    else
      var r := Keep(s[..|s| - 1], keep);
      if s[|s| - 1] in keep then r + [s[|s| - 1]] else r
  }

  /** The elements of `s` that are not in `gone`, in order. */
  function Drop<T(==, !new)>(s: seq<T>, gone: set<T>): (r: seq<T>)
    ensures forall x :: x in r <==> x in s && x !in gone
  {
    if s == [] then []
    else
      var r := Drop(s[..|s| - 1], gone);
      if s[|s| - 1] in gone then r else r + [s[|s| - 1]]
  }

  /** `s` without its later repetitions. */
  function Dedup<T(==, !new)>(s: seq<T>): (r: seq<T>)
    ensures forall x :: x in r <==> x in s
    ensures NoDup(r)
  {
    if s == [] then []
    else
      var r := Dedup(s[..|s| - 1]);
      if s[|s| - 1] in r then r else r + [s[|s| - 1]]
  }

  function Elems<T>(s: seq<T>): set<T> {
    set x | x in s
  }

  // ----- Keep, Drop and concatenation -----

  lemma {:induction false} DropConcat<T(!new)>(a: seq<T>, b: seq<T>, gone: set<T>)
    ensures Drop(a + b, gone) == Drop(a, gone) + Drop(b, gone)
  {
    if b == [] {
      assert a + b == a;
    } else {
      assert (a + b)[..|a + b| - 1] == a + b[..|b| - 1];
      DropConcat(a, b[..|b| - 1], gone);
    }
  }

  lemma {:induction false} KeepAll<T(!new)>(s: seq<T>, keep: set<T>)
    requires forall x :: x in s ==> x in keep
    ensures Keep(s, keep) == s
  {
    if s != [] {
      KeepAll(s[..|s| - 1], keep);
      assert s[|s| - 1] in s;
    }
  }

  lemma {:induction false} KeepIsDrop<T(!new)>(s: seq<T>, keep: set<T>, gone: set<T>)
    requires forall x :: x in s ==> (x in keep <==> x !in gone)
    ensures Keep(s, keep) == Drop(s, gone)
  {
    if s != [] {
      KeepIsDrop(s[..|s| - 1], keep, gone);
      assert s[|s| - 1] in s;
    }
  }

  lemma {:induction false} DropNone<T(!new)>(s: seq<T>, gone: set<T>)
    requires forall x :: x in s ==> x !in gone
    ensures Drop(s, gone) == s
  {
    if s != [] {
      DropNone(s[..|s| - 1], gone);
      assert s[|s| - 1] in s;
    }
  }

  lemma {:induction false} DropAll<T(!new)>(s: seq<T>, gone: set<T>)
    requires forall x :: x in s ==> x in gone
    ensures Drop(s, gone) == []
  {
    if s != [] {
      DropAll(s[..|s| - 1], gone);
      assert s[|s| - 1] in s;
    }
  }

  lemma {:induction false} DropSame<T(!new)>(s: seq<T>, a: set<T>, b: set<T>)
    requires forall x :: x in s ==> (x in a <==> x in b)
    ensures Drop(s, a) == Drop(s, b)
  {
    if s != [] {
      DropSame(s[..|s| - 1], a, b);
      assert s[|s| - 1] in s;
    }
  }

  lemma {:induction false} DropDrop<T(!new)>(s: seq<T>, a: set<T>, b: set<T>)
    ensures Drop(Drop(s, a), b) == Drop(s, a + b)
  {
    if s != [] {
      DropDrop(s[..|s| - 1], a, b);
    }
  }

  // ----- duplicate-freedom -----

  lemma NoDupSnoc<T(!new)>(s: seq<T>, x: T)
    requires NoDup(s) && x !in s
    ensures NoDup(s + [x])
  {
    forall i, j | 0 <= i < j < |s + [x]| ensures (s + [x])[i] != (s + [x])[j] {
      assert (s + [x])[i] in s;
    }
  }

  lemma NoDupConcat<T(!new)>(a: seq<T>, b: seq<T>)
    requires NoDup(a) && NoDup(b)
    requires forall x :: x in a ==> x !in b
    ensures NoDup(a + b)
  {
    forall i, j | 0 <= i < j < |a + b| ensures (a + b)[i] != (a + b)[j] {
      if i < |a| && j >= |a| {
        assert (a + b)[i] in a && (a + b)[j] in b;
      }
    }
  }

  lemma NoDupParts<T(!new)>(a: seq<T>, b: seq<T>)
    requires NoDup(a + b)
    ensures NoDup(a) && NoDup(b)
    ensures forall x :: x in a ==> x !in b
  {
    forall i, j | 0 <= i < j < |a| ensures a[i] != a[j] {
      assert (a + b)[i] != (a + b)[j];
    }
    forall i, j | 0 <= i < j < |b| ensures b[i] != b[j] {
      assert (a + b)[|a| + i] != (a + b)[|a| + j];
    }
    forall i, j | 0 <= i < |a| && 0 <= j < |b| ensures a[i] != b[j] {
      assert (a + b)[i] != (a + b)[|a| + j];
    }
  }

  lemma {:induction false} NoDupKeep<T(!new)>(s: seq<T>, keep: set<T>)
    requires NoDup(s)
    ensures NoDup(Keep(s, keep))
  {
    if s != [] {
      assert s == s[..|s| - 1] + [s[|s| - 1]];
      NoDupParts(s[..|s| - 1], [s[|s| - 1]]);
      NoDupKeep(s[..|s| - 1], keep);
      if s[|s| - 1] in keep {
        NoDupSnoc(Keep(s[..|s| - 1], keep), s[|s| - 1]);
      }
    }
  }

  lemma {:induction false} NoDupDrop<T(!new)>(s: seq<T>, gone: set<T>)
    requires NoDup(s)
    ensures NoDup(Drop(s, gone))
  {
    if s != [] {
      assert s == s[..|s| - 1] + [s[|s| - 1]];
      NoDupParts(s[..|s| - 1], [s[|s| - 1]]);
      NoDupDrop(s[..|s| - 1], gone);
      if s[|s| - 1] !in gone {
        NoDupSnoc(Drop(s[..|s| - 1], gone), s[|s| - 1]);
      }
    }
  }

  lemma {:induction false} DedupNoDup<T(!new)>(s: seq<T>)
    requires NoDup(s)
    ensures Dedup(s) == s
  {
    if s != [] {
      assert s == s[..|s| - 1] + [s[|s| - 1]];
      NoDupParts(s[..|s| - 1], [s[|s| - 1]]);
      DedupNoDup(s[..|s| - 1]);
    }
  }

  /** Deduplicating a concatenation keeps the first part and adds what it lacks. */
  lemma {:induction false} DedupConcat<T(!new)>(a: seq<T>, b: seq<T>)
    ensures Dedup(a + b) == Dedup(a) + Drop(Dedup(b), Elems(a))
  {
    if b == [] {
      assert a + b == a;
    } else {
      var front, x := b[..|b| - 1], b[|b| - 1];
      assert (a + b)[..|a + b| - 1] == a + front;
      DedupConcat(a, front);
      DropSnoc(Dedup(front), x, Elems(a));
    }
  }

  lemma DropSnoc<T(!new)>(s: seq<T>, x: T, gone: set<T>)
    ensures Drop(s + [x], gone) == if x in gone then Drop(s, gone) else Drop(s, gone) + [x]
  {
    assert (s + [x])[..|s + [x]| - 1] == s;
  }

  lemma {:induction false} NoDupSplit<T(!new)>(s: seq<T>, x: T) returns (pre: seq<T>, post: seq<T>)
    requires x in s && NoDup(s)
    ensures s == pre + [x] + post && x !in pre && x !in post
  {
    var i :| 0 <= i < |s| && s[i] == x;
    pre, post := s[..i], s[i + 1..];
    assert s == (pre + [x]) + post;
    NoDupParts(pre + [x], post);
    NoDupParts(pre, [x]);
  }

  /** A set with no more elements than a duplicate-free list of its members is that list. */
  lemma NoDupLength<T(!new)>(s: seq<T>)
    requires NoDup(s)
    ensures |Elems(s)| == |s|
  {
    if s == [] {
      assert Elems(s) == {};
    } else {
      assert s == s[..|s| - 1] + [s[|s| - 1]];
      NoDupParts(s[..|s| - 1], [s[|s| - 1]]);
      NoDupLength(s[..|s| - 1]);
      assert Elems(s) == Elems(s[..|s| - 1]) + {s[|s| - 1]};
    }
  }

  lemma SubsetSize<T(!new)>(a: set<T>, b: set<T>)
    requires a <= b
    ensures |a| <= |b|
  {
    assert b == a + (b - a);
  }
}
