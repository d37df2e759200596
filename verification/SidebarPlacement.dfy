/** Placing, inserting and replacing tokens in one order list. */
module SidebarPlacement {
  import opened Options
  import opened Seqs
  import opened SidebarTags

  /** First position of `x`, or the length of `s`. */
  function IndexOf(s: seq<Token>, x: Token): (k: nat)
    ensures k <= |s|
    ensures k < |s| ==> s[k] == x
    ensures k == |s| <==> x !in s
  {
    if s == [] then 0 else if s[0] == x then 0 else 1 + IndexOf(s[1..], x)
  }

  function InsertAt(s: seq<Token>, k: nat, x: Token): seq<Token>
    requires k <= |s|
  {
    s[..k] + [x] + s[k..]
  }

  /** `placeSidebarItemToken`. */
  function Place(order: seq<Token>, token: Token, target: Option<Token>, before: bool): seq<Token> {
    if target == Some(token) then order
    else PlaceIn(Drop(order, {token}), token, target, before)
  }

  /** The placing itself, in a list without the token. */
  function PlaceIn(rest: seq<Token>, token: Token, target: Option<Token>, before: bool): seq<Token> {
    if target.None? || target.value !in rest then rest + [token]
    else
      var k := IndexOf(rest, target.value);
      InsertAt(rest, if before then k else k + 1, token)
  }

  /** `insertSidebarRootTokenAfter`. */
  function InsertAfter(order: seq<Token>, token: Token, anchor: Token): seq<Token> {
    PlaceIn(Drop(order, {token}), token, Some(anchor), false)
  }

  /** `insertSidebarRootTokenBeforeUngrouped`. */
  function InsertBeforeUngrouped(order: seq<Token>, token: Token): seq<Token> {
    if token in order then order else InsertAt(order, FirstConn(order), token)
  }

  /** Where the first connection stands, behind groups only; the length if there is none. */
  function FirstConn(order: seq<Token>): (k: nat)
    ensures k <= |order|
    ensures forall i :: 0 <= i < k ==> order[i].TagToken?
    ensures k < |order| ==> order[k].ConnToken?
  {
    if order == [] then 0 else if order[0].ConnToken? then 0 else 1 + FirstConn(order[1..])
  }

  /** `replaceSidebarItemToken`: the first occurrence becomes the replacements, which appear
      nowhere else; without an occurrence they go last. */
  function Replace(order: seq<Token>, token: Token, replacements: seq<Token>): seq<Token> {
    var fill := Dedup(replacements);
    var k := IndexOf(order, token);
    if k == |order| then Drop(order, Elems(fill)) + fill
    else Drop(order[..k], Elems(fill)) + fill + Drop(order[k + 1..], Elems(fill) + {token})
  }

  // ----- what placing does -----

  lemma InsertMembers(s: seq<Token>, k: nat, x: Token)
    requires k <= |s|
    ensures forall y :: y in InsertAt(s, k, x) <==> y in s || y == x
    ensures NoDup(s) && x !in s ==> NoDup(InsertAt(s, k, x))
    ensures x !in s ==> Drop(InsertAt(s, k, x), {x}) == s
  {
    assert s == s[..k] + s[k..];
    if NoDup(s) && x !in s {
      NoDupParts(s[..k], s[k..]);
      NoDupSnoc(s[..k], x);
      NoDupConcat(s[..k] + [x], s[k..]);
    }
    if x !in s {
      DropConcat(s[..k] + [x], s[k..], {x});
      DropSnoc(s[..k], x, {x});
      DropNone(s[..k], {x});
      DropNone(s[k..], {x});
    }
  }

  /** Placing adds the token once and moves nothing else. */
  lemma PlaceInMembers(rest: seq<Token>, token: Token, target: Option<Token>, before: bool)
    requires token !in rest && NoDup(rest)
    ensures var r := PlaceIn(rest, token, target, before);
            && NoDup(r) && Drop(r, {token}) == rest
            && (forall y :: y in r <==> y in rest || y == token)
  {
    if target.None? || target.value !in rest {
      assert rest + [token] == InsertAt(rest, |rest|, token);
      InsertMembers(rest, |rest|, token);
    } else {
      var k := IndexOf(rest, target.value);
      InsertMembers(rest, if before then k else k + 1, token);
    }
  }

  /** The placed token is directly beside its target if the target is in the list, else last. */
  lemma PlaceInBeside(rest: seq<Token>, token: Token, target: Option<Token>, before: bool)
    ensures LandsBeside(PlaceIn(rest, token, target, before), rest, token, target, before)
  {
    if target.Some? && target.value in rest {
      PlacedAt(rest, token, target.value, before);
      InsertedBeside(rest, IndexOf(rest, target.value), token, before);
    }
  }

  lemma PlacedAt(rest: seq<Token>, token: Token, target: Token, before: bool)
    requires target in rest
    ensures var k := IndexOf(rest, target);
            && k < |rest| && rest[k] == target
            && PlaceIn(rest, token, Some(target), before) == InsertAt(rest, if before then k else k + 1, token)
  {
  }

  lemma InsertedBeside(rest: seq<Token>, k: nat, token: Token, before: bool)
    requires k < |rest|
    ensures SplitsAt(InsertAt(rest, if before then k else k + 1, token), rest, rest[..k], rest[k], rest[k + 1..], token, before)
  {
    assert rest == rest[..k] + [rest[k]] + rest[k + 1..];
    if !before {
      assert rest[..k + 1] == rest[..k] + [rest[k]];
    }
  }

  ghost predicate SplitsAt(list: seq<Token>, rest: seq<Token>, a: seq<Token>, target: Token, b: seq<Token>, token: Token, before: bool) {
    && rest == a + [target] + b
    && list == a + (if before then [token, target] else [target, token]) + b
  }

  /** `token` stands directly beside `target` if that is in `rest`, else last; the rest is as it was. */
  ghost predicate LandsBeside(list: seq<Token>, rest: seq<Token>, token: Token, target: Option<Token>, before: bool) {
    if target.Some? && target.value in rest then exists a, b :: SplitsAt(list, rest, a, target.value, b, token, before)
    else list == rest + [token]
  }

  // ----- the connections of a list -----

  lemma {:induction false} ConnIdsConcat(a: seq<Token>, b: seq<Token>)
    ensures ConnIds(a + b) == ConnIds(a) + ConnIds(b)
  {
    if b == [] {
      assert a + b == a;
    } else {
      assert (a + b)[..|a + b| - 1] == a + b[..|b| - 1];
      ConnIdsConcat(a, b[..|b| - 1]);
    }
  }

  lemma {:induction false} ConnIdsDropTags(s: seq<Token>, gone: set<Token>)
    requires forall x :: x in gone ==> x.TagToken?
    ensures ConnIds(Drop(s, gone)) == ConnIds(s)
  {
    if s != [] {
      ConnIdsDropTags(s[..|s| - 1], gone);
      var r := Drop(s[..|s| - 1], gone);
      assert (r + [s[|s| - 1]])[..|r|] == r;
    }
  }

  /** Placing a tag leaves the connections of the list alone. */
  lemma ConnIdsPlaceTag(rest: seq<Token>, x: Id, target: Option<Token>, before: bool)
    requires TagToken(x) !in rest && NoDup(rest)
    ensures ConnIds(PlaceIn(rest, TagToken(x), target, before)) == ConnIds(rest)
  {
    PlaceInMembers(rest, TagToken(x), target, before);
    ConnIdsDropTags(PlaceIn(rest, TagToken(x), target, before), {TagToken(x)});
  }

  // ----- replacing -----

  /** In a list that holds the token once and none of the replacements, replacing is a splice. */
  lemma ReplaceSplices(pre: seq<Token>, token: Token, post: seq<Token>, fill: seq<Token>)
    requires NoDup(pre + [token] + post) && NoDup(fill)
    requires forall x :: x in fill ==> x !in pre + [token] + post
    ensures Replace(pre + [token] + post, token, fill) == pre + fill + post
  {
    var order := pre + [token] + post;
    NoDupParts(pre + [token], post);
    NoDupParts(pre, [token]);
    DedupNoDup(fill);
    assert order[|pre|] == token;
    var k := IndexOf(order, token);
    assert k == |pre|;
    assert order[..k] == pre && order[k + 1..] == post;
    DropNone(pre, Elems(fill));
    DropNone(post, Elems(fill) + {token});
  }
}
