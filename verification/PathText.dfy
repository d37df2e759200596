/** Lines and slash-separated paths as text. */
module PathText {

  /** The ASCII characters at which `str.splitlines` ends a line. */
  predicate IsBreak(c: char) {
    c in {'\n', '\r', '\U{0b}', '\U{0c}', '\U{1c}', '\U{1d}', '\U{1e}'}
  }

  predicate NoBreaks(s: string) {
    forall i :: 0 <= i < |s| ==> !IsBreak(s[i])
  }

  /** Where the first line ends. */
  function LineLength(s: string): (n: nat)
    ensures n <= |s| && NoBreaks(s[..n]) && (n < |s| ==> IsBreak(s[n]))
  {
    if s == "" || IsBreak(s[0]) then 0
    else
      assert forall i :: 0 < i < |s| ==> s[i] == s[1..][i - 1];
      1 + LineLength(s[1..])
  }

  /** `str.splitlines`: a carriage return and the newline after it end one line together. */
  function SplitLines(s: string): (r: seq<string>)
    ensures forall line :: line in r ==> NoBreaks(line)
  {
    if s == "" then []
    else
      var n := LineLength(s);
      if n == |s| then [s]
      else
        var skip := if s[n] == '\r' && n + 1 < |s| && s[n + 1] == '\n' then 2 else 1;
        [s[..n]] + SplitLines(s[n + skip..])
  }

  lemma LineLengthIs(s: string, n: nat)
    requires n < |s| && NoBreaks(s[..n]) && IsBreak(s[n])
    ensures LineLength(s) == n
  {
    var m := LineLength(s);
    assert forall i :: 0 <= i < m ==> s[..m][i] == s[i];
    assert forall i :: 0 <= i < n ==> s[..n][i] == s[i];
  }

  lemma SplitLinesCons(line: string, rest: string)
    requires NoBreaks(line)
    ensures SplitLines(line + "\n" + rest) == [line] + SplitLines(rest)
  {
    var s := line + "\n" + rest;
    assert s[..|line|] == line && s[|line|] == '\n';
    LineLengthIs(s, |line|);
    assert s[|line| + 1..] == rest;
  }

  /** How text falls into lines: any break ends a line, a carriage return and the newline after it end one
      line together, and an end without a break ends a line if there is anything in it. */
  lemma SplitLinesAt(line: string, b: char, rest: string)
    requires NoBreaks(line)
    ensures SplitLines(line) == if line == "" then [] else [line]
    ensures SplitLines(line + "\r\n" + rest) == [line] + SplitLines(rest)
    ensures b in {'\n', '\r', '\U{0b}', '\U{0c}', '\U{1c}', '\U{1d}', '\U{1e}'} && !(b == '\r' && rest != "" && rest[0] == '\n') ==>
              SplitLines(line + [b] + rest) == [line] + SplitLines(rest)
  {
    if line != "" {
      var n := LineLength(line);
      assert n == |line|;
    }
    var s := line + "\r\n" + rest;
    assert s[..|line|] == line && s[|line|] == '\r' && s[|line| + 1] == '\n';
    LineLengthIs(s, |line|);
    assert s[|line| + 2..] == rest;
    if b in {'\n', '\r', '\U{0b}', '\U{0c}', '\U{1c}', '\U{1d}', '\U{1e}'} {
      var t := line + [b] + rest;
      assert t[..|line|] == line && t[|line|] == b;
      LineLengthIs(t, |line|);
      assert t[|line| + 1..] == rest;
    }
  }

  // ----- components of a path -----

  function SplitSlash(s: string): (r: seq<string>)
    ensures r != []
    ensures forall part :: part in r ==> '/' !in part && forall c :: c in part ==> c in s
  {
    if s == "" then [""]
    else
      var r := SplitSlash(s[1..]);
      assert forall c :: c in s[1..] ==> c in s;
      assert forall part :: part in r[1..] ==> part in r;
      assert r[0] in r && s[0] in s;
      if s[0] == '/' then [""] + r else [[s[0]] + r[0]] + r[1..]
  }

  function JoinSlash(parts: seq<string>): string {
    if |parts| == 0 then ""
    else if |parts| == 1 then parts[0]
    else parts[0] + "/" + JoinSlash(parts[1..])
  }

  /** Components without the empty ones and the single dots, as `PurePosixPath` keeps them. */
  function RealParts(parts: seq<string>): (r: seq<string>)
    ensures forall x :: x in r <==> x in parts && x != "" && x != "."
  {
    if parts == [] then []
    else (if parts[0] == "" || parts[0] == "." then [] else [parts[0]]) + RealParts(parts[1..])
  }

  function PosixParts(s: string): (r: seq<string>)
    ensures forall part :: part in r ==> part != "" && part != "." && '/' !in part
    ensures NoBreaks(s) ==> forall part :: part in r ==> NoBreaks(part)
  {
    var r := RealParts(SplitSlash(s));
    assert forall part, i :: part in r && 0 <= i < |part| ==> part[i] in part && part[i] in s;
    assert NoBreaks(s) ==> forall c :: c in s ==> !IsBreak(c);
    r
  }

  /** A component that a file or directory can have as its name. */
  predicate IsName(part: string) {
    part != "" && part != "." && part != ".." && '/' !in part
  }

  predicate IsCleanPath(parts: seq<string>) {
    parts != [] && forall i :: 0 <= i < |parts| ==> IsName(parts[i])
  }

  lemma {:induction false} SplitSlashHead(head: string, rest: string)
    requires '/' !in head
    ensures SplitSlash(head + "/" + rest) == [head] + SplitSlash(rest)
    ensures SplitSlash(head) == [head]
  {
    if head == "" {
      assert head + "/" + rest == "/" + rest;
      assert ("/" + rest)[1..] == rest;
    } else {
      var s := head + "/" + rest;
      assert s[1..] == head[1..] + "/" + rest;
      SplitSlashHead(head[1..], rest);
      assert [head[0]] + head[1..] == head;
    }
  }

  lemma {:induction false} SplitJoin(parts: seq<string>)
    requires parts != [] && forall i :: 0 <= i < |parts| ==> '/' !in parts[i]
    ensures SplitSlash(JoinSlash(parts)) == parts
  {
    if |parts| == 1 {
      SplitSlashHead(parts[0], "");
    } else {
      SplitJoin(parts[1..]);
      SplitSlashHead(parts[0], JoinSlash(parts[1..]));
      assert [parts[0]] + parts[1..] == parts;
    }
  }

  lemma {:induction false} RealPartsAll(parts: seq<string>)
    requires forall i :: 0 <= i < |parts| ==> parts[i] != "" && parts[i] != "."
    ensures RealParts(parts) == parts
  {
    if parts != [] {
      RealPartsAll(parts[1..]);
      assert [parts[0]] + parts[1..] == parts;
    }
  }

  lemma {:induction false} SplitSlashConcat(a: string, b: string)
    ensures SplitSlash(a + "/" + b) == SplitSlash(a) + SplitSlash(b)
    decreases |a|
  {
    if a == "" {
      assert "" + "/" + b == "/" + b && ("/" + b)[1..] == b;
    } else {
      var s := a + "/" + b;
      assert s[1..] == a[1..] + "/" + b;
      SplitSlashConcat(a[1..], b);
    }
  }

  lemma {:induction false} RealPartsConcat(a: seq<string>, b: seq<string>)
    ensures RealParts(a + b) == RealParts(a) + RealParts(b)
    decreases |a|
  {
    if a == [] {
      assert a + b == b;
    } else {
      assert (a + b)[1..] == a[1..] + b;
      RealPartsConcat(a[1..], b);
    }
  }

  /** How text falls into components: at every slash, empty parts and single dots left out. */
  lemma PosixPartsAt(a: string, b: string, part: string)
    ensures PosixParts(a + "/" + b) == PosixParts(a) + PosixParts(b)
    ensures '/' !in part ==> PosixParts(part) == if part == "" || part == "." then [] else [part]
  {
    SplitSlashConcat(a, b);
    RealPartsConcat(SplitSlash(a), SplitSlash(b));
    if '/' !in part {
      SplitSlashHead(part, "");
      assert [part][1..] == [] && RealParts([]) == [];
      assert [part] + [] == [part];
    }
  }

  /** Printing a path and reading it back. */
  lemma PathRoundTrip(parts: seq<string>)
    requires IsCleanPath(parts)
    ensures PosixParts(JoinSlash(parts)) == parts
    ensures JoinSlash(parts) != "" && JoinSlash(parts)[0] != '/'
  {
    SplitJoin(parts);
    RealPartsAll(parts);
    assert IsName(parts[0]);
    assert parts[0][0] in parts[0];
  }

  lemma {:induction false} JoinNoBreaks(parts: seq<string>)
    ensures NoBreaks(JoinSlash(parts)) <==> forall i :: 0 <= i < |parts| ==> NoBreaks(parts[i])
  {
    if |parts| > 1 {
      var tail := JoinSlash(parts[1..]);
      var s := JoinSlash(parts);
      JoinNoBreaks(parts[1..]);
      assert s == parts[0] + ("/" + tail);
      NoBreaksConcat(parts[0], "/" + tail);
      NoBreaksConcat("/", tail);
      assert forall i :: 0 < i < |parts| ==> parts[i] == parts[1..][i - 1];
    }
  }

  lemma NoBreaksConcat(a: string, b: string)
    ensures NoBreaks(a + b) <==> NoBreaks(a) && NoBreaks(b)
  {
    assert forall i :: 0 <= i < |a| ==> (a + b)[i] == a[i];
    assert forall i :: 0 <= i < |b| ==> (a + b)[|a| + i] == b[i];
  }
}
