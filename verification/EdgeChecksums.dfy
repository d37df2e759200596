/** The checksum list of a staged payload: what the payload builder writes, what an edge reads back
    and which payloads it accepts. Hashes and sizes are given as functions on contents. */
module EdgeChecksums {
  import opened Options
  import opened Seqs
  import opened PathText
  import opened EdgeDisk
  import opened EdgeMutable

  type Payload = map<Parts, Content>

  datatype Entry = Entry(digest: string, path: Parts)

  predicate IsDigest(s: string) {
    |s| == 64 && forall i :: 0 <= i < |s| ==> '0' <= s[i] <= '9' || 'a' <= s[i] <= 'f'
  }

  predicate IsAscii(s: string) {
    forall i :: 0 <= i < |s| ==> s[i] < '\U{80}'
  }

  function Paths(es: seq<Entry>): (r: set<Parts>)
    ensures forall p :: p in r <==> exists i :: 0 <= i < |es| && es[i].path == p
  {
    set i | 0 <= i < |es| :: es[i].path
  }

  function TotalSize(size: Content -> nat, payload: Payload, es: seq<Entry>): nat
    requires forall i :: 0 <= i < |es| ==> es[i].path in payload
  {
    if es == [] then 0
    else TotalSize(size, payload, es[..|es| - 1]) + size(payload[es[|es| - 1].path])
  }

  // ----- writing -----

  function PrintEntry(e: Entry): string {
    e.digest + "  " + JoinSlash(e.path) + "\n"
  }

  function PrintEntries(es: seq<Entry>): string {
    if es == [] then "" else PrintEntries(es[..|es| - 1]) + PrintEntry(es[|es| - 1])
  }

  function EntryOf(sha: Content -> string, payload: Payload, p: Parts): Entry
    requires p in payload
  {
    Entry(sha(payload[p]), p)
  }

  function EntriesOf(sha: Content -> string, payload: Payload, files: seq<Parts>): seq<Entry>
    requires forall i :: 0 <= i < |files| ==> files[i] in payload
  {
    seq(|files|, i requires 0 <= i < |files| => EntryOf(sha, payload, files[i]))
  }

  /** `files` lists the payload, each file once; the builder sorts them. */
  ghost predicate Lists(files: seq<Parts>, payload: Payload) {
    NoDup(files) && forall p :: p in files <==> p in payload
  }

  datatype Written = Written(text: string, fileCount: nat, payloadBytes: nat)

  /** None: a path does not fit the encoding of the list. */
  method WriteChecksums(sha: Content -> string, size: Content -> nat, payload: Payload, files: seq<Parts>)
      returns (r: Option<Written>)
    requires Lists(files, payload)
    ensures var es := EntriesOf(sha, payload, files);
            r == if IsAscii(PrintEntries(es)) then Some(Written(PrintEntries(es), |files|, TotalSize(size, payload, es)))
                 else None
  {
    ghost var es := EntriesOf(sha, payload, files);
    var lines, total := "", 0;
    for i := 0 to |files|
      invariant lines == PrintEntries(es[..i])
      invariant total == TotalSize(size, payload, es[..i])
    {
      assert es[..i + 1][..i] == es[..i];
      assert files[i] in files;
      lines := lines + PrintEntry(EntryOf(sha, payload, files[i]));
      total := total + size(payload[files[i]]);
    }
    assert es[..|files|] == es;
    r := if IsAscii(lines) then Some(Written(lines, |files|, total)) else None;
  }

  // ----- reading -----

  /** Where the first pair of spaces starts; the length of the line if there is none. */
  function FirstGap(line: string): (n: nat)
    ensures n <= |line|
  {
    if |line| < 2 then |line|
    else if line[0] == ' ' && line[1] == ' ' then 0
    else 1 + FirstGap(line[1..])
  }

  function ParseLine(line: string): (r: Option<Entry>)
    ensures r.Some? ==> IsDigest(r.value.digest)
    ensures r.Some? && NoBreaks(line) ==> forall part :: part in r.value.path ==> NoBreaks(part)
  {
    var n := FirstGap(line);
    if n + 2 > |line| then None
    else
      var digest, raw := line[..n], line[n + 2..];
      if !IsDigest(digest) || (raw != "" && raw[0] == '/') || ".." in PosixParts(raw) then None
      else Some(Entry(digest, PosixParts(raw)))
  }

  function ParseLines(lines: seq<string>): (r: Option<seq<Entry>>)
    ensures r.Some? ==> |r.value| == |lines|
    ensures r.Some? ==> forall i, j :: 0 <= i < j < |lines| ==> r.value[i].path != r.value[j].path
    ensures r.Some? ==> forall i :: 0 <= i < |lines| ==> ParseLine(lines[i]) == Some(r.value[i])
  {
    if lines == [] then Some([])
    else
      var front, last := ParseLines(lines[..|lines| - 1]), ParseLine(lines[|lines| - 1]);
      if front == None || last == None || last.value.path in Paths(front.value) then None
      else Some(front.value + [last.value])
  }

  /** The listed entries, if the list can be read and names exactly the files that are there. */
  function Entries(payload: Payload, text: string): (r: Option<seq<Entry>>)
    ensures r.Some? ==> forall i :: 0 <= i < |r.value| ==> r.value[i].path in payload
  {
    if !IsAscii(text) then None
    else
      var es := ParseLines(SplitLines(text));
      if es == None || es.value == [] || Paths(es.value) != payload.Keys then None else es
  }

  /** One more line, read or not. */
  lemma ParseLinesSnoc(lines: seq<string>, i: nat, es: seq<Entry>)
    requires i < |lines| && ParseLines(lines[..i]) == Some(es)
    ensures var e := ParseLine(lines[i]);
            ParseLines(lines[..i + 1]) == if e == None || e.value.path in Paths(es) then None else Some(es + [e.value])
  {
    assert lines[..i + 1][..i] == lines[..i];
  }

  method ChecksumEntries(payload: Payload, text: string) returns (r: Option<seq<Entry>>)
    ensures r == Entries(payload, text)
  {
    if !IsAscii(text) {
      return None;
    }
    var lines := SplitLines(text);
    var entries, seen := [], {};
    for i := 0 to |lines|
      invariant ParseLines(lines[..i]) == Some(entries)
      invariant seen == Paths(entries)
    {
      ParseLinesSnoc(lines, i, entries);
      var e := ParseLine(lines[i]);
      if e == None || e.value.path in seen {
        ParseLinesPrefix(lines, i + 1);
        return None;
      }
      PathsSnoc(entries, e.value);
      seen := seen + {e.value.path};
      entries := entries + [e.value];
    }
    assert lines[..|lines|] == lines;
    r := if entries == [] || seen != payload.Keys then None else Some(entries);
  }

  lemma PathsSnoc(es: seq<Entry>, e: Entry)
    ensures Paths(es + [e]) == Paths(es) + {e.path}
  {
    forall p ensures p in Paths(es + [e]) <==> p in Paths(es) + {e.path} {
      if p in Paths(es) {
        var i :| 0 <= i < |es| && es[i].path == p;
        assert (es + [e])[i].path == p;
      }
      assert (es + [e])[|es|] == e;
    }
  }

  lemma {:induction false} ParseLinesPrefix(lines: seq<string>, n: nat)
    requires n <= |lines| && ParseLines(lines[..n]) == None
    ensures ParseLines(lines) == None
    decreases |lines|
  {
    if n < |lines| {
      assert lines[..|lines| - 1][..n] == lines[..n];
      ParseLinesPrefix(lines[..|lines| - 1], n);
    } else {
      assert lines[..n] == lines;
    }
  }

  // ----- accepting -----

  predicate MatchesArgs(meta: Document, a: Args) {
    && meta.channel == a.ch
    && meta.appTag == a.appTag
    && meta.driverEnabled == (a.driverTag != "")
    && meta.driverTag == a.driverTag
    && meta.generation == a.gen
  }

  predicate ProbeValid(meta: Document) {
    meta.probePath != [] && ".." !in meta.probePath && meta.probeSize > 0 && IsDigest(meta.probeSha)
  }

  predicate Intact(sha: Content -> string, payload: Payload, es: seq<Entry>)
    requires forall i :: 0 <= i < |es| ==> es[i].path in payload
  {
    forall i :: 0 <= i < |es| ==> sha(payload[es[i].path]) == es[i].digest
  }

  /** What `verify` accepts. */
  predicate Accepts(sha: Content -> string, size: Content -> nat, a: Args, meta: Document, payload: Payload, text: string) {
    MatchesArgs(meta, a) && ProbeValid(meta) && ListAccepted(sha, size, meta, payload, text)
  }

  predicate ListAccepted(sha: Content -> string, size: Content -> nat, meta: Document, payload: Payload, text: string) {
    var es := Entries(payload, text);
    && es.Some?
    && meta.fileCount == |es.value|
    && Intact(sha, payload, es.value)
    && meta.payloadBytes == TotalSize(size, payload, es.value)
  }

  method SizeIfIntact(sha: Content -> string, size: Content -> nat, payload: Payload, es: seq<Entry>) returns (r: Option<nat>)
    requires forall i :: 0 <= i < |es| ==> es[i].path in payload
    ensures r == if Intact(sha, payload, es) then Some(TotalSize(size, payload, es)) else None
  {
    var payloadBytes := 0;
    for i := 0 to |es|
      invariant payloadBytes == TotalSize(size, payload, es[..i])
      invariant forall k :: 0 <= k < i ==> sha(payload[es[k].path]) == es[k].digest
    {
      assert es[..i + 1][..i] == es[..i];
      payloadBytes := payloadBytes + size(payload[es[i].path]);
      if sha(payload[es[i].path]) != es[i].digest {
        return None;
      }
    }
    assert es[..|es|] == es;
    r := Some(payloadBytes);
  }

  method Verify(sha: Content -> string, size: Content -> nat, a: Args, meta: Document, payload: Payload, text: string)
      returns (ok: bool)
    ensures ok == Accepts(sha, size, a, meta, payload, text)
  {
    if !MatchesArgs(meta, a) || !ProbeValid(meta) {
      return false;
    }
    var entries := ChecksumEntries(payload, text);
    if entries == None || meta.fileCount != |entries.value| {
      return false;
    }
    var payloadBytes := SizeIfIntact(sha, size, payload, entries.value);
    ok := payloadBytes == Some(meta.payloadBytes);
  }

  // ----- reading back what was written -----

  predicate Printable(e: Entry) {
    IsDigest(e.digest) && IsCleanPath(e.path) && NoBreaks(JoinSlash(e.path))
  }

  lemma {:induction false} FirstGapIs(digest: string, rest: string)
    requires forall i :: 0 <= i < |digest| ==> digest[i] != ' '
    ensures FirstGap(digest + "  " + rest) == |digest|
  {
    var s := digest + "  " + rest;
    if digest != "" {
      assert s[1..] == digest[1..] + "  " + rest;
      FirstGapIs(digest[1..], rest);
    }
  }

  lemma LineRoundTrip(e: Entry)
    requires IsDigest(e.digest) && IsCleanPath(e.path)
    ensures ParseLine(e.digest + "  " + JoinSlash(e.path)) == Some(e)
  {
    var raw := JoinSlash(e.path);
    var line := e.digest + "  " + raw;
    FirstGapIs(e.digest, raw);
    assert line[..|e.digest|] == e.digest && line[|e.digest| + 2..] == raw;
    PathRoundTrip(e.path);
  }

  lemma LineNoBreaks(e: Entry)
    requires IsDigest(e.digest)
    ensures NoBreaks(e.digest + "  " + JoinSlash(e.path)) <==> NoBreaks(JoinSlash(e.path))
  {
    NoBreaksConcat(e.digest + "  ", JoinSlash(e.path));
    NoBreaksConcat(e.digest, "  ");
  }

  function LineOf(e: Entry): string {
    e.digest + "  " + JoinSlash(e.path)
  }

  lemma {:induction false} PrintEntriesCons(e: Entry, rest: seq<Entry>)
    ensures PrintEntries([e] + rest) == LineOf(e) + "\n" + PrintEntries(rest)
    decreases |rest|
  {
    if rest == [] {
      assert [e] + rest == [e] && [e][..0] == [];
    } else {
      var front, last := rest[..|rest| - 1], rest[|rest| - 1];
      assert ([e] + rest)[..|rest|] == [e] + front;
      PrintEntriesCons(e, front);
    }
  }

  lemma {:induction false} SplitPrinted(es: seq<Entry>)
    requires forall i :: 0 <= i < |es| ==> Printable(es[i])
    ensures SplitLines(PrintEntries(es)) == seq(|es|, i requires 0 <= i < |es| => LineOf(es[i]))
    decreases |es|
  {
    if es != [] {
      assert es == [es[0]] + es[1..];
      PrintEntriesCons(es[0], es[1..]);
      LineNoBreaks(es[0]);
      SplitLinesCons(LineOf(es[0]), PrintEntries(es[1..]));
      SplitPrinted(es[1..]);
    }
  }

  ghost predicate DistinctPaths(es: seq<Entry>) {
    forall i, j :: 0 <= i < j < |es| ==> es[i].path != es[j].path
  }

  lemma FreshPath(es: seq<Entry>, n: nat)
    requires n < |es| && DistinctPaths(es)
    ensures es[n].path !in Paths(es[..n])
  {
  }

  /** Each line is read as the entry at its place. */
  ghost predicate ReadsEach(lines: seq<string>, es: seq<Entry>) {
    |lines| == |es| && forall i :: 0 <= i < |es| ==> ParseLine(lines[i]) == Some(es[i])
  }

  /** The entry at `i` can be read, and its path has not come before. */
  ghost predicate NextReads(lines: seq<string>, es: seq<Entry>, i: nat) {
    i < |lines| && i < |es| && ParseLine(lines[i]) == Some(es[i]) && es[i].path !in Paths(es[..i])
  }

  lemma TakeSnoc(es: seq<Entry>, n: nat)
    requires n < |es|
    ensures es[..n] + [es[n]] == es[..n + 1]
  {
  }

  lemma {:induction false} ParsesFirst(lines: seq<string>, es: seq<Entry>, n: nat)
    requires n <= |lines| && n <= |es| && forall i: nat :: i < n ==> NextReads(lines, es, i)
    ensures ParseLines(lines[..n]) == Some(es[..n])
  {
    if n == 0 {
      NoLines(lines, es);
    } else {
      ParsesFirst(lines, es, n - 1);
      assert NextReads(lines, es, n - 1);
      ParseLinesNext(lines, n - 1, es);
    }
  }

  lemma NoLines(lines: seq<string>, es: seq<Entry>)
    ensures ParseLines(lines[..0]) == Some(es[..0])
  {
    assert lines[..0] == [] && es[..0] == [];
  }

  lemma ParseLinesNext(lines: seq<string>, i: nat, es: seq<Entry>)
    requires NextReads(lines, es, i) && ParseLines(lines[..i]) == Some(es[..i])
    ensures ParseLines(lines[..i + 1]) == Some(es[..i + 1])
  {
    ParseLinesSnoc(lines, i, es[..i]);
    TakeSnoc(es, i);
  }

  /** Lines that are read one by one are read together, if no path comes twice. */
  lemma ParsesAll(lines: seq<string>, es: seq<Entry>)
    requires ReadsEach(lines, es) && DistinctPaths(es)
    ensures ParseLines(lines) == Some(es)
  {
    forall i: nat | i < |es| ensures NextReads(lines, es, i) {
      FreshPath(es, i);
    }
    ParsesFirst(lines, es, |es|);
    assert lines[..|es|] == lines && es[..|es|] == es;
  }

  lemma ParsePrinted(es: seq<Entry>, lines: seq<string>)
    requires DistinctPaths(es) && |lines| == |es|
    requires forall i :: 0 <= i < |es| ==> Printable(es[i]) && lines[i] == LineOf(es[i])
    ensures ParseLines(lines) == Some(es)
  {
    forall i | 0 <= i < |es| ensures ParseLine(lines[i]) == Some(es[i]) {
      LineRoundTrip(es[i]);
    }
    ParsesAll(lines, es);
  }

  /** The parser recovers exactly the entries that were printed. */
  lemma PrintParse(es: seq<Entry>)
    requires DistinctPaths(es) && forall i :: 0 <= i < |es| ==> Printable(es[i])
    ensures ParseLines(SplitLines(PrintEntries(es))) == Some(es)
  {
    SplitPrinted(es);
    ParsePrinted(es, SplitLines(PrintEntries(es)));
  }

  // ----- what any list says -----

  lemma {:induction false} FirstGapFinds(line: string)
    ensures FirstGap(line) + 2 <= |line| ==> line[FirstGap(line)] == ' ' && line[FirstGap(line) + 1] == ' '
    decreases |line|
  {
    if |line| >= 2 && !(line[0] == ' ' && line[1] == ' ') {
      FirstGapFinds(line[1..]);
    }
  }

  /** A line says entry `e`: its digest, two spaces, and a relative path without parent steps. */
  ghost predicate Says(line: string, e: Entry) {
    && |e.digest| == 64 && (forall i :: 0 <= i < 64 ==> e.digest[i] in "0123456789abcdef")
    && exists raw :: SaysPath(line, e, raw)
  }

  ghost predicate SaysPath(line: string, e: Entry, raw: string) {
    line == e.digest + "  " + raw && (raw != "" ==> raw[0] != '/') && e.path == PosixParts(raw) && ".." !in e.path
  }

  lemma HexDigit(c: char)
    ensures c in "0123456789abcdef" <==> '0' <= c <= '9' || 'a' <= c <= 'f'
  {
    var digits := "0123456789abcdef";
    assert digits[0] == '0' && digits[1] == '1' && digits[2] == '2' && digits[3] == '3' && digits[4] == '4' && digits[5] == '5';
    assert digits[6] == '6' && digits[7] == '7' && digits[8] == '8' && digits[9] == '9' && digits[10] == 'a' && digits[11] == 'b';
    assert digits[12] == 'c' && digits[13] == 'd' && digits[14] == 'e' && digits[15] == 'f';
  }

  lemma LineSaysIff(line: string, e: Entry)
    ensures ParseLine(line) == Some(e) <==> Says(line, e)
  {
    forall c: char ensures c in "0123456789abcdef" <==> '0' <= c <= '9' || 'a' <= c <= 'f' {
      HexDigit(c);
    }
    FirstGapFinds(line);
    if ParseLine(line) == Some(e) {
      var n := FirstGap(line);
      assert line == line[..n] + "  " + line[n + 2..];
      assert SaysPath(line, e, line[n + 2..]);
    }
    if Says(line, e) {
      var raw :| SaysPath(line, e, raw);
      FirstGapIs(e.digest, raw);
      assert line[..|e.digest|] == e.digest && line[|e.digest| + 2..] == raw;
    }
  }

  /** The text is a list of these entries, line by line, no path twice. */
  ghost predicate SaysAll(text: string, es: seq<Entry>) {
    && |SplitLines(text)| == |es| && DistinctPaths(es)
    && forall i :: 0 <= i < |es| ==> Says(SplitLines(text)[i], es[i])
  }

  lemma TextSaysIff(text: string, es: seq<Entry>)
    ensures ParseLines(SplitLines(text)) == Some(es) <==> SaysAll(text, es)
  {
    var lines := SplitLines(text);
    if |lines| == |es| {
      forall i | 0 <= i < |es| ensures ParseLine(lines[i]) == Some(es[i]) <==> Says(lines[i], es[i]) {
        LineSaysIff(lines[i], es[i]);
      }
      if SaysAll(text, es) {
        ParsesAll(lines, es);
      }
    }
  }

  /** The entries name the files of the payload, and no others. */
  ghost predicate NamesFiles(payload: Payload, es: seq<Entry>) {
    forall p :: p in payload <==> exists i :: 0 <= i < |es| && es[i].path == p
  }

  lemma EntriesIff(payload: Payload, text: string, es: seq<Entry>)
    ensures Entries(payload, text) == Some(es) <==> IsAscii(text) && SaysAll(text, es) && es != [] && NamesFiles(payload, es)
  {
    TextSaysIff(text, es);
    assert Paths(es) == payload.Keys <==> NamesFiles(payload, es);
  }

  /** The list that the text is agrees with the files and with the metadata. */
  ghost predicate ListFits(sha: Content -> string, size: Content -> nat, meta: Document, payload: Payload, text: string,
                           es: seq<Entry>)
  {
    && SaysAll(text, es) && es != [] && NamesFiles(payload, es)
    && meta.fileCount == |es|
    && (forall i :: 0 <= i < |es| ==> es[i].path in payload && sha(payload[es[i].path]) == es[i].digest)
    && meta.payloadBytes == TotalSize(size, payload, es)
  }

  /** The text is a list that agrees with the files and with the metadata. */
  ghost predicate Listed(sha: Content -> string, size: Content -> nat, meta: Document, payload: Payload, text: string) {
    IsAscii(text) && exists es :: ListFits(sha, size, meta, payload, text, es)
  }

  lemma ListedIff(sha: Content -> string, size: Content -> nat, meta: Document, payload: Payload, text: string)
    ensures ListAccepted(sha, size, meta, payload, text) <==> Listed(sha, size, meta, payload, text)
  {
    if ListAccepted(sha, size, meta, payload, text) {
      var es := Entries(payload, text).value;
      EntriesIff(payload, text, es);
      assert ListFits(sha, size, meta, payload, text, es);
    }
    if Listed(sha, size, meta, payload, text) {
      var es :| ListFits(sha, size, meta, payload, text, es);
      EntriesIff(payload, text, es);
    }
  }

  /** A staged payload beside any metadata and any list is accepted if and only if the metadata is of the release
      called for and its probe is sound, the list is ASCII and not empty and says which files there are, and
      hashes, count and total size agree. */
  lemma AcceptsIff(sha: Content -> string, size: Content -> nat, a: Args, meta: Document, payload: Payload, text: string)
    ensures Accepts(sha, size, a, meta, payload, text) <==>
            && meta.channel == a.ch && meta.appTag == a.appTag && meta.driverTag == a.driverTag && meta.generation == a.gen
            && meta.driverEnabled == (a.driverTag != "")
            && meta.probePath != [] && ".." !in meta.probePath && meta.probeSize > 0 && IsDigest(meta.probeSha)
            && Listed(sha, size, meta, payload, text)
  {
    ListedIff(sha, size, meta, payload, text);
  }

  /** The total size: each entry adds the size of its file, wherever it stands in the list. */
  lemma {:induction false} TotalSizeWithout(size: Content -> nat, payload: Payload, es: seq<Entry>, k: nat)
    requires k < |es| && forall i :: 0 <= i < |es| ==> es[i].path in payload
    ensures TotalSize(size, payload, []) == 0
    ensures TotalSize(size, payload, es) == size(payload[es[k].path]) + TotalSize(size, payload, es[..k] + es[k + 1..])
    decreases |es|
  {
    var n := |es| - 1;
    if k < n {
      TotalSizeWithout(size, payload, es[..n], k);
      assert es[..n][..k] + es[..n][k + 1..] == (es[..k] + es[k + 1..])[..n - 1];
    } else {
      assert es[..k] + es[k + 1..] == es[..n];
    }
  }

  // ----- which payloads an edge accepts -----

  datatype Asset = Asset(name: string, content: Content)

  /** The largest asset, the first among equals; edges probe it. */
  function ProbeAsset(size: Content -> nat, assets: seq<Asset>): (r: Asset)
    requires assets != []
    ensures r in assets && forall x :: x in assets ==> size(x.content) <= size(r.content)
  {
    if |assets| == 1 then assets[0]
    else
      var r, last := ProbeAsset(size, assets[..|assets| - 1]), assets[|assets| - 1];
      assert assets == assets[..|assets| - 1] + [last];
      if size(last.content) > size(r.content) then last else r
  }

  function VersionDir(ch: Channel, kind: Kind, tag: Tag): Parts {
    match (ch, kind)
    case (Stable, App) => ["gonavi", "releases", "download", tag]
    case (Stable, Driver) => ["drivers", "releases", "download", tag]
    case (Dev, App) => ["gonavi", "dev", "releases", "download", tag]
    case (Dev, Driver) => ["drivers", "dev", "releases", "download", tag]
  }

  /** The deployment metadata that the builder writes. */
  function BuiltDocument(sha: Content -> string, size: Content -> nat, a: Args, assets: seq<Asset>, payload: Payload,
                         files: seq<Parts>): Document
    requires assets != [] && forall i :: 0 <= i < |files| ==> files[i] in payload
  {
    var probe := ProbeAsset(size, assets);
    Document(a.ch, a.appTag, a.driverTag != "", a.driverTag, a.gen, |files|,
             TotalSize(size, payload, EntriesOf(sha, payload, files)),
             VersionDir(a.ch, App, a.appTag) + [probe.name], size(probe.content), sha(probe.content), Staged)
  }

  /** What the builder has checked of its inputs, and what a file system gives. */
  ghost predicate Buildable(sha: Content -> string, a: Args, assets: seq<Asset>, payload: Payload, files: seq<Parts>) {
    && (forall c :: IsDigest(sha(c)))
    && assets != [] && (forall x :: x in assets ==> IsName(x.name)) && IsName(a.appTag)
    && Lists(files, payload) && (forall p :: p in payload ==> IsCleanPath(p))
    && IsAscii(PrintEntries(EntriesOf(sha, payload, files)))
  }

  /** The same files with the same hashes and the same total size. */
  ghost predicate SameByHash(sha: Content -> string, size: Content -> nat, files: seq<Parts>, payload: Payload, other: Payload)
    requires forall i :: 0 <= i < |files| ==> files[i] in payload
  {
    && other.Keys == payload.Keys
    && (forall p :: p in payload ==> sha(other[p]) == sha(payload[p]))
    && TotalSize(size, other, EntriesOf(sha, payload, files)) == TotalSize(size, payload, EntriesOf(sha, payload, files))
  }

  lemma PathsOfEntries(sha: Content -> string, payload: Payload, files: seq<Parts>)
    requires Lists(files, payload)
    ensures Paths(EntriesOf(sha, payload, files)) == payload.Keys && DistinctPaths(EntriesOf(sha, payload, files))
  {
    var es := EntriesOf(sha, payload, files);
    forall p ensures p in Paths(es) <==> p in payload.Keys {
      if p in payload {
        var i :| 0 <= i < |files| && files[i] == p;
        assert es[i].path == p;
      }
    }
  }

  lemma EntryPrintable(sha: Content -> string, payload: Payload, p: Parts)
    requires p in payload && IsDigest(sha(payload[p])) && IsCleanPath(p) && NoBreaks(JoinSlash(p))
    ensures Printable(EntryOf(sha, payload, p))
  {
  }

  lemma BuiltEntries(sha: Content -> string, a: Args, assets: seq<Asset>, payload: Payload, files: seq<Parts>)
    requires Buildable(sha, a, assets, payload, files)
    requires forall p :: p in payload ==> NoBreaks(JoinSlash(p))
    ensures ParseLines(SplitLines(PrintEntries(EntriesOf(sha, payload, files)))) == Some(EntriesOf(sha, payload, files))
  {
    var es := EntriesOf(sha, payload, files);
    PathsOfEntries(sha, payload, files);
    forall i | 0 <= i < |es| ensures Printable(es[i]) {
      assert files[i] in files;
      EntryPrintable(sha, payload, files[i]);
    }
    PrintParse(es);
  }

  lemma ReadFor(text: string, es: seq<Entry>, staged: Payload)
    requires ParseLines(SplitLines(text)) == Some(es) && IsAscii(text) && es != []
    ensures Entries(staged, text) == if Paths(es) == staged.Keys then Some(es) else None
  {
  }

  lemma IntactExactly(sha: Content -> string, payload: Payload, files: seq<Parts>, staged: Payload)
    requires Lists(files, payload) && staged.Keys == payload.Keys
    ensures (forall i :: 0 <= i < |files| ==> EntriesOf(sha, payload, files)[i].path in staged)
    ensures Intact(sha, staged, EntriesOf(sha, payload, files)) <==> forall p :: p in payload ==> sha(staged[p]) == sha(payload[p])
  {
    var es := EntriesOf(sha, payload, files);
    if Intact(sha, staged, es) {
      forall p | p in payload ensures sha(staged[p]) == sha(payload[p]) {
        var i :| 0 <= i < |files| && files[i] == p;
        assert es[i] == EntryOf(sha, payload, p);
      }
    }
  }

  /** An edge accepts a staged payload beside the list and metadata of a build exactly when it was
      called for the same release, some app asset is not empty, and the files are those of the build. */
  lemma AcceptsExactly(sha: Content -> string, size: Content -> nat, a: Args, b: Args, assets: seq<Asset>,
                       payload: Payload, files: seq<Parts>, staged: Payload)
    requires Buildable(sha, a, assets, payload, files) && files != []
    requires forall p :: p in payload ==> NoBreaks(JoinSlash(p))
    ensures Accepts(sha, size, b, BuiltDocument(sha, size, a, assets, payload, files), staged,
                    PrintEntries(EntriesOf(sha, payload, files)))
            <==> && b.ch == a.ch && b.appTag == a.appTag && b.driverTag == a.driverTag && b.gen == a.gen
                 && (exists x :: x in assets && size(x.content) > 0)
                 && SameByHash(sha, size, files, payload, staged)
  {
    var es := EntriesOf(sha, payload, files);
    BuiltEntries(sha, a, assets, payload, files);
    PathsOfEntries(sha, payload, files);
    ReadFor(PrintEntries(es), es, staged);
    BuiltProbe(sha, size, a, assets, payload, files);
    BuiltListAccepted(sha, size, BuiltDocument(sha, size, a, assets, payload, files), payload, files, staged, PrintEntries(es));
  }

  lemma BuiltListAccepted(sha: Content -> string, size: Content -> nat, meta: Document, payload: Payload, files: seq<Parts>,
                          staged: Payload, text: string)
    requires Lists(files, payload)
    requires var es := EntriesOf(sha, payload, files);
             && Paths(es) == payload.Keys && meta.fileCount == |es| && meta.payloadBytes == TotalSize(size, payload, es)
             && Entries(staged, text) == if payload.Keys == staged.Keys then Some(es) else None
    ensures ListAccepted(sha, size, meta, staged, text) <==> SameByHash(sha, size, files, payload, staged)
  {
    if staged.Keys == payload.Keys {
      IntactExactly(sha, payload, files, staged);
    }
  }

  lemma BuiltProbe(sha: Content -> string, size: Content -> nat, a: Args, assets: seq<Asset>, payload: Payload, files: seq<Parts>)
    requires Buildable(sha, a, assets, payload, files)
    ensures ProbeValid(BuiltDocument(sha, size, a, assets, payload, files))
            <==> exists x :: x in assets && size(x.content) > 0
  {
    var probe := ProbeAsset(size, assets);
    assert probe in assets;
    var path := VersionDir(a.ch, App, a.appTag) + [probe.name];
    assert ".." !in path;
  }

  /** Whatever list is read, the paths in it are free of line breaks. */
  lemma ReadPathsUnbroken(payload: Payload, text: string, p: Parts)
    requires Entries(payload, text).Some? && p in payload
    ensures NoBreaks(JoinSlash(p))
  {
    var es := Entries(payload, text).value;
    assert p in Paths(es);
    var i :| 0 <= i < |es| && es[i].path == p;
    LineUnbroken(SplitLines(text), es, i);
    assert forall k :: 0 <= k < |p| ==> p[k] in p;
    JoinNoBreaks(p);
  }

  lemma LineUnbroken(lines: seq<string>, es: seq<Entry>, i: nat)
    requires ParseLines(lines) == Some(es) && i < |es| && forall line :: line in lines ==> NoBreaks(line)
    ensures forall part :: part in es[i].path ==> NoBreaks(part)
  {
    assert lines[i] in lines && ParseLine(lines[i]) == Some(es[i]);
  }

  /** A build is accepted as it was built exactly when no path in it contains a line break. */
  lemma BuiltAcceptedIff(sha: Content -> string, size: Content -> nat, a: Args, assets: seq<Asset>,
                         payload: Payload, files: seq<Parts>)
    requires Buildable(sha, a, assets, payload, files) && files != []
    requires exists x :: x in assets && size(x.content) > 0
    ensures Accepts(sha, size, a, BuiltDocument(sha, size, a, assets, payload, files), payload,
                    PrintEntries(EntriesOf(sha, payload, files)))
            <==> forall p :: p in payload ==> NoBreaks(JoinSlash(p))
  {
    var text := PrintEntries(EntriesOf(sha, payload, files));
    if forall p :: p in payload ==> NoBreaks(JoinSlash(p)) {
      AcceptsExactly(sha, size, a, a, assets, payload, files, payload);
    }
    if Entries(payload, text).Some? {
      forall p | p in payload ensures NoBreaks(JoinSlash(p)) {
        ReadPathsUnbroken(payload, text, p);
      }
    }
  }

  /** A file added, removed or altered is rejected, as far as the hash tells contents apart. */
  lemma TamperedRejected(sha: Content -> string, size: Content -> nat, a: Args, b: Args, assets: seq<Asset>,
                         payload: Payload, files: seq<Parts>, staged: Payload)
    requires Buildable(sha, a, assets, payload, files) && files != []
    requires forall p :: p in payload ==> NoBreaks(JoinSlash(p))
    requires forall p :: p in payload && p in staged && staged[p] != payload[p] ==> sha(staged[p]) != sha(payload[p])
    requires staged != payload
    ensures !Accepts(sha, size, b, BuiltDocument(sha, size, a, assets, payload, files), staged,
                     PrintEntries(EntriesOf(sha, payload, files)))
  {
    AcceptsExactly(sha, size, a, b, assets, payload, files, staged);
    if staged.Keys == payload.Keys {
      var p :| p in payload && staged[p] != payload[p];
    }
  }
}
