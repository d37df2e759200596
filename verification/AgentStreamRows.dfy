/** What streaming sends: every consumed row once and in order, in non-empty batches of bounded size,
    between the columns and the closing frame. */
module AgentStreamRows {
  import opened Options
  import opened AgentStream

  /** The rows that a run of frames carries. */
  function RowsIn(frames: seq<Frame>): seq<Row> {
    if frames == [] then []
    else RowsIn(frames[..|frames| - 1]) + (if frames[|frames| - 1].Rows? then frames[|frames| - 1].rows else [])
  }

  lemma {:induction false} RowsInConcat(a: seq<Frame>, b: seq<Frame>)
    ensures RowsIn(a + b) == RowsIn(a) + RowsIn(b)
    decreases |b|
  {
    if b == [] {
      assert a + b == a;
    } else {
      var front := b[..|b| - 1];
      assert (a + b)[..|a + b| - 1] == a + front;
      RowsInConcat(a, front);
    }
  }

  lemma RowsInOne(rows: seq<Row>)
    ensures RowsIn([Rows(rows)]) == rows
  {
    assert [Rows(rows)][..0] == [];
    assert RowsIn([Rows(rows)]) == [] + rows;
  }

  ghost predicate IsBatch(l: Line, f: Frame) {
    f.Rows? && 0 < |f.rows| <= BATCH_SIZE && l.reject(f) == None
  }

  /** `l'` is `l` after sending these batches. */
  ghost predicate SentBatches(l: Line, l': Line, frames: seq<Frame>) {
    && l'.reject == l.reject
    && l'.sent == l.sent + frames
    && forall i :: 0 <= i < |frames| ==> IsBatch(l, frames[i])
  }

  lemma SentNothing(l: Line)
    ensures SentBatches(l, l, [])
  {
  }

  lemma SentThen(a: Line, b: Line, c: Line, first: seq<Frame>, second: seq<Frame>)
    requires SentBatches(a, b, first) && SentBatches(b, c, second)
    ensures SentBatches(a, c, first + second)
  {
    assert a.sent + first + second == a.sent + (first + second);
  }

  // ----- one batch -----

  lemma {:induction false} BatchSent(l: Line, batch: seq<Row>)
    requires 0 < |batch| <= BATCH_SIZE
    ensures var (l', n, f) := SendBatch(l, batch);
            if f == None then 0 < n <= |batch| && SentBatches(l, l', [Rows(batch[..n])])
            else l' == l && (f == Some(TooLarge) ==> l.reject(Rows([batch[0]])) == Some(TooLarge))
    decreases |batch|
  {
    var (l', f) := Send(l, Rows(batch));
    if f == None {
      assert batch[..|batch|] == batch;
    } else if f == Some(TooLarge) && |batch| > 1 {
      var half := batch[..|batch| / 2];
      BatchSent(l, half);
      var (_, n, g) := SendBatch(l, half);
      assert g == None ==> half[..n] == batch[..n];
    } else {
      assert |batch| == 1 ==> batch == [batch[0]];
    }
  }

  lemma RowsAfterBatch(rows: seq<Row>, n: nat, more: seq<Frame>, rest: seq<Row>)
    requires n <= |rows| && RowsIn(more) + rest == rows[n..]
    ensures RowsIn([Rows(rows[..n])] + more) + rest == rows
  {
    RowsInConcat([Rows(rows[..n])], more);
    RowsInOne(rows[..n]);
    assert rows[..n] + RowsIn(more) + rest == rows[..n] + (RowsIn(more) + rest);
  }

  /** What a flush leaves unsent; without a fault nothing, and after a frame that was too large a row
      that does not even fit alone. */
  ghost predicate Rest(l: Line, rest: seq<Row>, f: Option<Fault>) {
    && (f == None <==> rest == [])
    && (f == Some(TooLarge) ==> l.reject(Rows([rest[0]])) == Some(TooLarge))
  }

  lemma {:induction false} FlushSent(l: Line, rows: seq<Row>) returns (frames: seq<Frame>, rest: seq<Row>)
    requires |rows| <= BATCH_SIZE
    ensures SentBatches(l, Flush(l, rows).0, frames)
    ensures RowsIn(frames) + rest == rows && Rest(l, rest, Flush(l, rows).1)
    decreases |rows|
  {
    frames, rest := [], rows;
    if rows != [] {
      BatchSent(l, rows);
      var (l', n, f) := SendBatch(l, rows);
      if f == None {
        var more: seq<Frame>;
        more, rest := FlushSent(l', rows[n..]);
        frames := [Rows(rows[..n])] + more;
        SentThen(l, l', Flush(l, rows).0, [Rows(rows[..n])], more);
        RowsAfterBatch(rows, n, more, rest);
      }
    }
  }

  // ----- a whole run of rows -----

  function RowOf(names: seq<string>, c: Call): Row
    requires !c.SetColumns?
  {
    if c.Named? then RowFor(names, c.cells) else c.row
  }

  function RowsOf(names: seq<string>, calls: seq<Call>): seq<Row>
    requires forall i :: 0 <= i < |calls| ==> !calls[i].SetColumns?
  {
    seq(|calls|, i requires 0 <= i < |calls| => RowOf(names, calls[i]))
  }

  /** The row that a call gave: cell by cell in the order of the columns, or the values as they are. */
  ghost predicate RowIs(names: seq<string>, c: Call, row: Row) {
    match c
    case Named(cells) =>
      |row| == |names| && forall j :: 0 <= j < |names| ==> row[j] == if names[j] in cells then cells[names[j]] else Null
    case Values(values) => row == values
    case SetColumns(_) => false
  }

  /** The rows that the first calls gave, one for each. */
  ghost predicate RowsAre(names: seq<string>, calls: seq<Call>, rows: seq<Row>) {
    |rows| <= |calls| && forall i :: 0 <= i < |rows| ==> RowIs(names, calls[i], rows[i])
  }

  lemma RowsOfAre(names: seq<string>, calls: seq<Call>, rows: seq<Row>)
    requires (forall i :: 0 <= i < |calls| ==> !calls[i].SetColumns?) && rows <= RowsOf(names, calls)
    ensures RowsAre(names, calls, rows)
  {
    forall i | 0 <= i < |rows| ensures RowIs(names, calls[i], rows[i]) {
      assert rows[i] == RowOf(names, calls[i]);
    }
  }

  lemma RowsOfCons(names: seq<string>, calls: seq<Call>)
    requires calls != [] && forall i :: 0 <= i < |calls| ==> !calls[i].SetColumns?
    ensures RowsOf(names, calls) == [RowOf(names, calls[0])] + RowsOf(names, calls[1..])
  {
  }

  /** From `w` the batches went out, and together with what `w'` still holds they are `rows`, or a proper
      beginning of `rows` if there was a fault. */
  ghost predicate Progress(w: Writer, w': Writer, f: Option<Fault>, frames: seq<Frame>, rows: seq<Row>) {
    && SentBatches(w.line, w'.line, frames)
    && RowsIn(frames) + w'.rows <= rows
    && (f == None <==> RowsIn(frames) + w'.rows == rows)
    && |w'.rows| < BATCH_SIZE
    && w'.columns == w.columns
  }

  lemma AcceptProgress(w: Writer, row: Row) returns (frames: seq<Frame>)
    requires |w.rows| < BATCH_SIZE
    ensures Progress(w, Accept(w, row).0, Accept(w, row).1, frames, w.rows + [row])
  {
    frames := [];
    SentNothing(w.line);
    if |w.rows| + 1 == BATCH_SIZE {
      var rest: seq<Row>;
      frames, rest := FlushSent(w.line, w.rows + [row]);
      assert RowsIn(frames) + [] == RowsIn(frames);
    } else {
      assert RowsIn([]) + (w.rows + [row]) == w.rows + [row];
    }
  }

  lemma ProgressThen(a: Writer, b: Writer, c: Writer, f: Option<Fault>, first: seq<Frame>, second: seq<Frame>,
                     here: seq<Row>, later: seq<Row>)
    requires Progress(a, b, None, first, a.rows + here) && Progress(b, c, f, second, b.rows + later)
    ensures Progress(a, c, f, first + second, a.rows + (here + later))
  {
    SentThen(a.line, b.line, c.line, first, second);
    RowsInConcat(first, second);
    ChainRows(a.rows, here, RowsIn(first), b.rows, later, RowsIn(second), c.rows);
  }

  lemma ChainRows(held: seq<Row>, here: seq<Row>, sent: seq<Row>, kept: seq<Row>, later: seq<Row>, more: seq<Row>, left: seq<Row>)
    requires sent + kept == held + here && more + left <= kept + later
    ensures sent + more + left <= held + (here + later)
    ensures more + left == kept + later <==> sent + more + left == held + (here + later)
  {
    assert sent + more + left == sent + (more + left);
    assert held + (here + later) == held + here + later;
    assert sent + kept + later == sent + (kept + later);
  }

  lemma WidenProgress(w: Writer, w': Writer, f: Option<Fault>, frames: seq<Frame>, rows: seq<Row>, more: seq<Row>)
    requires Progress(w, w', f, frames, w.rows + rows) && f.Some?
    ensures Progress(w, w', f, frames, w.rows + (rows + more))
  {
    assert w.rows + (rows + more) == w.rows + rows + more;
  }

  lemma {:induction false} FeedProgress(w: Writer, calls: seq<Call>) returns (frames: seq<Frame>)
    requires |w.rows| < BATCH_SIZE && forall i :: 0 <= i < |calls| ==> !calls[i].SetColumns?
    ensures Progress(w, Feed(w, calls).0, Feed(w, calls).1, frames, w.rows + RowsOf(w.columns, calls))
    decreases |calls|
  {
    frames := [];
    SentNothing(w.line);
    if calls == [] {
      assert RowsIn([]) + w.rows == w.rows + [];
    } else {
      RowsOfCons(w.columns, calls);
      var row, later := RowOf(w.columns, calls[0]), RowsOf(w.columns, calls[1..]);
      var (w', f) := Consume(w, calls[0]);
      if f == Some(NoColumns) && calls[0].Named? && w.columns == [] {
        assert RowsIn([]) + w.rows <= w.rows + RowsOf(w.columns, calls);
      } else {
        frames := AcceptProgress(w, row);
        if f.Some? {
          WidenProgress(w, w', f, frames, [row], later);
        } else {
          var more := FeedProgress(w', calls[1..]);
          ProgressThen(w, w', Feed(w, calls).0, Feed(w, calls).1, frames, more, [row], later);
          frames := frames + more;
        }
      }
    }
  }

  // ----- main results -----

  lemma TailSent(l: Line, f: Frame) returns (tail: seq<Frame>)
    ensures Send(l, f).0.sent == l.sent + tail
    ensures tail == (if Send(l, f).1 == None then [f] else [])
  {
    tail := if Send(l, f).1 == None then [f] else [];
    assert l.sent + [] == l.sent;
  }

  /** `Respond` once the columns are known. */
  function Closing(w: Writer, calls: seq<Call>, end: Option<Fault>): Line {
    var (fed, f) := Feed(w, calls);
    var (flushed, g) := FlushWriter(fed);
    CloseLine(flushed.line, f.Some? || end.Some?, g)
  }

  /** The end of a response: the query failed, or the last flush had fault `g`, or all is done. */
  function CloseLine(l: Line, failed: bool, g: Option<Fault>): Line {
    var (l', f) := if failed then Send(l, Failed) else if g.Some? then (l, g) else Send(l, DoneFrame);
    if f == Some(TooLarge) then Send(l', Failed).0 else l'
  }

  lemma CloseTail(l: Line, failed: bool, g: Option<Fault>) returns (tail: seq<Frame>)
    ensures CloseLine(l, failed, g).sent == l.sent + tail && tail in {[], [DoneFrame], [Failed]}
    ensures tail == [DoneFrame] ==> !failed && g == None
    ensures !failed && g == None && l.reject(DoneFrame) == None && l.left == None ==> tail == [DoneFrame]
    ensures (failed || g == Some(TooLarge)) && l.reject(Failed) == None && l.left == None ==> tail == [Failed]
  {
    tail := [];
    assert l.sent + [] == l.sent;
    if failed {
      tail := TailSent(l, Failed);
    } else if g == None {
      tail := TailSent(l, DoneFrame);
    }
    if tail == [] && CloseLine(l, failed, g) != l {
      tail := TailSent(l, Failed);
    }
  }

  /** All batches of a response, those of the last flush included. */
  lemma AllBatches(w: Writer, calls: seq<Call>) returns (batches: seq<Frame>)
    requires w.rows == [] && forall i :: 0 <= i < |calls| ==> !calls[i].SetColumns?
    ensures var (fed, f) := Feed(w, calls);
            var (flushed, g) := FlushWriter(fed);
            && SentBatches(w.line, flushed.line, batches)
            && RowsIn(batches) <= RowsOf(w.columns, calls)
            && (f == None && g == None <==> RowsIn(batches) == RowsOf(w.columns, calls))
  {
    var rows := RowsOf(w.columns, calls);
    var first := FeedProgress(w, calls);
    assert [] + rows == rows;
    var (fed, f) := Feed(w, calls);
    var second, rest := FlushSent(fed.line, fed.rows);
    SentThen(w.line, fed.line, FlushWriter(fed).0.line, first, second);
    batches := first + second;
    RowsInConcat(first, second);
    assert RowsIn(first) + (RowsIn(second) + rest) == RowsIn(batches) + rest;
    assert rest == [] ==> RowsIn(batches) + rest == RowsIn(batches);
  }

  /** The columns are on their way out, then the rows follow. */
  ghost predicate ColumnsSent(l: Line, names: seq<string>) {
    Send(l, Columns(names)).1 == None
  }

  /** The pipe does not break, and frames are only ever rejected for their size, closing frames never. */
  ghost predicate OnlyRowsRejected(l: Line) {
    && l.left == None
    && (forall f :: l.reject(f) in {None, Some(TooLarge)})
    && l.reject(DoneFrame) == None && l.reject(Failed) == None
  }

  /** Whatever the frame limit and wherever the pipe breaks: after the columns come non-empty batches of
      at most `BATCH_SIZE` rows that each fit, together the rows of the first calls in order, and then the
      end; a response that ends with the closing frame has sent every row, and if only rows are rejected
      every other response ends with the report of a failure. */
  lemma StreamConserves(l: Line, names: seq<string>, calls: seq<Call>, end: Option<Fault>)
      returns (batches: seq<Frame>, tail: seq<Frame>)
    requires ColumnsSent(l, names) && forall i :: 0 <= i < |calls| ==> !calls[i].SetColumns?
    ensures Respond(l, Open, [SetColumns(names)] + calls, end).sent == l.sent + [Columns(names)] + batches + tail
    ensures tail in {[], [DoneFrame], [Failed]}
    ensures forall i :: 0 <= i < |batches| ==> IsBatch(l, batches[i])
    ensures RowsAre(names, calls, RowsIn(batches))
    ensures tail == [DoneFrame] ==> end == None && |RowsIn(batches)| == |calls|
    ensures OnlyRowsRejected(l) ==> tail == [if end == None && |RowsIn(batches)| == |calls| then DoneFrame else Failed]
  {
    var w := Writer(Send(l, Columns(names)).0, names, [], 0);
    RespondIsClosing(l, names, calls, end);
    batches := AllBatches(w, calls);
    var (fed, f) := Feed(w, calls);
    var (flushed, g) := FlushWriter(fed);
    tail := CloseTail(flushed.line, f.Some? || end.Some?, g);
    RowsOfAre(names, calls, RowsIn(batches));
    if OnlyRowsRejected(l) {
      FeedKeepsLine(w, calls);
      FlushKeepsLine(fed.line, fed.rows);
    }
  }

  /** A pipe that does not break stays whole. */
  lemma {:induction false} BatchKeepsLine(l: Line, batch: seq<Row>)
    requires batch != [] && OnlyRowsRejected(l)
    ensures var (l', n, f) := SendBatch(l, batch); OnlyRowsRejected(l') && f in {None, Some(TooLarge)}
    decreases |batch|
  {
    if |batch| > 1 {
      BatchKeepsLine(l, batch[..|batch| / 2]);
    }
  }

  lemma {:induction false} FlushKeepsLine(l: Line, rows: seq<Row>)
    requires OnlyRowsRejected(l)
    ensures var (l', f) := Flush(l, rows); OnlyRowsRejected(l') && f in {None, Some(TooLarge)}
    decreases |rows|
  {
    if rows != [] {
      BatchKeepsLine(l, rows);
      var (l', n, f) := SendBatch(l, rows);
      if f == None {
        FlushKeepsLine(l', rows[n..]);
      }
    }
  }

  lemma {:induction false} FeedKeepsLine(w: Writer, calls: seq<Call>)
    requires OnlyRowsRejected(w.line) && forall i :: 0 <= i < |calls| ==> !calls[i].SetColumns?
    ensures OnlyRowsRejected(Feed(w, calls).0.line)
    decreases |calls|
  {
    if calls != [] {
      FlushKeepsLine(w.line, w.rows + [RowOf(w.columns, calls[0])]);
      FeedKeepsLine(Consume(w, calls[0]).0, calls[1..]);
    }
  }

  lemma RespondIsClosing(l: Line, names: seq<string>, calls: seq<Call>, end: Option<Fault>)
    requires ColumnsSent(l, names)
    ensures Respond(l, Open, [SetColumns(names)] + calls, end) == Closing(Writer(Send(l, Columns(names)).0, names, [], 0), calls, end)
  {
    var all := [SetColumns(names)] + calls;
    assert all[1..] == calls;
    assert Feed(Writer(l, [], [], 0), all) == Feed(Writer(Send(l, Columns(names)).0, names, [], 0), calls);
  }

  /** Without its columns a response carries no rows at all. */
  lemma NoColumnsNoRows(l: Line, names: seq<string>, calls: seq<Call>, end: Option<Fault>) returns (tail: seq<Frame>)
    requires !ColumnsSent(l, names)
    ensures Respond(l, Open, [SetColumns(names)] + calls, end).sent == l.sent + tail && tail in {[], [Failed]}
    ensures OnlyRowsRejected(l) ==> tail == [Failed]
  {
    var all := [SetColumns(names)] + calls;
    assert all[0] == SetColumns(names);
    var w := Writer(l, names, [], 0);
    assert Feed(Writer(l, [], [], 0), all) == (w, Send(l, Columns(names)).1);
    tail := CloseTail(l, true, None);
  }

  /** Without a connection, or for a session that is not there, the one frame is the report of the failure. */
  lemma NotOpenFails(l: Line, target: Target, calls: seq<Call>, end: Option<Fault>)
    requires target != Open
    ensures Respond(l, target, calls, end).sent == l.sent + if Send(l, Failed).1 == None then [Failed] else []
  {
    assert l.sent + [] == l.sent;
  }

  // ----- when everything gets through -----

  /** Frames are only ever rejected for their size, and no single row is too large. */
  ghost predicate EachRowFits(l: Line, rows: seq<Row>) {
    && l.left == None
    && (forall f :: l.reject(f) in {None, Some(TooLarge)})
    && (forall row :: row in rows ==> l.reject(Rows([row])) == None)
  }

  lemma {:induction false} BatchFits(l: Line, batch: seq<Row>)
    requires batch != [] && EachRowFits(l, batch)
    ensures SendBatch(l, batch).2 == None
    ensures SendBatch(l, batch).0.left == None && SendBatch(l, batch).0.reject == l.reject
    decreases |batch|
  {
    if |batch| == 1 {
      assert batch == [batch[0]];
    } else {
      assert forall row :: row in batch[..|batch| / 2] ==> row in batch;
      BatchFits(l, batch[..|batch| / 2]);
    }
  }

  lemma {:induction false} FlushFits(l: Line, rows: seq<Row>)
    requires EachRowFits(l, rows)
    ensures Flush(l, rows).1 == None && Flush(l, rows).0.left == None && Flush(l, rows).0.reject == l.reject
    decreases |rows|
  {
    if rows != [] {
      BatchFits(l, rows);
      var (l', n, f) := SendBatch(l, rows);
      assert forall row :: row in rows[n..] ==> row in rows;
      FlushFits(l', rows[n..]);
    }
  }

  lemma {:induction false} FeedFits(w: Writer, calls: seq<Call>)
    requires w.columns != [] && forall i :: 0 <= i < |calls| ==> !calls[i].SetColumns?
    requires EachRowFits(w.line, w.rows + RowsOf(w.columns, calls))
    ensures Feed(w, calls).1 == None && EachRowFits(Feed(w, calls).0.line, Feed(w, calls).0.rows)
    ensures Feed(w, calls).0.line.reject == w.line.reject
    decreases |calls|
  {
    if calls != [] {
      RowsOfCons(w.columns, calls);
      var row, later := RowOf(w.columns, calls[0]), RowsOf(w.columns, calls[1..]);
      assert w.rows + ([row] + later) == w.rows + [row] + later;
      FlushFits(w.line, w.rows + [row]);
      FeedFits(Consume(w, calls[0]).0, calls[1..]);
    }
  }

  /** The same of the rows that the calls give. */
  ghost predicate EachCallFits(l: Line, names: seq<string>, calls: seq<Call>) {
    && l.left == None
    && (forall f :: l.reject(f) in {None, Some(TooLarge)})
    && (forall i, row :: 0 <= i < |calls| && RowIs(names, calls[i], row) ==> l.reject(Rows([row])) == None)
  }

  lemma CallsFit(l: Line, names: seq<string>, calls: seq<Call>)
    requires EachCallFits(l, names, calls) && forall i :: 0 <= i < |calls| ==> !calls[i].SetColumns?
    ensures EachRowFits(l, RowsOf(names, calls))
  {
    RowsOfAre(names, calls, RowsOf(names, calls));
    forall row | row in RowsOf(names, calls) ensures l.reject(Rows([row])) == None {
      var i :| 0 <= i < |calls| && RowsOf(names, calls)[i] == row;
      assert RowIs(names, calls[i], row);
    }
  }

  /** With any frame limit that every single row, the columns and the closing frames meet, halving finds
      batches that fit: everything consumed is delivered, and then the end of the query, good or bad. */
  lemma EverythingDelivered(l: Line, names: seq<string>, calls: seq<Call>, end: Option<Fault>) returns (batches: seq<Frame>)
    requires names != [] && forall i :: 0 <= i < |calls| ==> !calls[i].SetColumns?
    requires EachCallFits(l, names, calls)
    requires l.reject(Columns(names)) == None && l.reject(DoneFrame) == None && l.reject(Failed) == None
    ensures Respond(l, Open, [SetColumns(names)] + calls, end).sent
         == l.sent + [Columns(names)] + batches + [if end == None then DoneFrame else Failed]
    ensures RowsAre(names, calls, RowsIn(batches)) && |RowsIn(batches)| == |calls|
    ensures forall i :: 0 <= i < |batches| ==> IsBatch(l, batches[i])
  {
    var w := Writer(Send(l, Columns(names)).0, names, [], 0);
    CallsFit(l, names, calls);
    assert [] + RowsOf(names, calls) == RowsOf(names, calls);
    FeedFits(w, calls);
    var fed := Feed(w, calls).0;
    FlushFits(fed.line, fed.rows);
    RespondIsClosing(l, names, calls, end);
    batches := AllBatches(w, calls);
    RowsOfAre(names, calls, RowsIn(batches));
    var tail := CloseTail(FlushWriter(fed).0.line, end.Some?, None);
  }

  // ----- how much goes into a batch -----

  /** Sizes from `n` on, each half of the one before, rounded down. */
  ghost predicate Halves(sizes: seq<nat>, n: nat) {
    sizes != [] && sizes[0] == n && forall j :: 0 < j < |sizes| ==> sizes[j] == sizes[j - 1] / 2
  }

  ghost predicate AtMost(sizes: seq<nat>, n: nat) {
    forall j :: 0 <= j < |sizes| ==> sizes[j] <= n
  }

  /** How a batch is cut: of the rows, half of them, a quarter and so on the first that is not too large
      goes out, or the fault is its fault; a single row is not cut any more. */
  lemma {:induction false} FirstHalfThatFits(l: Line, rows: seq<Row>) returns (sizes: seq<nat>)
    requires rows != []
    ensures Halves(sizes, |rows|) && AtMost(sizes, |rows|)
    ensures forall j :: 0 <= j < |sizes| - 1 ==> Send(l, Rows(rows[..sizes[j]])).1 == Some(TooLarge)
    ensures var (l', n, f) := SendBatch(l, rows);
            var last := sizes[|sizes| - 1];
            && 0 < last
            && (l', f) == Send(l, Rows(rows[..last]))
            && (f == None ==> n == last)
            && (f == Some(TooLarge) ==> last == 1)
    decreases |rows|
  {
    assert rows[..|rows|] == rows;
    sizes := [|rows|];
    var (l', f) := Send(l, Rows(rows));
    if f == Some(TooLarge) && |rows| > 1 {
      var half := rows[..|rows| / 2];
      var more := FirstHalfThatFits(l, half);
      assert forall n: nat :: n <= |half| ==> half[..n] == rows[..n];
      sizes := [|rows|] + more;
    }
  }

  /** Nothing is rejected and the pipe does not break. */
  ghost predicate AllFits(l: Line) {
    l.left == None && forall f :: l.reject(f) == None
  }

  /** `l'` is `l` after sending these batches of 64 rows. */
  ghost predicate SentFull(l: Line, l': Line, frames: seq<Frame>) {
    && AllFits(l') && l'.sent == l.sent + frames
    && forall i :: 0 <= i < |frames| ==> frames[i].Rows? && |frames[i].rows| == 64
  }

  lemma FlushAllFits(l: Line, rows: seq<Row>)
    requires AllFits(l)
    ensures var (l', f) := Flush(l, rows);
            f == None && AllFits(l') && l'.sent == l.sent + if rows == [] then [] else [Rows(rows)]
  {
    assert rows[|rows|..] == [];
    assert l.sent + [] == l.sent;
  }

  lemma {:induction false} FeedFull(w: Writer, calls: seq<Call>) returns (full: seq<Frame>)
    requires AllFits(w.line) && |w.rows| < 64 && w.columns != []
    requires forall i :: 0 <= i < |calls| ==> !calls[i].SetColumns?
    ensures var (w', f) := Feed(w, calls); f == None && SentFull(w.line, w'.line, full) && |w'.rows| < 64
    decreases |calls|
  {
    full := [];
    if calls == [] {
      assert w.line.sent + [] == w.line.sent;
    } else {
      var row := RowOf(w.columns, calls[0]);
      var w' := Consume(w, calls[0]).0;
      FlushAllFits(w.line, w.rows + [row]);
      full := FeedFull(w', calls[1..]);
      if |w.rows| == 63 {
        assert w.line.sent + [Rows(w.rows + [row])] + full == w.line.sent + ([Rows(w.rows + [row])] + full);
        full := [Rows(w.rows + [row])] + full;
      }
    }
  }

  /** Rows are gathered: when nothing is too large, every batch but the last carries 64 rows, and the last
      one fewer, if there is anything left for it. */
  lemma FullBatches(l: Line, names: seq<string>, calls: seq<Call>, end: Option<Fault>)
      returns (full: seq<Frame>, last: seq<Frame>)
    requires AllFits(l) && names != [] && forall i :: 0 <= i < |calls| ==> !calls[i].SetColumns?
    ensures Respond(l, Open, [SetColumns(names)] + calls, end).sent
         == l.sent + [Columns(names)] + full + last + [if end == None then DoneFrame else Failed]
    ensures forall i :: 0 <= i < |full| ==> full[i].Rows? && |full[i].rows| == 64
    ensures last == [] || (|last| == 1 && last[0].Rows? && 0 < |last[0].rows| < 64)
  {
    var w := Writer(Send(l, Columns(names)).0, names, [], 0);
    RespondIsClosing(l, names, calls, end);
    full := FeedFull(w, calls);
    var fed := Feed(w, calls).0;
    FlushAllFits(fed.line, fed.rows);
    last := if fed.rows == [] then [] else [Rows(fed.rows)];
  }
}
