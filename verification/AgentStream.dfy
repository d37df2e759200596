/** Streaming a result: rows are gathered into batches, a batch whose frame is too large is halved
    until it fits, and every row goes out once and in order. */
module AgentStream {
  import opened Options

  type Value(==, 0, !new)

  datatype Cell = Null | Cell(value: Value)

  type Row = seq<Cell>

  const BATCH_SIZE: nat := 64

  datatype Frame = Columns(names: seq<string>) | Rows(rows: seq<Row>) | DoneFrame | Failed

  datatype Fault = TooLarge | Unencodable | Broken | NoColumns | QueryFailed

  /** The output: which frames cannot be encoded within the limit, after how many frames the pipe
      breaks (None: never), and what has been written. */
  datatype Line = Line(reject: Frame -> Option<Fault>, left: Option<nat>, sent: seq<Frame>)

  function Send(l: Line, f: Frame): (Line, Option<Fault>) {
    if l.reject(f).Some? then (l, l.reject(f))
    else if l.left == Some(0) then (l, Some(Broken))
    else (Line(l.reject, if l.left.Some? then Some(l.left.value - 1) else None, l.sent + [f]), None)
  }

  /** Halves the batch until it goes out: how many rows went, or why none did. */
  function SendBatch(l: Line, batch: seq<Row>): (r: (Line, nat, Option<Fault>))
    requires batch != []
    ensures r.2 == None ==> 0 < r.1 <= |batch|
    decreases |batch|
  {
    var (l', f) := Send(l, Rows(batch));
    if f == None then (l', |batch|, None)
    else if f != Some(TooLarge) || |batch| == 1 then (l', 0, f)
    else SendBatch(l', batch[..|batch| / 2])
  }

  function Flush(l: Line, rows: seq<Row>): (Line, Option<Fault>)
    decreases |rows|
  {
    if rows == [] then (l, None)
    else
      var (l', n, f) := SendBatch(l, rows);
      if f.Some? then (l', f) else Flush(l', rows[n..])
  }

  // ----- the writer the driver feeds -----

  datatype Writer = Writer(line: Line, columns: seq<string>, rows: seq<Row>, rowCount: nat)

  datatype Call = SetColumns(names: seq<string>) | Named(cells: map<string, Cell>) | Values(row: Row)

  function RowFor(columns: seq<string>, cells: map<string, Cell>): Row {
    seq(|columns|, i requires 0 <= i < |columns| => if columns[i] in cells then cells[columns[i]] else Null)
  }

  function FlushWriter(w: Writer): (Writer, Option<Fault>) {
    var (l, f) := Flush(w.line, w.rows);
    (w.(line := l, rows := []), f)
  }

  function Accept(w: Writer, row: Row): (Writer, Option<Fault>) {
    var w' := w.(rows := w.rows + [row], rowCount := w.rowCount + 1);
    if |w'.rows| < BATCH_SIZE then (w', None) else FlushWriter(w')
  }

  function Consume(w: Writer, c: Call): (Writer, Option<Fault>) {
    match c
    case SetColumns(names) =>
      var (l, f) := Send(w.line, Columns(names));
      (w.(line := l, columns := names), f)
    case Named(cells) => if w.columns == [] then (w, Some(NoColumns)) else Accept(w, RowFor(w.columns, cells))
    case Values(row) => Accept(w, row)
  }

  /** A driver stops at the first call that fails. */
  function Feed(w: Writer, calls: seq<Call>): (Writer, Option<Fault>)
    decreases |calls|
  {
    if calls == [] then (w, None)
    else
      var (w', f) := Consume(w, calls[0]);
      if f.Some? then (w', f) else Feed(w', calls[1..])
  }

  datatype Target = NotConnected | UnknownSession | Open

  /** `end` is the driver's own error, if its query fails after these calls. */
  function Stream(l: Line, target: Target, calls: seq<Call>, end: Option<Fault>): (Line, Option<Fault>) {
    if target != Open then Send(l, Failed)
    else
      var (w, f) := Feed(Writer(l, [], [], 0), calls);
      var (w', g) := FlushWriter(w);
      if f.Some? || end.Some? then Send(w'.line, Failed)
      else if g.Some? then (w'.line, g)
      else Send(w'.line, DoneFrame)
  }

  /** A frame that was too large is reported in a frame of its own. */
  function Respond(l: Line, target: Target, calls: seq<Call>, end: Option<Fault>): Line {
    var (l', f) := Stream(l, target, calls, end);
    if f == Some(TooLarge) then Send(l', Failed).0 else l'
  }

  // ----- as objects -----

  class StreamWriter {
    var line: Line
    var columns: seq<string>
    var rows: seq<Row>
    var rowCount: nat

    constructor (l: Line)
      ensures State() == Writer(l, [], [], 0)
    {
      line, columns, rows, rowCount := l, [], [], 0;
    }

    function State(): Writer
      reads this
    {
      Writer(line, columns, rows, rowCount)
    }

    method WriteFrame(f: Frame) returns (fault: Option<Fault>)
      modifies this`line
      ensures (line, fault) == Send(old(line), f)
    {
      fault := line.reject(f);
      if fault.Some? {
        return;
      }
      if line.left == Some(0) {
        return Some(Broken);
      }
      line := Line(line.reject, if line.left.Some? then Some(line.left.value - 1) else None, line.sent + [f]);
    }

    /** The halving loop: sends the longest of `rows`, its half, its quarter … that fits. */
    method WriteBatch(pending: seq<Row>) returns (n: nat, fault: Option<Fault>)
      requires pending != []
      modifies this`line
      ensures (line, n, fault) == SendBatch(old(line), pending)
    {
      var batch := pending;
      while true
        invariant batch != [] && SendBatch(line, batch) == SendBatch(old(line), pending)
        decreases |batch|
      {
        fault := WriteFrame(Rows(batch));
        if fault == None {
          return |batch|, None;
        }
        if fault != Some(TooLarge) || |batch| == 1 {
          return 0, fault;
        }
        batch := batch[..|batch| / 2];
      }
    }

    method FlushRows() returns (fault: Option<Fault>)
      modifies this
      ensures (State(), fault) == FlushWriter(old(State()))
    {
      var pending := rows;
      rows := [];
      while |pending| > 0
        invariant Flush(line, pending) == Flush(old(line), old(rows))
        invariant columns == old(columns) && rows == [] && rowCount == old(rowCount)
        decreases |pending|
      {
        var n, f := WriteBatch(pending);
        if f.Some? {
          return f;
        }
        pending := pending[n..];
      }
      fault := None;
    }

    method ConsumeCall(c: Call) returns (fault: Option<Fault>)
      modifies this
      ensures (State(), fault) == Consume(old(State()), c)
    {
      match c {
        case SetColumns(names) =>
          columns := names;
          fault := WriteFrame(Columns(names));
        case Named(cells) =>
          if columns == [] {
            return Some(NoColumns);
          }
          fault := ConsumeRow(RowFor(columns, cells));
        case Values(row) =>
          fault := ConsumeRow(row);
      }
    }

    method ConsumeRow(row: Row) returns (fault: Option<Fault>)
      modifies this
      ensures (State(), fault) == Accept(old(State()), row)
    {
      rows := rows + [row];
      rowCount := rowCount + 1;
      if |rows| < BATCH_SIZE {
        return None;
      }
      fault := FlushRows();
    }
  }

  method HandleStream(l: Line, target: Target, calls: seq<Call>, end: Option<Fault>) returns (l': Line)
    ensures l' == Respond(l, target, calls, end)
  {
    var w := new StreamWriter(l);
    var fault: Option<Fault>;
    if target != Open {
      fault := w.WriteFrame(Failed);
    } else {
      var i, stopped := 0, None;
      while i < |calls| && stopped == None
        invariant 0 <= i <= |calls|
        invariant Feed(Writer(l, [], [], 0), calls) == if stopped == None then Feed(w.State(), calls[i..]) else (w.State(), stopped)
      {
        assert calls[i..][1..] == calls[i + 1..];
        stopped := w.ConsumeCall(calls[i]);
        i := i + 1;
      }
      fault := w.FlushRows();
      if stopped.Some? || end.Some? {
        fault := w.WriteFrame(Failed);
      } else if fault == None {
        fault := w.WriteFrame(DoneFrame);
      }
    }
    if fault == Some(TooLarge) {
      var ignored := w.WriteFrame(Failed);
    }
    l' := w.line;
  }
}
