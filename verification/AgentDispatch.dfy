/** The reader and the worker of a driver agent as interleaved steps. */
module AgentDispatch {
  import opened Options
  import opened AgentQueue

  // Each step is what one thread does between two points where the other can run. A cancel notice takes
  // a context in one step and fires it in a later one.

  /** What one read gives: a request, an unreadable line with the id found in it, an empty line, or an
      error. Errors end the reading; a line over the limit is answered first. */
  datatype Frame =
    | Business(request: Request)
    | CancelNotice(target: int)
    | Malformed(id: int)
    | Blank
    | Overlong
    | ReadFailure

  predicate EndsReading(f: Frame) {
    f.Overlong? || f.ReadFailure?
  }

  datatype Reader = Reading(rest: seq<Frame>) | Firing(target: int, ctx: Context, rest: seq<Frame>) | Draining | Returned

  datatype Worker =
    | Idle
    | Holding(request: Request)
    | Running(request: Request, ctx: Context, generation: int, answered: bool)
    | Ending(ctx: Context)
    | Exited

  /** A frame handed to the response writer, by the reader itself or by the worker for a request. */
  datatype Output = Direct(id: int) | Answer(ctx: Context)

  datatype Shot = Shot(target: int, ctx: Context)

  datatype State = State(
    queue: QueueState,
    register: CancelState,
    reader: Reader,
    worker: Worker,
    started: seq<Request>,
    finished: nat,
    shots: seq<Shot>,
    output: seq<Output>)

  function Init(input: seq<Frame>): State {
    State(QueueState([], false), CancelState(0, 0, 0, None), Reading(input), Idle, [], 0, [], [])
  }

  datatype Step = Read | Fire | EndInput | Take | Register | Write | Unregister | Finish | Exit | Return

  predicate Enabled(s: State, step: Step) {
    match step
    case Read => s.reader.Reading? && s.reader.rest != []
    case Fire => s.reader.Firing?
    case EndInput => s.reader.Reading? && s.reader.rest == []
    case Take => s.worker.Idle? && NextTurn(s.queue).0.Handle?
    case Register => s.worker.Holding?
    case Write => s.worker.Running?
    case Unregister => s.worker.Running? && s.worker.answered
    case Finish => s.worker.Ending?
    case Exit => s.worker.Idle? && NextTurn(s.queue).0.Quit?
    case Return => s.reader.Draining? && s.worker.Exited?
  }

  function ReadFrame(s: State, f: Frame, rest: seq<Frame>): State {
    match f
    case Business(r) => s.(queue := Pushed(s.queue, r), reader := Reading(rest))
    case CancelNotice(target) =>
      (match Taken(s.register, target)
       case None => s.(reader := Reading(rest))
       case Some(ctx) => s.(reader := Firing(target, ctx, rest)))
    case Malformed(id) => s.(output := s.output + [Direct(id)], reader := Reading(rest))
    case Blank => s.(reader := Reading(rest))
    case Overlong => s.(output := s.output + [Direct(0)], reader := Reading([]))
    case ReadFailure => s.(reader := Reading([]))
  }

  function Do(s: State, step: Step): State
    requires Enabled(s, step)
  {
    match step
    case Read => ReadFrame(s, s.reader.rest[0], s.reader.rest[1..])
    case Fire => s.(shots := s.shots + [Shot(s.reader.target, s.reader.ctx)], reader := Reading(s.reader.rest))
    case EndInput => s.(queue := s.queue.(closed := true), reader := Draining)
    case Take => s.(queue := NextTurn(s.queue).1, worker := Holding(NextTurn(s.queue).0.request))
    case Register =>
      var r := s.worker.request;
      var register := Registered(s.register, r.id, |s.started|);
      s.(register := register, worker := Running(r, |s.started|, register.generation, false), started := s.started + [r])
    case Write => s.(output := s.output + [Answer(s.worker.ctx)], worker := s.worker.(answered := true))
    case Unregister =>
      s.(register := Unregistered(s.register, s.worker.request.id, s.worker.generation), worker := Ending(s.worker.ctx))
    case Finish => s.(worker := Idle, finished := s.finished + 1)
    case Exit => s.(worker := Exited)
    case Return => s.(reader := Returned)
  }

  ghost predicate IsRun(s: State, steps: seq<Step>)
    decreases |steps|
  {
    steps == [] || (Enabled(s, steps[0]) && IsRun(Do(s, steps[0]), steps[1..]))
  }

  ghost function After(s: State, steps: seq<Step>): State
    requires IsRun(s, steps)
    decreases |steps|
  {
    if steps == [] then s else After(Do(s, steps[0]), steps[1..])
  }

  // ----- what holds throughout -----

  /** What is still read after one frame. */
  function RestAfter(f: Frame, rest: seq<Frame>): seq<Frame> {
    if EndsReading(f) then [] else rest
  }

  function RequestOf(f: Frame): seq<Request> {
    if f.Business? then [f.request] else []
  }

  /** The id with which the reader answers a frame itself. */
  function DirectOf(f: Frame): seq<int> {
    match f
    case Malformed(id) => [id]
    case Overlong => [0]
    case _ => []
  }

  /** The business requests of some input, in order, up to an error. */
  function BusinessOf(input: seq<Frame>): seq<Request>
    decreases |input|
  {
    if input == [] then [] else RequestOf(input[0]) + BusinessOf(RestAfter(input[0], input[1..]))
  }

  /** The ids of the frames that the reader answers itself, in order, up to an error. */
  function DirectsOf(input: seq<Frame>): seq<int>
    decreases |input|
  {
    if input == [] then [] else DirectOf(input[0]) + DirectsOf(RestAfter(input[0], input[1..]))
  }

  /** The answers that the reader gives itself. */
  function Directs(output: seq<Output>): seq<int> {
    if output == [] then []
    else Directs(output[..|output| - 1]) + (if output[|output| - 1].Direct? then [output[|output| - 1].id] else [])
  }

  function Unread(r: Reader): seq<Frame> {
    match r
    case Reading(rest) => rest
    case Firing(_, _, rest) => rest
    case _ => []
  }

  function InHand(w: Worker): seq<Request> {
    if w.Holding? then [w.request] else []
  }

  /** Every business request is in exactly one place, and the places are in order. */
  ghost predicate Conserved(input: seq<Frame>, s: State) {
    s.started + InHand(s.worker) + s.queue.pending + BusinessOf(Unread(s.reader)) == BusinessOf(input)
  }

  /** Each unreadable request read so far has been answered once, in order. */
  ghost predicate DirectsRight(input: seq<Frame>, s: State) {
    Directs(s.output) + DirectsOf(Unread(s.reader)) == DirectsOf(input)
  }

  /** At most one request is under way: the last one started. */
  ghost predicate OneAtATime(s: State) {
    match s.worker
    case Running(r, ctx, g, _) => ctx == s.finished && |s.started| == ctx + 1 && s.started[ctx] == r
    case Ending(ctx) => ctx == s.finished && |s.started| == ctx + 1
    case _ => s.finished == |s.started|
  }

  /** The register points at the running request, and at nothing otherwise. */
  ghost predicate RegisterExact(s: State) {
    match s.worker
    case Running(r, ctx, g, _) => s.register.cancel == Some(ctx) && s.register.requestID == r.id && s.register.generation == g
    case _ => s.register.cancel == None
  }

  ghost predicate Names(s: State, target: int, ctx: Context) {
    target > 0 && ctx < |s.started| && s.started[ctx].id == target
  }

  /** Contexts taken or fired belong to the request that was named. */
  ghost predicate ShotsRight(s: State) {
    && (s.reader.Firing? ==> Names(s, s.reader.target, s.reader.ctx))
    && forall i :: 0 <= i < |s.shots| ==> Names(s, s.shots[i].target, s.shots[i].ctx)
  }

  ghost predicate ClosedRight(s: State) {
    && (s.queue.closed <==> s.reader.Draining? || s.reader.Returned?)
    && (s.worker.Exited? ==> s.queue.closed && s.queue.pending == [])
    && (s.reader.Returned? ==> s.worker.Exited?)
  }

  /** The frames of the requests follow each other in order; nothing is written for a request that
      has not started. */
  ghost predicate OutputOrdered(s: State) {
    && (forall i :: 0 <= i < |s.output| && s.output[i].Answer? ==> s.output[i].ctx < |s.started|)
    && (forall i, j :: 0 <= i < j < |s.output| && s.output[i].Answer? && s.output[j].Answer? ==>
          s.output[i].ctx <= s.output[j].ctx)
  }

  ghost predicate Inv(input: seq<Frame>, s: State) {
    && Conserved(input, s)
    && OneAtATime(s)
    && RegisterExact(s)
    && ShotsRight(s)
    && ClosedRight(s)
    && OutputOrdered(s)
    && DirectsRight(input, s)
    && Answered(s)
  }

  /** Every request that is through has been answered. */
  ghost predicate Answered(s: State) {
    && (forall j: Context :: j < s.finished ==> Answer(j) in s.output)
    && (s.worker.Ending? || (s.worker.Running? && s.worker.answered) ==> Answer(s.worker.ctx) in s.output)
  }

  lemma StepKeepsAnswered(s: State, step: Step)
    requires Enabled(s, step) && Answered(s) && OneAtATime(s)
    ensures Answered(Do(s, step))
  {
  }

  lemma DirectsSnoc(output: seq<Output>, o: Output)
    ensures Directs(output + [o]) == Directs(output) + if o.Direct? then [o.id] else []
  {
    assert (output + [o])[..|output|] == output;
  }

  /** What one read adds, and what is left to read. */
  lemma ReadAdds(s: State)
    requires Enabled(s, Read)
    ensures var f, r := s.reader.rest[0], Do(s, Read);
            && Unread(r.reader) == RestAfter(f, s.reader.rest[1..])
            && Directs(r.output) == Directs(s.output) + DirectOf(f)
            && (!s.queue.closed ==> r.queue.pending == s.queue.pending + RequestOf(f))
            && r.started == s.started && r.worker == s.worker
  {
    var f := s.reader.rest[0];
    if f.Malformed? || f.Overlong? {
      DirectsSnoc(s.output, Direct(DirectOf(f)[0]));
    }
  }

  lemma ReadKeepsDirects(input: seq<Frame>, s: State)
    requires DirectsRight(input, s) && Enabled(s, Read)
    ensures DirectsRight(input, Do(s, Read))
  {
    ReadAdds(s);
    var f := s.reader.rest[0];
    IdsConcat(Directs(s.output), DirectOf(f), DirectsOf(RestAfter(f, s.reader.rest[1..])));
  }

  lemma IdsConcat(a: seq<int>, b: seq<int>, c: seq<int>)
    ensures a + (b + c) == a + b + c
  {
  }

  lemma StepKeepsDirects(input: seq<Frame>, s: State, step: Step)
    requires DirectsRight(input, s) && Enabled(s, step)
    ensures DirectsRight(input, Do(s, step))
  {
    if step == Read {
      ReadKeepsDirects(input, s);
    } else if step == Write {
      DirectsSnoc(s.output, Answer(s.worker.ctx));
      assert Directs(s.output) + [] == Directs(s.output);
    }
  }

  lemma ReadConserves(input: seq<Frame>, s: State)
    requires Conserved(input, s) && Enabled(s, Read) && !s.queue.closed
    ensures Conserved(input, Do(s, Read))
  {
    ReadAdds(s);
    var f := s.reader.rest[0];
    RequestsConcat(s.started + InHand(s.worker), s.queue.pending, RequestOf(f), BusinessOf(RestAfter(f, s.reader.rest[1..])));
  }

  lemma RequestsConcat(a: seq<Request>, b: seq<Request>, c: seq<Request>, d: seq<Request>)
    ensures a + b + (c + d) == a + (b + c) + d
  {
  }

  lemma TakeConserves(input: seq<Frame>, s: State)
    requires Conserved(input, s) && Enabled(s, Take)
    ensures Conserved(input, Do(s, Take))
  {
    assert s.queue.pending == [s.queue.pending[0]] + s.queue.pending[1..];
    assert s.started + [] + s.queue.pending == s.started + [s.queue.pending[0]] + s.queue.pending[1..];
  }

  lemma RegisterConserves(input: seq<Frame>, s: State)
    requires Conserved(input, s) && Enabled(s, Register)
    ensures Conserved(input, Do(s, Register))
  {
    assert s.started + [s.worker.request] == (s.started + [s.worker.request]) + [];
  }

  lemma StepKeepsInv(input: seq<Frame>, s: State, step: Step)
    requires Inv(input, s) && Enabled(s, step)
    ensures Inv(input, Do(s, step))
  {
    StepConserves(input, s, step);
    StepKeepsThreads(s, step);
    StepKeepsShots(s, step);
    StepKeepsOutput(s, step);
    StepKeepsDirects(input, s, step);
    StepKeepsAnswered(s, step);
  }

  lemma StepKeepsThreads(s: State, step: Step)
    requires Enabled(s, step) && OneAtATime(s) && RegisterExact(s) && ClosedRight(s)
    ensures OneAtATime(Do(s, step)) && RegisterExact(Do(s, step)) && ClosedRight(Do(s, step))
  {
  }

  lemma StepKeepsShots(s: State, step: Step)
    requires Enabled(s, step) && ShotsRight(s) && OneAtATime(s) && RegisterExact(s)
    ensures ShotsRight(Do(s, step))
  {
    var s' := Do(s, step);
    forall i | 0 <= i < |s'.shots| ensures Names(s', s'.shots[i].target, s'.shots[i].ctx) {
      assert i < |s.shots| ==> Names(s, s.shots[i].target, s.shots[i].ctx);
    }
  }

  lemma StepKeepsOutput(s: State, step: Step)
    requires Enabled(s, step) && OutputOrdered(s) && OneAtATime(s)
    ensures OutputOrdered(Do(s, step))
  {
  }

  lemma StepConserves(input: seq<Frame>, s: State, step: Step)
    requires Inv(input, s) && Enabled(s, step)
    ensures Conserved(input, Do(s, step))
  {
    match step
    case Read => ReadConserves(input, s);
    case Fire =>
    case EndInput =>
    case Take => TakeConserves(input, s);
    case Register => RegisterConserves(input, s);
    case Write =>
    case Unregister =>
    case Finish =>
    case Exit =>
    case Return =>
  }

  lemma {:induction false} RunKeepsInv(input: seq<Frame>, s: State, steps: seq<Step>)
    requires Inv(input, s) && IsRun(s, steps)
    ensures Inv(input, After(s, steps))
    decreases |steps|
  {
    if steps != [] {
      StepKeepsInv(input, s, steps[0]);
      RunKeepsInv(input, Do(s, steps[0]), steps[1..]);
    }
  }

  lemma InitInv(input: seq<Frame>)
    ensures Inv(input, Init(input))
  {
    assert [] + [] + [] + BusinessOf(input) == BusinessOf(input);
    assert [] + DirectsOf(input) == DirectsOf(input);
  }

  // ----- main results -----

  /** In every interleaving: requests are started in arrival order, one at a time, and by the time the
      agent returns each has been started and finished exactly once and answered with at least one frame,
      the frames in order; each line that the reader answers itself has been answered once, in order.
      Requests after a read error are not requests of the agent. */
  lemma HandledOnceInOrder(input: seq<Frame>, steps: seq<Step>)
    requires IsRun(Init(input), steps)
    ensures var s := After(Init(input), steps);
            && s.started <= BusinessOf(input)
            && s.finished <= |s.started| <= s.finished + 1
            && (s.reader.Returned? ==> s.started == BusinessOf(input) && s.finished == |s.started|)
            && OutputOrdered(s)
            && (forall j: Context :: j < s.finished ==> Answer(j) in s.output)
            && Directs(s.output) <= DirectsOf(input)
            && (s.reader.Returned? ==> Directs(s.output) == DirectsOf(input))
  {
    InitInv(input);
    RunKeepsInv(input, Init(input), steps);
    InvMeans(input, After(Init(input), steps));
    DirectsMean(input, After(Init(input), steps));
  }

  lemma DirectsMean(input: seq<Frame>, s: State)
    requires DirectsRight(input, s)
    ensures Directs(s.output) <= DirectsOf(input)
    ensures Unread(s.reader) == [] ==> Directs(s.output) == DirectsOf(input)
  {
    assert Unread(s.reader) == [] ==> Directs(s.output) + DirectsOf(Unread(s.reader)) == Directs(s.output);
  }

  lemma InvMeans(input: seq<Frame>, s: State)
    requires Conserved(input, s) && OneAtATime(s) && ClosedRight(s)
    ensures s.started <= BusinessOf(input)
    ensures s.finished <= |s.started| <= s.finished + 1
    ensures s.reader.Returned? ==> s.started == BusinessOf(input) && s.finished == |s.started|
  {
    FirstOfFour(s.started, InHand(s.worker), s.queue.pending, BusinessOf(Unread(s.reader)));
  }

  lemma FirstOfFour(a: seq<Request>, b: seq<Request>, c: seq<Request>, d: seq<Request>)
    ensures a <= a + b + c + d
    ensures b == [] && c == [] && d == [] ==> a == a + b + c + d
  {
  }

  ghost predicate DistinctIds(rs: seq<Request>) {
    forall i, j :: 0 <= i < j < |rs| ==> rs[i].id != rs[j].id
  }

  /** In every interleaving: whatever a cancel notice fires, and however late, is the context of the
      one request it named. */
  lemma CancelsOnlyNamed(input: seq<Frame>, steps: seq<Step>)
    requires IsRun(Init(input), steps) && DistinctIds(BusinessOf(input))
    ensures var s := After(Init(input), steps);
            forall i :: 0 <= i < |s.shots| ==> HitsOnly(s, s.shots[i])
  {
    InitInv(input);
    RunKeepsInv(input, Init(input), steps);
    HandledOnceInOrder(input, steps);
    var s := After(Init(input), steps);
    DistinctPrefix(s.started, BusinessOf(input));
    forall i | 0 <= i < |s.shots| ensures HitsOnly(s, s.shots[i]) {
      NamedIsOnly(s, s.shots[i]);
    }
  }

  ghost predicate HitsOnly(s: State, shot: Shot) {
    && shot.target > 0
    && shot.ctx < |s.started|
    && forall j :: 0 <= j < |s.started| ==> (s.started[j].id == shot.target <==> j == shot.ctx)
  }

  lemma DistinctPrefix(a: seq<Request>, b: seq<Request>)
    requires a <= b && DistinctIds(b)
    ensures DistinctIds(a)
  {
    assert forall i :: 0 <= i < |a| ==> a[i] == b[i];
  }

  lemma NamedIsOnly(s: State, shot: Shot)
    requires DistinctIds(s.started) && Names(s, shot.target, shot.ctx)
    ensures HitsOnly(s, shot)
  {
  }

  /** A cancel notice takes a context exactly when the request it names is the one running then. */
  lemma CancelTakesIffRunning(input: seq<Frame>, steps: seq<Step>)
    requires IsRun(Init(input), steps)
    requires var s := After(Init(input), steps); Enabled(s, Read) && s.reader.rest[0].CancelNotice?
    ensures var s := After(Init(input), steps);
            var target := s.reader.rest[0].target;
            Do(s, Read).reader.Firing? <==> target > 0 && s.worker.Running? && s.worker.request.id == target
  {
    InitInv(input);
    RunKeepsInv(input, Init(input), steps);
  }

  /** The cancel that a step asks for: it reads a notice that names the request running at that moment. */
  function CancelDue(s: State, step: Step): seq<Shot>
    requires Enabled(s, step)
  {
    if step == Read && s.reader.rest[0].CancelNotice? && s.reader.rest[0].target > 0
       && s.worker.Running? && s.worker.request.id == s.reader.rest[0].target
    then [Shot(s.reader.rest[0].target, s.worker.ctx)] else []
  }

  ghost function CancelsDue(s: State, steps: seq<Step>): seq<Shot>
    requires IsRun(s, steps)
    decreases |steps|
  {
    if steps == [] then [] else CancelDue(s, steps[0]) + CancelsDue(Do(s, steps[0]), steps[1..])
  }

  /** The context that the reader has taken and not fired yet. */
  function InFlight(r: Reader): seq<Shot> {
    if r.Firing? then [Shot(r.target, r.ctx)] else []
  }

  lemma StepConservesCancels(s: State, step: Step)
    requires Enabled(s, step) && RegisterExact(s)
    ensures Do(s, step).shots + InFlight(Do(s, step).reader) == s.shots + InFlight(s.reader) + CancelDue(s, step)
  {
  }

  lemma ShotsConcat(a: seq<Shot>, b: seq<Shot>, c: seq<Shot>, d: seq<Shot>)
    ensures a + b + (c + d) == a + b + c + d
    ensures a + b + [] == a + b
  {
  }

  lemma {:induction false} RunConservesCancels(input: seq<Frame>, s: State, steps: seq<Step>)
    requires Inv(input, s) && IsRun(s, steps)
    ensures After(s, steps).shots + InFlight(After(s, steps).reader) == s.shots + InFlight(s.reader) + CancelsDue(s, steps)
    decreases |steps|
  {
    if steps == [] {
      ShotsConcat(s.shots, InFlight(s.reader), [], []);
    } else {
      var next := Do(s, steps[0]);
      StepKeepsInv(input, s, steps[0]);
      StepConservesCancels(s, steps[0]);
      RunConservesCancels(input, next, steps[1..]);
      ShotsConcat(s.shots, InFlight(s.reader), CancelDue(s, steps[0]), CancelsDue(next, steps[1..]));
    }
  }

  /** In every interleaving no cancel is lost and none is made up: what has been fired, and after it what
      the reader has in hand, is one shot for each notice that named the request running when it was read,
      in order, with that request's context; when the reading is over all of them have been fired. */
  lemma CancelsConserved(input: seq<Frame>, steps: seq<Step>)
    requires IsRun(Init(input), steps)
    ensures var s := After(Init(input), steps);
            && s.shots + InFlight(s.reader) == CancelsDue(Init(input), steps)
            && (s.reader.Draining? || s.reader.Returned? ==> s.shots == CancelsDue(Init(input), steps))
  {
    InitInv(input);
    RunConservesCancels(input, Init(input), steps);
    var s := After(Init(input), steps);
    assert [] + [] + CancelsDue(Init(input), steps) == CancelsDue(Init(input), steps);
    assert s.shots + [] == s.shots;
  }

  /** No interleaving gets stuck: until the agent has returned some thread can move. */
  lemma NeverStuck(input: seq<Frame>, steps: seq<Step>)
    requires IsRun(Init(input), steps) && !After(Init(input), steps).reader.Returned?
    ensures exists step :: Enabled(After(Init(input), steps), step)
  {
    InitInv(input);
    RunKeepsInv(input, Init(input), steps);
    var s := After(Init(input), steps);
    var step := match s.reader
      case Reading(rest) => if rest != [] then Read else EndInput
      case Firing(_, _, _) => Fire
      case _ =>
        (match s.worker
         case Idle => if s.queue.pending != [] then Take else Exit
         case Holding(_) => Register
         case Running(_, _, _, answered) => if answered then Unregister else Write
         case Ending(_) => Finish
         case Exited => Return);
    assert Enabled(s, step);
  }

  function WorkLeft(s: State): nat {
    var reading := match s.reader case Reading(rest) => 7 * |rest| + 2 case Firing(_, _, rest) => 7 * |rest| + 3 case Draining => 1 case Returned => 0;
    var working := match s.worker case Idle => 1 case Holding(_) => 5 case Running(_, _, _, answered) => if answered then 3 else 4 case Ending(_) => 2 case Exited => 0;
    reading + working + 5 * |s.queue.pending|
  }

  /** Every step but writing one more frame for a request brings the return closer. */
  lemma StepsEnd(s: State, step: Step)
    requires Enabled(s, step) && (step == Write ==> !s.worker.answered)
    ensures WorkLeft(Do(s, step)) < WorkLeft(s)
  {
    match step
    case Read =>
    case Fire =>
    case EndInput =>
    case Take =>
    case Register =>
    case Write =>
    case Unregister =>
    case Finish =>
    case Exit =>
    case Return =>
  }
}
