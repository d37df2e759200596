/** The two objects that the reader and the worker of a driver agent share. */
module AgentQueue {
  import opened Options

  // Each is guarded by its own lock: the queue of business requests, and the register of the request that
  // can be cancelled.

  datatype Request = Request(id: int, body: seq<char>)

  /** A request context, numbered in the order in which the worker creates them. */
  type Context = nat

  // ----- what the objects hold -----

  datatype QueueState = QueueState(pending: seq<Request>, closed: bool)

  datatype CancelState = CancelState(nextGeneration: int, requestID: int, generation: int, cancel: Option<Context>)

  const MIN_INT64: int := -0x8000_0000_0000_0000

  const MAX_INT64: int := 0x7fff_ffff_ffff_ffff

  /** `int64` increment, which wraps around. */
  function Increment(n: int): int {
    if n == MAX_INT64 then MIN_INT64 else n + 1
  }

  function Pushed(q: QueueState, r: Request): QueueState {
    if q.closed then q else q.(pending := q.pending + [r])
  }

  datatype Turn = Wait | Quit | Handle(request: Request)

  /** What the worker does next, and the queue it leaves. */
  function NextTurn(q: QueueState): (Turn, QueueState) {
    if q.pending != [] then (Handle(q.pending[0]), q.(pending := q.pending[1..]))
    else if q.closed then (Quit, q)
    else (Wait, q)
  }

  function Registered(c: CancelState, id: int, ctx: Context): CancelState {
    CancelState(Increment(c.nextGeneration), id, Increment(c.nextGeneration), Some(ctx))
  }

  function Unregistered(c: CancelState, id: int, generation: int): CancelState {
    if c.generation != generation || c.requestID != id then c
    else c.(requestID := 0, cancel := None)
  }

  /** The context that a cancel notice for `target` gets hold of. */
  function Taken(c: CancelState, target: int): Option<Context> {
    if target <= 0 || c.requestID != target then None else c.cancel
  }

  /** The queue gives requests out in the order in which they came; a closed one takes no more, gives out what it
      has, and then tells the worker to quit. */
  lemma QueueProtocol(q: QueueState, r: Request)
    ensures q.closed ==> NextTurn(Pushed(q, r)) == NextTurn(q)
    ensures q.pending == [] ==> NextTurn(q) == (if q.closed then Quit else Wait, q)
    ensures q.pending == [] && !q.closed ==> NextTurn(Pushed(q, r)) == (Handle(r), q)
    ensures q.pending != [] ==>
              && NextTurn(q).0 == Handle(q.pending[0]) && [q.pending[0]] + NextTurn(q).1.pending == q.pending
              && NextTurn(Pushed(q, r)) == (NextTurn(q).0, Pushed(NextTurn(q).1, r))
  {
    if q.pending == [] {
      assert ([] + [r])[1..] == [];
    } else {
      assert (q.pending + [r])[1..] == q.pending[1..] + [r];
    }
  }

  /** Registering and unregistering: a notice takes the context of the registered request if it names it;
      an unregister for another generation, even of the same id, leaves the registration alone, and the one
      for its own generation leaves nothing to take. */
  lemma RegistrationProtocol(c: CancelState, id: int, ctx: Context, target: int, generation: int)
    ensures var r := Registered(c, id, ctx);
            && r.generation == Increment(c.nextGeneration) == r.nextGeneration
            && Taken(r, target) == (if target == id && id > 0 then Some(ctx) else None)
            && (generation != r.generation ==> Unregistered(r, id, generation) == r)
            && (target != id ==> Unregistered(r, target, r.generation) == r)
            && Taken(Unregistered(r, id, r.generation), target) == None
            && Unregistered(r, id, r.generation).nextGeneration == r.nextGeneration
  {
  }

  // ----- the objects -----

  class BusinessQueue {
    var pending: seq<Request>
    var closed: bool

    constructor ()
      ensures State() == QueueState([], false)
    {
      pending, closed := [], false;
    }

    function State(): QueueState
      reads this
    {
      QueueState(pending, closed)
    }

    method Push(r: Request)
      modifies this
      ensures State() == Pushed(old(State()), r)
    {
      if closed {
        return;
      }
      pending := pending + [r];
    }

    method Close()
      modifies this
      ensures State() == old(State()).(closed := true)
    {
      closed := true;
    }

    /** One round of the worker's loop under the lock; on `Wait` it sleeps and asks again. */
    method Next() returns (turn: Turn)
      modifies this
      ensures (turn, State()) == NextTurn(old(State()))
    {
      if |pending| == 0 && !closed {
        return Wait;
      }
      if |pending| == 0 {
        return Quit;
      }
      turn := Handle(pending[0]);
      pending := pending[1..];
    }
  }

  class Canceller {
    var nextGeneration: int
    var requestID: int
    var generation: int
    var cancel: Option<Context>

    constructor ()
      ensures State() == CancelState(0, 0, 0, None)
    {
      nextGeneration, requestID, generation, cancel := 0, 0, 0, None;
    }

    function State(): CancelState
      reads this
    {
      CancelState(nextGeneration, requestID, generation, cancel)
    }

    method Register(id: int, ctx: Context) returns (g: int)
      modifies this
      ensures State() == Registered(old(State()), id, ctx) && g == generation
    {
      nextGeneration := Increment(nextGeneration);
      requestID := id;
      generation := nextGeneration;
      cancel := Some(ctx);
      g := generation;
    }

    method Unregister(id: int, g: int)
      modifies this
      ensures State() == Unregistered(old(State()), id, g)
    {
      if generation != g || requestID != id {
        return;
      }
      requestID := 0;
      cancel := None;
    }

    /** The part of a cancel notice that runs under the lock; the caller fires the context later. */
    method Take(target: int) returns (ctx: Option<Context>)
      ensures ctx == Taken(State(), target)
    {
      if target <= 0 {
        return None;
      }
      if requestID != target || cancel == None {
        return None;
      }
      ctx := cancel;
    }
  }
}
