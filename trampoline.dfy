/** The generator trampoline of `make(interpreter)(generator)`.

    A generator is a coroutine: resuming it (with `next()`, `next(v)` or
    `throw(e)`) either raises an uncaught error, returns a final value, or
    yields an instruction and suspends in a new state. The driver resumes it,
    hands every yielded instruction to the interpreter, and feeds the settled
    result of the interpreter back in, until the generator finishes.

    Promises are modelled by their settled outcome only; a session that does not
    settle within `fuel` resumptions is reported as `Pending`.
 */
module Trampoline {

  /** The resume thunk the driver calls: `generator.next()`,
      `generator.next(value)` or `generator.throw(err)`. */
  datatype Resumption<V, E> = Start | Next(value: V) | Throw(error: E)

  /** What one resumption of the generator produces: an error escaping the
      generator body, an iteration with `done` set, or an iteration that
      carries a yielded instruction together with the suspended state. */
  datatype Iteration<S, I, V, E> =
    | Raised(error: E)
    | Done(value: V)
    | Yielded(instr: I, next: S)

  /** The generator's body as a transition from its suspended state. */
  type Body<!S, I, !V, !E> = (S, Resumption<V, E>) -> Iteration<S, I, V, E>

  /** What the interpreter does with one instruction: return a plain value,
      return a promise that fulfils or rejects, throw synchronously, or return a
      promise that never settles. */
  datatype Outcome<V, E> =
    | Value(value: V)
    | Fulfilled(value: V)
    | Rejected(error: E)
    | SyncThrow(error: E)
    | Unsettled

  /** The state of the promise a drive session returns. */
  datatype Settlement<V, E> = Resolved(value: V) | Failed(error: E) | Pending

  /** One observable step of a session: a resumption of the generator, or a
      call of the interpreter. */
  datatype Event<I, V, E> = Resumed(input: Resumption<V, E>) | Interpreted(instr: I)

  /** The result of a session: its settlement, the events in the order they
      happened, and the generator's state at its last suspension. */
  datatype Session<S, I, V, E> =
    Session(outcome: Settlement<V, E>, trace: seq<Event<I, V, E>>, suspended: S)

  /** How the driver resumes the generator once an interpreter result has
      settled: values (plain or fulfilled) are sent with `next`, failures (thrown
      or rejected) are injected with `throw`; a result that never settles
      resumes nothing. */
  function Continuation<V, E>(o: Outcome<V, E>): (r: Option<Resumption<V, E>>)
    ensures r.None? <==> o.Unsettled?
    ensures r.Some? ==> !r.value.Start?
    ensures r.Some? && r.value.Next? <==> o.Value? || o.Fulfilled?
    ensures r.Some? && r.value.Throw? <==> o.Rejected? || o.SyncThrow?
    ensures o.Value? || o.Fulfilled? ==> r == Some(Next(o.value))
    ensures o.Rejected? || o.SyncThrow? ==> r == Some(Throw(o.error))
  {
    match o
    case Value(v) => Some(Next(v))
    case Fulfilled(v) => Some(Next(v))
    case Rejected(e) => Some(Throw(e))
    case SyncThrow(e) => Some(Throw(e))
    case Unsettled => None
  }

  datatype Option<T> = None | Some(value: T)

  /** `getNextPromise`: resume the generator with `resume`, settle on an
      escaping error or on `done`, otherwise interpret the yielded instruction
      and go on with the resumption its result calls for. Each resumption
      consumes one unit of `fuel`, so a session records at most two events
      per unit, begins with the resumption it was given, and settles only
      right after resuming the generator. */
  function Drive<S, I, V, E>(body: Body<S, I, V, E>, interp: I -> Outcome<V, E>,
                             s: S, resume: Resumption<V, E>, fuel: nat): (r: Session<S, I, V, E>)
    decreases fuel
    ensures |r.trace| <= 2 * fuel
    ensures fuel > 0 ==> r.trace != [] && r.trace[0] == Resumed(resume)
    ensures !r.outcome.Pending? ==> r.trace != [] && r.trace[|r.trace| - 1].Resumed?
  {
    if fuel == 0 then Session(Pending, [], s)
    else
      match body(s, resume)
      case Raised(e) => Session(Failed(e), [Resumed(resume)], s)
      case Done(v) => Session(Resolved(v), [Resumed(resume)], s)
      case Yielded(instr, next) =>
        var head := [Resumed(resume), Interpreted(instr)];
        match Continuation(interp(instr))
        case None => Session(Pending, head, next)
        case Some(resume') =>
          var rest := Drive(body, interp, next, resume', fuel - 1);
          Session(rest.outcome, head + rest.trace, rest.suspended)
  }

  /** The exported factory: `make(interpreter)` is a function from a generator
      (its body and current state) to the session that starts it with
      `generator.next()`. */
  function Make<S, I, V, E>(interp: I -> Outcome<V, E>, fuel: nat): (Body<S, I, V, E>, S) -> Session<S, I, V, E>
  {
    (body: Body<S, I, V, E>, s: S) => Drive(body, interp, s, Start, fuel)
  }

  /** Every session `make` starts begins with `generator.next()`, without an
      argument. */
  lemma MakeStartsWithNext<S, I, V, E>(interp: I -> Outcome<V, E>, fuel: nat, body: Body<S, I, V, E>, s: S)
    requires fuel > 0
    ensures Make(interp, fuel)(body, s).trace != []
    ensures Make(interp, fuel)(body, s).trace[0] == Resumed(Start)
  {
  }

  /** A generator object: its body and the state it is suspended in. Once a
      resumption returns `done` or raises, the generator is completed. */
  class Generator<S, I, V, E> {
    const body: Body<S, I, V, E>
    var state: S
    var completed: bool

    constructor (body: Body<S, I, V, E>, initial: S)
      ensures this.body == body && state == initial && !completed
    {
      this.body := body;
      state := initial;
      completed := false;
    }

    /** `next()`, `next(value)` or `throw(err)` on a suspended generator. */
    method Resume(input: Resumption<V, E>) returns (it: Iteration<S, I, V, E>)
      requires !completed
      modifies this
      ensures it == body(old(state), input)
      ensures it.Yielded? ==> state == it.next && !completed
      ensures !it.Yielded? ==> state == old(state) && completed
    {
      it := body(state, input);
      if it.Yielded? {
        state := it.next;
      } else {
        completed := true;
      }
    }
  }

  /** `getNextPromise(interpreter, generator, resume)` on the generator object.
      The generator is completed exactly when the session has settled, so the
      driver never resumes a finished generator. */
  method GetNextPromise<S, I, V, E>(interp: I -> Outcome<V, E>, gen: Generator<S, I, V, E>,
                                    resume: Resumption<V, E>, fuel: nat)
      returns (outcome: Settlement<V, E>, trace: seq<Event<I, V, E>>)
    requires !gen.completed
    modifies gen
    decreases fuel
    ensures Session(outcome, trace, gen.state) == Drive(gen.body, interp, old(gen.state), resume, fuel)
    ensures gen.completed <==> !outcome.Pending?
  {
    if fuel == 0 {
      return Pending, [];
    }
    var iteration := gen.Resume(resume);
    match iteration
    case Raised(e) =>
      outcome, trace := Failed(e), [Resumed(resume)];
    case Done(v) =>
      outcome, trace := Resolved(v), [Resumed(resume)];
    case Yielded(instr, _) =>
      var head := [Resumed(resume), Interpreted(instr)];
      var rest;
      match interp(instr)
      case SyncThrow(e) =>
        outcome, rest := GetNextPromise(interp, gen, Throw(e), fuel - 1);
        trace := head + rest;
      case Value(v) =>
        outcome, rest := GetNextPromise(interp, gen, Next(v), fuel - 1);
        trace := head + rest;
      case Fulfilled(v) =>
        outcome, rest := GetNextPromise(interp, gen, Next(v), fuel - 1);
        trace := head + rest;
      case Rejected(e) =>
        outcome, rest := GetNextPromise(interp, gen, Throw(e), fuel - 1);
        trace := head + rest;
      case Unsettled =>
        outcome, trace := Pending, head;
  }

  /** `make(interpreter)(generator)` on the generator object: start it with
      `generator.next()`. */
  method Launch<S, I, V, E>(interp: I -> Outcome<V, E>, gen: Generator<S, I, V, E>, fuel: nat)
      returns (outcome: Settlement<V, E>, trace: seq<Event<I, V, E>>)
    requires !gen.completed
    modifies gen
    ensures Session(outcome, trace, gen.state) == Make(interp, fuel)(gen.body, old(gen.state))
    ensures fuel > 0 ==> trace != [] && trace[0] == Resumed(Start)
    ensures gen.completed <==> !outcome.Pending?
  {
    outcome, trace := GetNextPromise(interp, gen, Start, fuel);
  }
}
