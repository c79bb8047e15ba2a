/** What a drive session guarantees: the shape of its trace, its agreement with
    the generator driven by hand, how interpreter failures are routed, and how
    the settlement depends on fuel and on the interpreter. */
module TrampolineProperties {
  import opened Trampoline

  /** The resumptions of a trace, in order. */
  function Inputs<I, V, E>(t: seq<Event<I, V, E>>): (r: seq<Resumption<V, E>>)
    ensures |r| <= |t|
  {
    if t == [] then []
    else (if t[0].Resumed? then [t[0].input] else []) + Inputs(t[1..])
  }

  /** The instructions handed to the interpreter in a trace, in order. */
  function Instructions<I, V, E>(t: seq<Event<I, V, E>>): (r: seq<I>)
    ensures |r| <= |t|
  {
    if t == [] then []
    else (if t[0].Interpreted? then [t[0].instr] else []) + Instructions(t[1..])
  }

  lemma {:induction false} InputsAppend<I, V, E>(a: seq<Event<I, V, E>>, b: seq<Event<I, V, E>>)
    ensures Inputs(a + b) == Inputs(a) + Inputs(b)
  {
    if a != [] {
      assert (a + b)[1..] == a[1..] + b;
      InputsAppend(a[1..], b);
    } else {
      assert a + b == b;
    }
  }

  lemma {:induction false} InstructionsAppend<I, V, E>(a: seq<Event<I, V, E>>, b: seq<Event<I, V, E>>)
    ensures Instructions(a + b) == Instructions(a) + Instructions(b)
  {
    if a != [] {
      assert (a + b)[1..] == a[1..] + b;
      InstructionsAppend(a[1..], b);
    } else {
      assert a + b == b;
    }
  }

  /** The events of one round of a session: a resumption that yields, and the
      interpreter call on what it yielded. */
  lemma RoundEvents<I, V, E>(resume: Resumption<V, E>, instr: I)
    ensures Inputs([Resumed(resume), Interpreted(instr)]) == [resume]
    ensures Instructions([Resumed(resume), Interpreted(instr)]) == [instr]
  {
  }

  /** The iterations a generator produces when it is resumed by hand with
      `inputs`, one after the other, up to and including the first one that
      completes it. */
  function Feed<S, I, V, E>(body: Body<S, I, V, E>, s: S, inputs: seq<Resumption<V, E>>): (its: seq<Iteration<S, I, V, E>>)
    ensures inputs != [] ==> its != [] && its[0] == body(s, inputs[0])
    decreases |inputs|
  {
    if inputs == [] then []
    else
      var it := body(s, inputs[0]);
      if it.Yielded? then [it] + Feed(body, it.next, inputs[1..]) else [it]
  }

  /** The instructions yielded by a list of iterations, in order. */
  function Yields<S, I, V, E>(its: seq<Iteration<S, I, V, E>>): (r: seq<I>)
    ensures |r| <= |its|
  {
    if its == [] then []
    else (if its[0].Yielded? then [its[0].instr] else []) + Yields(its[1..])
  }

  /** The settlement a session reaches when its last resumption produced `it`. */
  function Conclusion<S, I, V, E>(it: Iteration<S, I, V, E>): (r: Settlement<V, E>)
    ensures r.Pending? <==> it.Yielded?
  {
    match it
    case Raised(e) => Failed(e)
    case Done(v) => Resolved(v)
    case Yielded(_, _) => Pending
  }

  /** Resumptions and interpreter calls alternate, starting with the resumption
      the session was entered with; a session has settled exactly when its last
      event is a resumption. */
  lemma {:induction false} TraceAlternates<S, I, V, E>(body: Body<S, I, V, E>, interp: I -> Outcome<V, E>,
                                                      s: S, resume: Resumption<V, E>, fuel: nat)
    ensures var r := Drive(body, interp, s, resume, fuel);
            forall k :: 0 <= k < |r.trace| ==> (r.trace[k].Resumed? <==> k % 2 == 0)
    ensures var r := Drive(body, interp, s, resume, fuel);
            fuel > 0 ==> r.trace != [] && r.trace[0] == Resumed(resume)
    ensures var r := Drive(body, interp, s, resume, fuel);
            |r.trace| % 2 == 1 <==> !r.outcome.Pending?
    decreases fuel
  {
    if fuel > 0 {
      var it := body(s, resume);
      if it.Yielded? {
        var c := Continuation(interp(it.instr));
        if c.Some? {
          var rest := Drive(body, interp, it.next, c.value, fuel - 1);
          TraceAlternates(body, interp, it.next, c.value, fuel - 1);
          var t := [Resumed(resume), Interpreted(it.instr)] + rest.trace;
          assert Drive(body, interp, s, resume, fuel).trace == t;
          forall k | 2 <= k < |t| ensures (t[k].Resumed? <==> k % 2 == 0) {
            assert t[k] == rest.trace[k - 2];
          }
        }
      }
    }
  }

  /** After every interpreter call except a last one, the generator is resumed
      once, with what the settled result calls for: `next(value)` for a plain
      or fulfilled value, `throw(err)` for a synchronous throw or a rejection. */
  lemma {:induction false} InjectsSettledResult<S, I, V, E>(body: Body<S, I, V, E>, interp: I -> Outcome<V, E>,
                                                           s: S, resume: Resumption<V, E>, fuel: nat)
    ensures var t := Drive(body, interp, s, resume, fuel).trace;
            forall k :: 0 <= k < |t| - 1 && t[k].Interpreted? ==>
              t[k + 1].Resumed? && Continuation(interp(t[k].instr)) == Some(t[k + 1].input)
    decreases fuel
  {
    if fuel > 0 {
      var it := body(s, resume);
      if it.Yielded? {
        var c := Continuation(interp(it.instr));
        if c.Some? {
          var rest := Drive(body, interp, it.next, c.value, fuel - 1);
          InjectsSettledResult(body, interp, it.next, c.value, fuel - 1);
          TraceAlternates(body, interp, it.next, c.value, fuel - 1);
          var t := [Resumed(resume), Interpreted(it.instr)] + rest.trace;
          assert Drive(body, interp, s, resume, fuel).trace == t;
          forall k | 0 <= k < |t| - 1 && t[k].Interpreted?
            ensures t[k + 1].Resumed? && Continuation(interp(t[k].instr)) == Some(t[k + 1].input)
          {
            if k >= 2 {
              assert t[k] == rest.trace[k - 2] && t[k + 1] == rest.trace[k - 1];
            }
          }
        }
      }
    }
  }

  /** Session `r`, entered with `resume` on a generator in state `s`, agrees
      with the generator resumed by hand: the resumptions of its trace, fed to the
      generator one after the other, yield exactly the instructions the
      interpreter received, in order, one per resumption but the last of a
      settled session, and the settlement is that of the last resumption. */
  ghost predicate Replays<S, I, V, E>(body: Body<S, I, V, E>, s: S, resume: Resumption<V, E>, r: Session<S, I, V, E>) {
    var inputs := Inputs(r.trace);
    var its := Feed(body, s, inputs);
    && inputs != [] && inputs[0] == resume
    && |its| == |inputs|
    && Instructions(r.trace) == Yields(its)
    && r.outcome == Conclusion(its[|its| - 1])
    && |inputs| == |Instructions(r.trace)| + (if r.outcome.Pending? then 0 else 1)
  }

  /** A round that yields `instr`, followed by a session that agrees with the
      generator from the state it suspended in, agrees with the generator. */
  lemma ReplayRound<S, I, V, E>(body: Body<S, I, V, E>, s: S, resume: Resumption<V, E>,
                                next: Resumption<V, E>, rest: Session<S, I, V, E>)
    requires body(s, resume).Yielded?
    requires Replays(body, body(s, resume).next, next, rest)
    ensures Replays(body, s, resume,
                    Session(rest.outcome, [Resumed(resume), Interpreted(body(s, resume).instr)] + rest.trace, rest.suspended))
  {
    var it := body(s, resume);
    var head: seq<Event<I, V, E>> := [Resumed(resume), Interpreted(it.instr)];
    var t := head + rest.trace;
    var restInputs := Inputs(rest.trace);
    var restIts := Feed(body, it.next, restInputs);
    assert Inputs(t) == [resume] + restInputs by {
      RoundEvents(resume, it.instr);
      InputsAppend(head, rest.trace);
    }
    assert Instructions(t) == [it.instr] + Instructions(rest.trace) by {
      RoundEvents(resume, it.instr);
      InstructionsAppend(head, rest.trace);
    }
    var its := Feed(body, s, [resume] + restInputs);
    assert its == [it] + restIts by {
      assert ([resume] + restInputs)[1..] == restInputs;
    }
    assert Yields(its) == [it.instr] + Yields(restIts) by {
      assert its[1..] == restIts;
    }
    assert its[|its| - 1] == restIts[|restIts| - 1];
  }

  /** The driver interprets exactly the instructions the generator yields, in
      yield order, once each, and settles exactly as the generator's last
      resumption does. So in this model, where a generator's return value is a
      plain value, a rejection can only come from an error escaping the
      generator, and a resolution only from `done`. */
  lemma {:induction false} DriveReplaysGenerator<S, I, V, E>(body: Body<S, I, V, E>, interp: I -> Outcome<V, E>,
                                                            s: S, resume: Resumption<V, E>, fuel: nat)
    requires fuel > 0
    ensures Replays(body, s, resume, Drive(body, interp, s, resume, fuel))
    decreases fuel
  {
    var r := Drive(body, interp, s, resume, fuel);
    var it := body(s, resume);
    match it
    case Raised(_) =>
      assert r.trace == [Resumed(resume)];
      assert Inputs(r.trace) == [resume];
      assert Instructions(r.trace) == [];
    case Done(_) =>
      assert r.trace == [Resumed(resume)];
      assert Inputs(r.trace) == [resume];
      assert Instructions(r.trace) == [];
    case Yielded(instr, next) =>
      RoundEvents(resume, instr);
      var c := Continuation(interp(instr));
      if c.None? || fuel == 1 {
        assert r.trace == [Resumed(resume), Interpreted(instr)];
        assert Yields(Feed(body, s, [resume])) == [instr] by {
          assert Feed(body, s, [resume]) == [it] + Feed(body, next, []);
          assert [it] + Feed(body, next, []) == [it];
        }
      } else {
        var rest := Drive(body, interp, next, c.value, fuel - 1);
        DriveReplaysGenerator(body, interp, next, c.value, fuel - 1);
        ReplayRound(body, s, resume, c.value, rest);
      }
  }

  /** An error escaping the resumption settles the session with exactly that
      error, with no interpreter call and no further resumption. */
  lemma RaisedErrorRejects<S, I, V, E>(body: Body<S, I, V, E>, interp: I -> Outcome<V, E>,
                                       s: S, resume: Resumption<V, E>, fuel: nat)
    requires fuel > 0 && body(s, resume).Raised?
    ensures Drive(body, interp, s, resume, fuel) ==
            Session(Failed(body(s, resume).error), [Resumed(resume)], s)
  {
  }

  /** A completed iteration resolves the session with its value, and the
      interpreter is not called. */
  lemma DoneResolves<S, I, V, E>(body: Body<S, I, V, E>, interp: I -> Outcome<V, E>,
                                 s: S, resume: Resumption<V, E>, fuel: nat)
    requires fuel > 0 && body(s, resume).Done?
    ensures Drive(body, interp, s, resume, fuel) ==
            Session(Resolved(body(s, resume).value), [Resumed(resume)], s)
  {
  }

  /** A synchronous throw or a rejection from the interpreter is not itself a
      session failure: it is injected with `throw(err)`, and the session then
      rejects, resolves or continues as the generator's answer to that injection
      says, without the instruction being interpreted again. */
  lemma InterpreterFailureIsInjected<S, I, V, E>(body: Body<S, I, V, E>, interp: I -> Outcome<V, E>,
                                                 s: S, resume: Resumption<V, E>, fuel: nat, e: E)
    requires fuel > 1 && body(s, resume).Yielded?
    requires interp(body(s, resume).instr) == SyncThrow(e) || interp(body(s, resume).instr) == Rejected(e)
    ensures var r := Drive(body, interp, s, resume, fuel);
            var it := body(s, resume);
            var after := body(it.next, Throw(e));
            && |r.trace| >= 3
            && r.trace[..3] == [Resumed(resume), Interpreted(it.instr), Resumed(Throw(e))]
            && (after.Raised? ==> r.outcome == Failed(after.error))
            && (after.Done? ==> r.outcome == Resolved(after.value))
            && (after.Yielded? ==> |r.trace| >= 4 && r.trace[3] == Interpreted(after.instr))
  {
  }

  /** A plain value or a fulfilled promise from the interpreter is sent to the
      generator with `next(value)`, carrying exactly that value; the session
      then settles or interprets the next yield as the generator's answer says. */
  lemma InterpreterValueIsSent<S, I, V, E>(body: Body<S, I, V, E>, interp: I -> Outcome<V, E>,
                                           s: S, resume: Resumption<V, E>, fuel: nat, v: V)
    requires fuel > 1 && body(s, resume).Yielded?
    requires interp(body(s, resume).instr) == Value(v) || interp(body(s, resume).instr) == Fulfilled(v)
    ensures var r := Drive(body, interp, s, resume, fuel);
            var it := body(s, resume);
            var after := body(it.next, Next(v));
            && |r.trace| >= 3
            && r.trace[..3] == [Resumed(resume), Interpreted(it.instr), Resumed(Next(v))]
            && (after.Raised? ==> r.outcome == Failed(after.error))
            && (after.Done? ==> r.outcome == Resolved(after.value))
            && (after.Yielded? ==> |r.trace| >= 4 && r.trace[3] == Interpreted(after.instr))
  {
  }

  /** The session depends on the interpreter only through how each settled
      result resumes the generator. */
  lemma {:induction false} OnlyContinuationMatters<S, I, V, E>(body: Body<S, I, V, E>,
                                                              interp1: I -> Outcome<V, E>, interp2: I -> Outcome<V, E>,
                                                              s: S, resume: Resumption<V, E>, fuel: nat)
    requires forall i :: Continuation(interp1(i)) == Continuation(interp2(i))
    ensures Drive(body, interp1, s, resume, fuel) == Drive(body, interp2, s, resume, fuel)
    decreases fuel
  {
    if fuel > 0 {
      match body(s, resume)
      case Raised(_) =>
      case Done(_) =>
      case Yielded(instr, next) =>
        assert Continuation(interp1(instr)) == Continuation(interp2(instr));
        var c := Continuation(interp1(instr));
        if c.Some? {
          OnlyContinuationMatters(body, interp1, interp2, next, c.value, fuel - 1);
        }
    }
  }

  /** `Promise.resolve(value)`: a plain value seen as an already fulfilled promise. */
  function Promote<V, E>(o: Outcome<V, E>): (r: Outcome<V, E>)
    ensures !r.Value?
    ensures Continuation(r) == Continuation(o)
    ensures !o.Value? ==> r == o
  {
    if o.Value? then Fulfilled(o.value) else o
  }

  /** A synchronous throw seen as a rejected promise. */
  function AsRejection<V, E>(o: Outcome<V, E>): (r: Outcome<V, E>)
    ensures !r.SyncThrow?
    ensures Continuation(r) == Continuation(o)
    ensures !o.SyncThrow? ==> r == o
  {
    if o.SyncThrow? then Rejected(o.error) else o
  }

  /** Returning a plain value and returning a fulfilled promise of it drive the
      session identically. */
  lemma {:induction false} PlainValueActsAsFulfilled<S, I, V, E>(body: Body<S, I, V, E>, interp: I -> Outcome<V, E>,
                                                                s: S, resume: Resumption<V, E>, fuel: nat)
    ensures Drive(body, interp, s, resume, fuel) == Drive(body, i => Promote(interp(i)), s, resume, fuel)
  {
    OnlyContinuationMatters(body, interp, i => Promote(interp(i)), s, resume, fuel);
  }

  /** Throwing synchronously and returning a rejected promise drive the session
      identically: both give the generator the same chance to catch. */
  lemma {:induction false} SyncThrowActsAsRejection<S, I, V, E>(body: Body<S, I, V, E>, interp: I -> Outcome<V, E>,
                                                               s: S, resume: Resumption<V, E>, fuel: nat)
    ensures Drive(body, interp, s, resume, fuel) == Drive(body, i => AsRejection(interp(i)), s, resume, fuel)
  {
    OnlyContinuationMatters(body, interp, i => AsRejection(interp(i)), s, resume, fuel);
  }

  /** A settled session keeps its settlement, trace and state under more fuel. */
  lemma {:induction false} SettlementIsStable<S, I, V, E>(body: Body<S, I, V, E>, interp: I -> Outcome<V, E>,
                                                         s: S, resume: Resumption<V, E>, n: nat, m: nat)
    requires n <= m
    requires !Drive(body, interp, s, resume, n).outcome.Pending?
    ensures Drive(body, interp, s, resume, m) == Drive(body, interp, s, resume, n)
    decreases n
  {
    var it := body(s, resume);
    if it.Yielded? {
      var c := Continuation(interp(it.instr));
      if c.Some? {
        SettlementIsStable(body, interp, it.next, c.value, n - 1, m - 1);
      }
    }
  }

  /** A session run with more fuel only extends the trace of one run with less. */
  lemma {:induction false} MoreFuelExtendsTrace<S, I, V, E>(body: Body<S, I, V, E>, interp: I -> Outcome<V, E>,
                                                           s: S, resume: Resumption<V, E>, n: nat, m: nat)
    requires n <= m
    ensures Drive(body, interp, s, resume, n).trace <= Drive(body, interp, s, resume, m).trace
    decreases n
  {
    if n > 0 {
      var it := body(s, resume);
      if it.Yielded? {
        var c := Continuation(interp(it.instr));
        if c.Some? {
          MoreFuelExtendsTrace(body, interp, it.next, c.value, n - 1, m - 1);
        }
      }
    }
  }

  /** When every yield lowers a measure on the generator's state and every
      interpreter result settles, the session settles: it ends in exactly one of
      resolved or rejected. */
  lemma {:induction false} SettlesWhenGeneratorTerminates<S, I, V, E>(body: Body<S, I, V, E>, interp: I -> Outcome<V, E>,
                                                                     rank: S -> nat, s: S, resume: Resumption<V, E>, fuel: nat)
    requires forall s0, input :: body(s0, input).Yielded? ==> rank(body(s0, input).next) < rank(s0)
    requires forall i :: !interp(i).Unsettled?
    requires fuel > rank(s)
    ensures Drive(body, interp, s, resume, fuel).outcome.Resolved? || Drive(body, interp, s, resume, fuel).outcome.Failed?
    decreases fuel
  {
    match body(s, resume)
    case Raised(_) =>
    case Done(_) =>
    case Yielded(instr, next) =>
      assert !interp(instr).Unsettled?;
      var c := Continuation(interp(instr));
      SettlesWhenGeneratorTerminates(body, interp, rank, next, c.value, fuel - 1);
  }
}
