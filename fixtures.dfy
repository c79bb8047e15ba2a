/** The interpreter fixture and the generators of the repository's test suite,
    written as coroutine bodies, and the sessions they give. */
module Fixtures {
  import opened Trampoline
  import opened TrampolineProperties

  /** The JavaScript values the fixtures pass around. */
  datatype JsValue = Undefined | Str(text: string)

  /** An `Error` object, identified by its message. */
  datatype JsError = Error(message: string)

  type Instr = string

  /** The fixture interpreter: a dictionary from instruction names to
      behaviours, throwing for a name it does not know. */
  function Interpreter(instr: Instr): (r: Outcome<JsValue, JsError>)
    ensures !r.Unsettled?
  {
    if instr == "sync" then Value(Str("sync result"))
    else if instr == "async" then Fulfilled(Str("async result"))
    else if instr == "error" then SyncThrow(Error("Sync Error"))
    else if instr == "asyncError" then Rejected(Error("Async Error"))
    else SyncThrow(Error("Unable to interpret"))
  }

  /** A test generator's suspended state: the yield it waits at (0 before it
      starts) and a value it keeps from an earlier yield. */
  datatype Frame = Frame(pc: nat, kept: JsValue)

  const Fresh := Frame(0, Undefined)

  /** The value a `yield` expression evaluates to when resumed with `next`. */
  function Received(r: Resumption<JsValue, JsError>): JsValue {
    if r.Next? then r.value else Undefined
  }

  /** String conversion as `a + ' ' + b` performs it. */
  function ToText(v: JsValue): string {
    match v
    case Undefined => "undefined"
    case Str(t) => t
  }

  /** A generator that yields `instr` once and returns what that yield
      evaluates to. */
  function ReturnYield(instr: Instr, f: Frame, r: Resumption<JsValue, JsError>): (it: Iteration<Frame, Instr, JsValue, JsError>)
    ensures it.Yielded? ==> it.next.pc == f.pc + 1 <= 1
  {
    if r.Throw? then Raised(r.error)
    else if f.pc == 0 then Yielded(instr, Frame(1, Undefined))
    else Done(Received(r))
  }

  /** A generator that yields `'sync'` and then `'async'`, keeping what the
      first yield evaluates to, and returns both results joined by a space. */
  function Multiple(f: Frame, r: Resumption<JsValue, JsError>): (it: Iteration<Frame, Instr, JsValue, JsError>)
    ensures it.Yielded? ==> it.next.pc == f.pc + 1 <= 2
  {
    if r.Throw? then Raised(r.error)
    else if f.pc == 0 then Yielded("sync", Frame(1, Undefined))
    else if f.pc == 1 then Yielded("async", Frame(2, Received(r)))
    else Done(Str(ToText(f.kept) + " " + ToText(Received(r))))
  }

  /** A generator that throws `Error('Before yield')` before its first yield. */
  function ThrowBeforeYield(f: Frame, r: Resumption<JsValue, JsError>): (it: Iteration<Frame, Instr, JsValue, JsError>)
    ensures it.Raised?
  {
    if r.Throw? then Raised(r.error) else Raised(Error("Before yield"))
  }

  /** A generator that yields `'async'` once and then throws
      `Error('After Yield')`. */
  function ThrowAfterYield(f: Frame, r: Resumption<JsValue, JsError>): (it: Iteration<Frame, Instr, JsValue, JsError>)
    ensures it.Yielded? ==> it.next.pc == f.pc + 1 <= 1
    ensures !it.Yielded? ==> it.Raised?
  {
    if r.Throw? then Raised(r.error)
    else if f.pc == 0 then Yielded("async", Frame(1, Undefined))
    else Raised(Error("After Yield"))
  }

  /** A generator that yields `instr` once and returns nothing. */
  function YieldOnce(instr: Instr, f: Frame, r: Resumption<JsValue, JsError>): (it: Iteration<Frame, Instr, JsValue, JsError>)
    ensures it.Yielded? ==> it.next.pc == f.pc + 1 <= 1
  {
    if r.Throw? then Raised(r.error)
    else if f.pc == 0 then Yielded(instr, Frame(1, Undefined))
    else Done(Undefined)
  }

  /** A generator that yields `instr` once inside a `try` block whose `catch`
      ignores the error, and then returns `'OK'`: an error injected at the
      yield does not escape. */
  function CatchThenOk(instr: Instr, f: Frame, r: Resumption<JsValue, JsError>): (it: Iteration<Frame, Instr, JsValue, JsError>)
    ensures it.Yielded? ==> it.next.pc == f.pc + 1 <= 1
    ensures f.pc > 0 ==> it.Done?
  {
    if f.pc == 0 then (if r.Throw? then Raised(r.error) else Yielded(instr, Frame(1, Undefined)))
    else Done(Str("OK"))
  }

  /** The "complex generator": it catches the error of `yield 'error'`, then
      delegates to a child that catches the error of `yield 'asyncError'` and
      returns `yield 'async'`, then does `yield 'sync'` and throws
      `Error('Custom Error')`. The child's yields appear in line, as delegation
      makes them appear to the driver. */
  function Complex(f: Frame, r: Resumption<JsValue, JsError>): (it: Iteration<Frame, Instr, JsValue, JsError>)
    ensures it.Yielded? ==> it.next.pc == f.pc + 1 <= 4
    ensures !it.Yielded? ==> it.Raised?
  {
    if f.pc == 0 then (if r.Throw? then Raised(r.error) else Yielded("error", Frame(1, Undefined)))
    else if f.pc == 1 then Yielded("asyncError", Frame(2, Undefined))
    else if f.pc == 2 then Yielded("async", Frame(3, Undefined))
    else if r.Throw? then Raised(r.error)
    else if f.pc == 3 then Yielded("sync", Frame(4, Received(r)))
    else Raised(Error("Custom Error"))
  }

  /** "should interpret sync response" */
  lemma SyncResponse()
    ensures Make(Interpreter, 2)((f, r) => ReturnYield("sync", f, r), Fresh).outcome == Resolved(Str("sync result"))
  {
  }

  /** "should interpret async response" */
  lemma AsyncResponse()
    ensures Make(Interpreter, 2)((f, r) => ReturnYield("async", f, r), Fresh).outcome == Resolved(Str("async result"))
  {
  }

  /** "should handle multiple yield": the two instructions are interpreted in
      yield order and their results are combined. */
  lemma MultipleYield()
    ensures var r := Make(Interpreter, 3)(Multiple, Fresh);
            r.outcome == Resolved(Str("sync result async result"))
            && Instructions(r.trace) == ["sync", "async"]
  {
    var second := Drive(Multiple, Interpreter, Frame(1, Undefined), Next(Str("sync result")), 2);
    MultipleAfterFirstYield();
    var r := Make(Interpreter, 3)(Multiple, Fresh);
    assert r.trace == [Resumed(Start), Interpreted("sync")] + second.trace;
    RoundEvents<Instr, JsValue, JsError>(Start, "sync");
    InstructionsAppend([Resumed(Start), Interpreted("sync")], second.trace);
  }

  /** The multiple-yield session from the first result `'sync result'` on. */
  lemma MultipleAfterFirstYield()
    ensures var r := Drive(Multiple, Interpreter, Frame(1, Undefined), Next(Str("sync result")), 2);
            r.outcome == Resolved(Str("sync result async result"))
            && Instructions(r.trace) == ["async"]
  {
    var third := Drive(Multiple, Interpreter, Frame(2, Str("sync result")), Next(Str("async result")), 1);
    assert Multiple(Frame(2, Str("sync result")), Next(Str("async result"))) ==
           Done(Str(ToText(Str("sync result")) + " " + ToText(Str("async result"))));
    assert "sync result" + " " + "async result" == "sync result async result";
    assert third == Session(Resolved(Str("sync result async result")), [Resumed(Next(Str("async result")))], Frame(2, Str("sync result")));
    var r := Drive(Multiple, Interpreter, Frame(1, Undefined), Next(Str("sync result")), 2);
    assert r.trace == [Resumed(Next(Str("sync result"))), Interpreted("async")] + third.trace;
    RoundEvents<Instr, JsValue, JsError>(Next(Str("sync result")), "async");
    InstructionsAppend([Resumed(Next(Str("sync result"))), Interpreted("async")], third.trace);
  }

  /** "should bubble error when happening before first yield" */
  lemma ErrorBeforeYield()
    ensures Make(Interpreter, 1)(ThrowBeforeYield, Fresh) == Session(Failed(Error("Before yield")), [Resumed(Start)], Fresh)
  {
  }

  /** "should bubble error when happening after yield" */
  lemma ErrorAfterYield()
    ensures Make(Interpreter, 2)(ThrowAfterYield, Fresh).outcome == Failed(Error("After Yield"))
  {
  }

  /** "should bubble sync error when happening during yield" */
  lemma SyncErrorBubbles()
    ensures Make(Interpreter, 2)((f, r) => YieldOnce("error", f, r), Fresh).outcome == Failed(Error("Sync Error"))
  {
  }

  /** "should bubble async error when happening during yield" */
  lemma AsyncErrorBubbles()
    ensures Make(Interpreter, 2)((f, r) => YieldOnce("asyncError", f, r), Fresh).outcome == Failed(Error("Async Error"))
  {
  }

  /** "should throw back sync error when happening during yield" */
  lemma SyncErrorCaught()
    ensures Make(Interpreter, 2)((f, r) => CatchThenOk("error", f, r), Fresh).outcome == Resolved(Str("OK"))
  {
  }

  /** "should throw back async error when happening during yield" */
  lemma AsyncErrorCaught()
    ensures Make(Interpreter, 2)((f, r) => CatchThenOk("asyncError", f, r), Fresh).outcome == Resolved(Str("OK"))
  {
  }

  /** "should handle complex generator": every instruction is interpreted once,
      in order, and the final uncaught error rejects the session. */
  lemma ComplexGenerator()
    ensures var r := Make(Interpreter, 5)(Complex, Fresh);
            r.outcome == Failed(Error("Custom Error"))
            && Instructions(r.trace) == ["error", "asyncError", "async", "sync"]
  {
    var second := Drive(Complex, Interpreter, Frame(1, Undefined), Throw(Error("Sync Error")), 4);
    ComplexAfterFirstYield();
    var r := Make(Interpreter, 5)(Complex, Fresh);
    assert r == Drive(Complex, Interpreter, Fresh, Start, 5);
    assert Complex(Fresh, Start) == Yielded("error", Frame(1, Undefined));
    assert Interpreter("error") == SyncThrow(Error("Sync Error"));
    assert r.trace == [Resumed(Start), Interpreted("error")] + second.trace;
    RoundEvents<Instr, JsValue, JsError>(Start, "error");
    InstructionsAppend([Resumed(Start), Interpreted("error")], second.trace);
  }

  /** The complex session from the injection of `Error('Sync Error')` on. */
  lemma ComplexAfterFirstYield()
    ensures var r := Drive(Complex, Interpreter, Frame(1, Undefined), Throw(Error("Sync Error")), 4);
            r.outcome == Failed(Error("Custom Error"))
            && Instructions(r.trace) == ["asyncError", "async", "sync"]
  {
    var third := Drive(Complex, Interpreter, Frame(2, Undefined), Throw(Error("Async Error")), 3);
    ComplexAfterSecondYield();
    var r := Drive(Complex, Interpreter, Frame(1, Undefined), Throw(Error("Sync Error")), 4);
    assert r.trace == [Resumed(Throw(Error("Sync Error"))), Interpreted("asyncError")] + third.trace;
    RoundEvents<Instr, JsValue, JsError>(Throw(Error("Sync Error")), "asyncError");
    InstructionsAppend([Resumed(Throw(Error("Sync Error"))), Interpreted("asyncError")], third.trace);
  }

  /** The complex session from the injection of `Error('Async Error')` on. */
  lemma ComplexAfterSecondYield()
    ensures var r := Drive(Complex, Interpreter, Frame(2, Undefined), Throw(Error("Async Error")), 3);
            r.outcome == Failed(Error("Custom Error"))
            && Instructions(r.trace) == ["async", "sync"]
  {
    var fourth := Drive(Complex, Interpreter, Frame(3, Undefined), Next(Str("async result")), 2);
    ComplexAfterThirdYield();
    var r := Drive(Complex, Interpreter, Frame(2, Undefined), Throw(Error("Async Error")), 3);
    assert r.trace == [Resumed(Throw(Error("Async Error"))), Interpreted("async")] + fourth.trace;
    RoundEvents<Instr, JsValue, JsError>(Throw(Error("Async Error")), "async");
    InstructionsAppend([Resumed(Throw(Error("Async Error"))), Interpreted("async")], fourth.trace);
  }

  /** The complex session from the child's result `'async result'` on. */
  lemma ComplexAfterThirdYield()
    ensures var r := Drive(Complex, Interpreter, Frame(3, Undefined), Next(Str("async result")), 2);
            r.outcome == Failed(Error("Custom Error"))
            && Instructions(r.trace) == ["sync"]
  {
    var fifth := Drive(Complex, Interpreter, Frame(4, Str("async result")), Next(Str("sync result")), 1);
    assert fifth == Session(Failed(Error("Custom Error")), [Resumed(Next(Str("sync result")))], Frame(4, Str("async result")));
    var r := Drive(Complex, Interpreter, Frame(3, Undefined), Next(Str("async result")), 2);
    assert r.trace == [Resumed(Next(Str("async result"))), Interpreted("sync")] + fifth.trace;
    RoundEvents<Instr, JsValue, JsError>(Next(Str("async result")), "sync");
    InstructionsAppend([Resumed(Next(Str("async result"))), Interpreted("sync")], fifth.trace);
  }

  /** The multiple-yield session driven on a generator object. */
  method MultipleYieldOnObject() returns (outcome: Settlement<JsValue, JsError>)
    ensures outcome == Resolved(Str("sync result async result"))
  {
    var gen := new Generator(Multiple, Fresh);
    var trace;
    outcome, trace := Launch(Interpreter, gen, 3);
    MultipleYield();
  }
}
