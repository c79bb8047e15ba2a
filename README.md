# generator-interpreter in Dafny

A model of the generator trampoline of `generator-interpreter`: `make(interpreter)`
returns a function that drives a generator to completion. The driver resumes the
generator (`next()` first, then `next(value)` or `throw(err)`), settles the
session when the generator raises or returns `done`, and otherwise hands the
yielded instruction to the interpreter. A plain value or a fulfilled promise
from the interpreter is sent back with `next`; a synchronous throw or a
rejected promise is injected with `throw`, so the generator can catch it.

Files:

- `trampoline.dfy` (module `Trampoline`): the data model (resumptions,
  iterations, interpreter outcomes, settlements, event traces); `Drive`, the
  recursive step function `getNextPromise` on an explicitly threaded generator
  state; `Make`, the curried factory; the class `Generator` whose `Resume`
  method advances the generator in place; and the recursive method
  `GetNextPromise` (with its entry point `Launch`) that drives a `Generator`
  object and is proved to produce exactly what `Drive` specifies.
- `properties.dfy` (module `TrampolineProperties`): what a session guarantees
  — the trace alternates resumptions and interpreter calls; each settled
  interpreter result is routed into exactly one following resumption; the interpreter sees
  exactly the generator's yields in order (proved against `Feed`, which resumes
  the generator by hand); in the model, where a generator's return value is a
  plain value, only an escaping error rejects; values and fulfilled
  promises, and synchronous throws and rejections, are interchangeable; the
  settlement is stable under more fuel; and, when every yield lowers a
  measure of the generator's state, every interpreter result settles and the
  fuel exceeds the measure, the session settles.
- `fixtures.dfy` (module `Fixtures`): the test suite's fixture interpreter and
  generators as coroutine bodies, with one lemma per test scenario.

Modelling choices:

- The resume thunk `resolveNextValue` is the datatype `Resumption`
  (`Start` = `next()`, `Next(v)`, `Throw(e)`).
- A generator body is a total transition `(state, resumption) -> iteration`;
  the iteration is `Raised(e)` (the call throws), `Done(v)` or
  `Yielded(instr, state')`.
- The interpreter is a function from instructions to `Value`, `Fulfilled`,
  `Rejected`, `SyncThrow` or `Unsettled` (a promise that never settles).
- Promises are replaced by their settled outcome; the session's promise is a
  `Settlement`: `Resolved(v)`, `Failed(e)` or `Pending`.
- Each resumption consumes one unit of `fuel`; a session still running when
  the fuel is exhausted is `Pending`, as is one waiting on an `Unsettled` result.
- The interpreter and the generator body are parameters: they are the caller's
  code, not part of the driver.
- The synchronous-throw path (src/make.js:19) re-enters the step function
  directly, without a promise in between, while the other two paths go through
  `Promise.resolve(...).then`. Only the order of events matters here, and that
  is the same on all paths, so the model does not distinguish them.

## Model

| member | source | states |
|---|---|---|
| Trampoline.Drive | src/make.js:3-26 | `getNextPromise` as a function: a session records at most two events per resumption, begins with the resumption it was given, and settles only right after a resumption; its full behaviour is stated by `GetNextPromise`, `TraceAlternates`, `InjectsSettledResult`, `DriveReplaysGenerator` and the lemmas below |
| Trampoline.Continuation | src/make.js:16-25 | a result resumes nothing exactly when it never settles; a value or fulfilled promise resumes with `next` carrying exactly that value, a synchronous throw or rejection with `throw` carrying exactly that error, and nothing resumes with `next()` again |
| Trampoline.Make | src/make.js:28-32 | the factory: `make(interpreter)` maps a generator to the session started with `next()`; it has no contract of its own, and `MakeStartsWithNext` and `Launch` state what it does |
| Trampoline.MakeStartsWithNext | src/make.js:28-32 | every session created by the factory begins with one resumption `next()` without an argument |
| Trampoline.Generator.Resume | src/make.js:6 | resuming a suspended generator returns its body's iteration; it stays suspended in the new state exactly when it yielded, and is completed otherwise |
| Trampoline.GetNextPromise | src/make.js:3-26 | driving a generator object gives the settlement, the event trace and the final state of `Drive`, and leaves the generator completed exactly when the session has settled |
| Trampoline.Launch | src/make.js:28-32 | `make(interpreter)(generator)` on an object: the session of `Make`, begun by `next()` |
| TrampolineProperties.TraceAlternates | src/make.js:3-26 | resumptions and interpreter calls alternate, starting with the given resumption; the session has settled exactly when the trace has odd length, i.e. ends with a resumption |
| TrampolineProperties.InjectsSettledResult | src/make.js:16-25 | every interpreter call that is not last is followed by exactly one resumption, the one its settled result calls for |
| TrampolineProperties.DriveReplaysGenerator | src/make.js:3-26 | resuming the generator by hand with the trace's resumptions yields exactly the instructions the interpreter received, in order, one per resumption but the last of a settled session; the settlement is that of the last resumption (rejection only from an error escaping it, resolution only from `done`) |
| TrampolineProperties.RaisedErrorRejects | src/make.js:5-9 | an error escaping the resumption rejects with exactly that error, with no interpreter call and no further resumption |
| TrampolineProperties.DoneResolves | src/make.js:11-13 | a `done` iteration resolves with its value and the interpreter is not called |
| TrampolineProperties.InterpreterFailureIsInjected | src/make.js:16-25 | a synchronous throw or rejection is injected with `throw(err)`; the session then rejects, resolves or interprets the next yield as the generator's answer says, and never re-interprets the instruction |
| TrampolineProperties.InterpreterValueIsSent | src/make.js:22-24 | a plain value or fulfilled promise is sent with `next(value)` carrying that value; the session then rejects, resolves or interprets the next yield as the generator's answer says |
| TrampolineProperties.OnlyContinuationMatters | src/make.js:16-25 | two interpreters whose results resume the generator the same way give identical sessions |
| TrampolineProperties.Promote | src/make.js:22 | `Promise.resolve` turns a plain value into a fulfilled promise of it, leaves every other result as it is, and changes no resumption |
| TrampolineProperties.AsRejection | src/make.js:16-20 | a synchronous throw seen as a rejection of the same error; every other result is left as it is and no resumption changes |
| TrampolineProperties.PlainValueActsAsFulfilled | src/make.js:22-24 | a plain value and a fulfilled promise of it give identical sessions |
| TrampolineProperties.SyncThrowActsAsRejection | src/make.js:17-25 | a synchronous throw and a rejected promise of the same error give identical sessions |
| TrampolineProperties.SettlementIsStable | src/make.js:8-13 | once a session settles, more fuel changes neither its settlement, nor its trace, nor its final state |
| TrampolineProperties.MoreFuelExtendsTrace | src/make.js:3-26 | a run with more fuel only extends the trace of a run with less |
| TrampolineProperties.SettlesWhenGeneratorTerminates | src/make.js:3-26 | if every yield lowers a measure of the generator state and every interpreter result settles, the session ends resolved or rejected |
| Fixtures.Interpreter | test/make.spec.js:4-18 | every result of the fixture interpreter settles |
| Fixtures.ReturnYield | test/make.spec.js:25-27 | the generator of the sync and async response tests yields once, then returns the yield's value |
| Fixtures.Multiple | test/make.spec.js:47-51 | the multiple-yield generator yields at most twice, advancing one yield at a time |
| Fixtures.ThrowBeforeYield | test/make.spec.js:75-80 | the error-before-yield generator never yields: every resumption raises |
| Fixtures.ThrowAfterYield | test/make.spec.js:89-92 | the error-after-yield generator yields once and afterwards only raises |
| Fixtures.YieldOnce | test/make.spec.js:101-103 | the generator of the bubbling tests yields once, then returns nothing |
| Fixtures.CatchThenOk | test/make.spec.js:123-131 | the generator of the caught-error tests yields once and, once past that yield, always returns, so an injected error does not escape |
| Fixtures.Complex | test/make.spec.js:158-182 | the complex generator, with the delegated child inlined, yields at most four times and ends only by raising |
| Fixtures.SyncResponse | test/make.spec.js:24-33 | `return yield 'sync'` resolves with `'sync result'` |
| Fixtures.AsyncResponse | test/make.spec.js:35-44 | `return yield 'async'` resolves with `'async result'` |
| Fixtures.MultipleYield | test/make.spec.js:46-57 | two yields are interpreted in order, `sync` then `async`, and the session resolves with `'sync result async result'` |
| Fixtures.MultipleYieldOnObject | test/make.spec.js:46-57 | the same session driven on a generator object resolves with `'sync result async result'` |
| Fixtures.ErrorBeforeYield | test/make.spec.js:74-86 | an error before the first yield rejects the session with it after the single `next()` |
| Fixtures.ErrorAfterYield | test/make.spec.js:88-98 | an error after a resumed yield rejects the session with it |
| Fixtures.SyncErrorBubbles | test/make.spec.js:100-109 | an uncaught synchronous interpreter throw rejects the session with `'Sync Error'` |
| Fixtures.AsyncErrorBubbles | test/make.spec.js:111-120 | an uncaught interpreter rejection rejects the session with `'Async Error'` |
| Fixtures.AsyncErrorCaught | test/make.spec.js:122-137 | a caught interpreter rejection lets the session resolve with `'OK'` |
| Fixtures.SyncErrorCaught | test/make.spec.js:139-154 | a caught synchronous interpreter throw lets the session resolve with `'OK'` |
| Fixtures.ComplexGenerator | test/make.spec.js:156-188 | the four instructions are interpreted once each in yield order and the final uncaught error rejects the session |

## Left out

- Promise and microtask scheduling, timing and the stack depth of the recursion: only the settled outcome of each interpreter result and the order of events are modelled.
- Non-termination: a generator that yields forever is cut off by `fuel` and reported `Pending`; a never-settling promise is the `Unsettled` outcome and also gives `Pending`.
- `yield*` delegation is JavaScript generator semantics, not driver logic: the "child generator" test (test/make.spec.js:59-72) is not modelled, and in the complex test the child's yields are written in line in one body.
- A generator's return value is taken as a plain value: src/make.js:12 passes it through `Promise.resolve`, so a generator that returns a rejected promise rejects its session, and one that returns a never-settling promise leaves it pending, without any error escaping the generator; the model's `Done(v)` always resolves with `v`.
- The interpreter is a pure function of the instruction (`I -> Outcome`): an effectful interpreter that answers the same instruction differently on two yields cannot be expressed.
- Thenable assimilation by `Promise.resolve`, error object identity and error messages beyond a string: errors are opaque values.
- Resuming a generator that has already completed (JavaScript then returns `done` with `undefined`, or rethrows): `Generator.Resume` requires a suspended generator, and `GetNextPromise` is proved never to resume a completed one.
- The assertions the test generators make inside their `catch` blocks and on intermediate values, and the mocha/chai harness itself.
- Fixtures.Interpreter: the dictionary lookup of the fixture also finds properties inherited by JavaScript objects; only the four listed names and the "Unable to interpret" error are modelled.
