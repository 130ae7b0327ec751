# cofx: the coroutine task runtime, modelled in Dafny

cofx drives generator functions ("coroutines") step by step. Whatever a coroutine
yields is first passed through a chain of middleware. The default chain is the
effect interpreter, which turns `call`, `all`, `race`, `spawn` and `delay`
descriptors into promises. The result is then normalised by `promisify`, and the
coroutine is resumed with the outcome of the promise it ended up with. The model
covers:

- the effect constructors and the interpreter of `src/effect.ts`;
- the TypeScript runtime of `src/factory.ts`: middleware composition, `promisify`
  with `objectToPromise`, the `onFulfilled` / `onRejected` / `next` step functions,
  and the cancel trigger;
- the settle-once cancellation wrapper of `src/speculation.ts`;
- the older runtime of `src/factory.js`, with its id counter, task table and cancel
  chains.

Modules:

- `Js` (js.dfy) holds the JavaScript world the runtime lives in:
  - values, plain objects as ordered property lists, truthiness;
  - settle-once promise state;
  - an `Env` holding the user code the runtime calls but cannot see. This covers
    function application, `obj[name](...)` calls, generator bodies as step functions
    over opaque states, and promises made by user code.
  - A promise value records how it was made, for example `CallOf`, `AllOf`,
    `ObjectOf` or `RunOf`.
- `Effect` (effect.dfy) covers descriptor construction, dispatch and interpretation,
  and the delay timer as a class.
- `Factory` (factory.dfy) holds:
  - the middleware chain, `promisify` (`Normalize`) and the `objectToPromise` loop;
  - the step function `Drive` and the `Runtime` class;
  - `Settle`, which says when and how each kind of promise settles on a discrete
    clock. The race winner is the earliest settlement, with ties going to the lowest
    index.
- `Speculation` (speculation.dfy) has a pure run semantics (`Setup`, `React`,
  `Run`) and the `Speculation` class whose methods follow it.
- `LegacyFactory` (legacy_factory.dfy) covers `src/factory.js`:
  - the `IdSource` counter;
  - the `Task` class, whose methods are the closures of one `runtime` call over its
    record and its `tasks` table;
  - cancel chains as a datatype.

  Its `applyMiddleware` (src/factory.js:11-17) is the same reduce as
  `Factory.ApplyMiddleware` and is reused.

Functions that only compute are specified through lemmas. The table names the
member whose contract states each property:

- `Effect.Handle` and `Effect.Dispatch` are covered by the `Handle*`, `All*Shape` and
  `KeyedEntrantsPointwise` lemmas.
- `Factory.Compose` and `Factory.ApplyMiddleware` are covered by `ChainEmpty`,
  `ComposeAppend` and `LastIsOutermost`.
- `Factory.SettleFut` and `Factory.SettleCall` are covered by the settlement lemmas.

Termination:

- `Js.EnvValid` demands that each yield lowers a coroutine's rank. This makes the
  synchronous chain of TypeErrors thrown into a coroutine finite.
- Nested runtimes and awaited promises cost fuel. A settlement beyond the fuel is
  `OutOfFuel`.
- In the legacy runtime, the fuel is the depth of synchronous nested `runtime`
  calls. Exhausting it throws a RangeError, as the engine's stack would.

## Model

| member | source | states |
|---|---|---|
| Js.FirstCallWins | src/speculation.ts:15-24 | whatever resolve/reject calls a pending promise receives, the first decides it and it is no longer pending; the wrappers rely on this |
| Js.SettledStays | src/speculation.ts:15-24 | once a promise has settled or adopted a thenable, further resolve/reject calls leave it unchanged |
| Effect.Call | src/effect.ts:20-26 | `call(fn, ...args)` is recognised as a CALL descriptor and reads back `fn` and the argument array |
| Effect.All | src/effect.ts:63-68 | `all(effects)` is recognised as ALL and reads back its `effects` |
| Effect.Race | src/effect.ts:102-107 | `race(effects)` is recognised as RACE and reads back its `effects` |
| Effect.Spawn | src/effect.ts:146-148 | `spawn(fn, ...args)` is recognised as SPAWN and reads back `fn` and the argument array |
| Effect.Delay | src/effect.ts:169-171 | `delay(ms)` is recognised as DELAY and reads back `ms` |
| Effect.DetectorsExclusive | src/effect.ts:17-18 | no value satisfies two type detectors with different tags, so the order of the tests in `effectHandler` never matters |
| Effect.HandlePassesThrough | src/effect.ts:192-200 | a value that is not a plain object tagged CALL/ALL/RACE/SPAWN/DELAY comes back from the interpreter unchanged |
| Effect.HandleEachPointwise | src/effect.ts:72-80 | ALL over an array in which no child throws gives an array of the same length whose element i is child i interpreted |
| Effect.HandleEachFirstThrow | src/effect.ts:73-75 | ALL over an array throws exactly the exception of the first child whose interpretation throws |
| Effect.HandlePropsPointwise | src/effect.ts:83-98 | ALL over an object gives an object with the same keys in the same order, each holding that key's effect interpreted |
| Effect.AllArrayShape | src/effect.ts:63-80 | interpreting `all([...])` yields an array whose elements correspond one to one with the children's interpretations |
| Effect.AllObjectShape | src/effect.ts:63-98 | interpreting `all({...})` yields an object with exactly the input keys, each holding its child's interpretation |
| Effect.KeyedEntrantsPointwise | src/effect.ts:121-132 | racing an object builds one entrant per key, in key order, each the promisified interpretation of that key's effect |
| Effect.PlainEntrantsAgree | src/effect.ts:121-132 | for entries that are not descriptors, the keyed race builds the same entrants without interpreting them |
| Effect.RaceOverStringThrows | src/effect.ts:121-124 | `race` over a non-empty string races its character indices: without a promisify it throws that promisify is not a function, and with one whose result for the first character is not a promise it throws that `.then` is not a function |
| Effect.EffectMiddlewareForwards | src/effect.ts:202-207 | the effect middleware interprets the value and passes only the result to `next`, without promisify or the cancel signal |
| Effect.DelayTimer.constructor | src/effect.ts:175-179 | a delay promise starts pending with its timer armed |
| Effect.DelayTimer.Fire | src/effect.ts:177-179 | an armed timer resolves the promise with undefined; a cleared timer changes nothing |
| Effect.DelayTimer.Cancel | src/effect.ts:181-184 | cancelling clears the timer and rejects a pending delay with 'delay has been cancelled.'; a settled one stays as it was |
| Effect.SpawnCancelIsInert | src/effect.ts:155-161 | the cancel stored on a spawn promise can never change it: the promise is resolved before that cancel exists |
| Factory.ChainEmpty | src/factory.ts:11-18 | with no middleware the chain returns the yielded value itself |
| Factory.ComposeAppend | src/factory.ts:14-15 | reducing over a concatenation of middleware lists reduces the second list over the chain of the first |
| Factory.LastIsOutermost | src/factory.ts:14-15 | the last middleware in the list wraps all the others and is the one the runtime calls first |
| Factory.FactoryInterpretsFirst | src/index.ts:15-16 | in `factory(...mw)`, the effect interpreter runs before every user middleware, and they see only the interpreted value |
| Factory.TaskChainInterprets | src/index.ts:14 | the chain of `task` is exactly the effect interpreter |
| Factory.Normalize | src/factory.ts:52-68 | falsy values and promises come back as they are; the result is a promise exactly when the input is truthy and a promise, function, generator, array or plain object; any non-promise result is the input itself |
| Factory.Presets | src/factory.ts:71-83 | the results object keeps every input key in order; a key whose value normalizes to a promise is preset to undefined, any other key keeps its value |
| Factory.Deferred | src/factory.ts:87-95 | every deferred entry is a promise, and there are no more of them than keys |
| Factory.DeferredKeysIn | src/factory.ts:87-95 | every deferred promise is filed under a key of the input |
| Factory.DeferredEntries | src/factory.ts:75-95 | every deferred entry is, for some input key whose value normalizes to a promise, that key paired with its normalized value |
| Factory.DeferredComplete | src/factory.ts:75-95 | conversely, every input key whose value normalizes to a promise has its entry, holding that normalized value |
| Factory.DeferredUnique | src/factory.ts:87-95 | with distinct input keys, no key is deferred twice |
| Factory.FillLookup | src/factory.ts:89-92 | filling the deferred keys leaves under the j-th deferred key the j-th fulfilment value |
| Factory.ObjectToPromise | src/factory.ts:70-96 | the key loop produces exactly the promise that `Normalize` describes for a plain object: the preset results and the deferred promises in key order |
| Factory.NormalizeObject | src/factory.ts:66 | `promisify` of a plain object is the promise `objectToPromise` builds |
| Factory.Drive | src/factory.ts:152-174 | a step either settles the task or pauses on a truthy promise; a failure leaves the coroutine suspended only when the middleware threw after a yield |
| Factory.DoneResolves | src/factory.ts:153-156 | a step reporting `done` resolves the task with its value |
| Factory.RaisedRejects | src/factory.ts:129-146 | an exception escaping `iter.next` or `iter.throw` rejects the task with that exception and closes the coroutine |
| Factory.InvalidYieldThrowsIn | src/factory.ts:169-173 | a yielded value that is still not a promise after the middleware and `promisify` makes the runtime throw the TypeError into the coroutine and carry on from its reaction |
| Factory.YieldingNumberRejects | src/factory.ts:158-173 | under `task`, yielding a number that the coroutine does not guard against rejects the task with the TypeError |
| Factory.Kickoff | src/factory.ts:101-127 | a `fn` whose result (or which itself) has no `next` resolves the task at once with it; a throw from `fn.apply` rejects the task |
| Factory.Runtime.constructor | src/factory.ts:101-127 | a runtime creates a cancel trigger only for a coroutine and only when none was passed in, then kickstarts it; its state is the commit of `Kickoff` |
| Factory.Runtime.OnFulfilled | src/factory.ts:129-137 | resuming with a value moves the runtime to the state `Drive` gives for the coroutine's next step; the trigger and signal are untouched |
| Factory.Runtime.OnRejected | src/factory.ts:139-146 | throwing into the coroutine moves the runtime to the state `Drive` gives for the coroutine's reaction |
| Factory.Runtime.Next | src/factory.ts:152-174 | `next(ret)` commits exactly the pause `Drive` computes for `ret` |
| Factory.Runtime.AwaitedSettles | src/factory.ts:165-167 | a settled awaited promise resumes the coroutine with its value or throws its reason in, then continues as `Drive` says |
| Factory.Runtime.Cancel | src/factory.ts:109-119 | the trigger throws into the coroutine and rejects a pending task, with what the coroutine raised or with `{error: '2 generator was cancelled'}` when it survived; it fulfils the signal with 'cancel has been activated' and disarms itself |
| Factory.Race | src/effect.ts:114-118 | `Promise.race` settles as one of its entrants does, no later than any entrant that settles, settles whenever some entrant settles within the fuel, and never settles when none does |
| Factory.Gather | src/factory.ts:63-65 | `Promise.all` fulfils only if every element fulfilled, with their values in order; when it rejects, it does so as one of its elements did; if some element rejects (and none runs out of fuel), it rejects no later than every rejecting element |
| Factory.RaceResult | src/effect.ts:133-143 | the race result object holds every key in order; the winner's key holds the result and every other key holds undefined |
| Factory.SettleSpawn | src/effect.ts:149-167 | a spawn promise settles at the moment it is made, without waiting for the spawned work |
| Factory.Settle | src/factory.ts:165-167 | a promise never settles before the moment it is awaited, and a non-promise counts as already fulfilled with itself |
| Factory.RunFrom | src/factory.ts:165-167 | a runtime resumed from a pause never settles earlier than that pause |
| Factory.Task | src/factory.ts:28-37 | a task's promise never settles before the task starts |
| Factory.PlainFunctionTask | src/factory.ts:102-105 | a plain function, whose result has no `next`, gives a task that resolves at once with what it returned |
| Factory.CallPlainFunction | src/effect.ts:39-51 | `call(fn, ...args)` of a function whose result has no `next` resolves at once with that result |
| Factory.CallArrayTarget | src/effect.ts:34-37 | `call([obj, name, ...fargs], ...args)` settles as `obj[name](...fargs)` does, whatever `args` and promisify are; a throw rejects it and a plain result fulfils it |
| Factory.TaskAwaitsCall | src/factory.ts:158-167 | a `task` coroutine that yields `call(fn, ...args)` pauses on the promise `callEffect` builds for it |
| Factory.AwaitedCallResumes | src/factory.ts:165-166 | once that promise fulfils with fn's plain result, the coroutine is resumed with exactly that value |
| Factory.AllFulfilsElementwise | src/factory.ts:63-65 | `Promise.all` over elements that all fulfil fulfils with their values, element by element |
| Factory.AllRejectsWithElement | src/factory.ts:63-65 | a rejecting `Promise.all` settles exactly as one of its elements does |
| Factory.AllRejectsOnRejection | src/factory.ts:63-65 | if one element of `Promise.all` rejects, the whole promise rejects, no later than any rejecting element |
| Factory.RaceArrayResult | src/effect.ts:114-118 | a settled `race([...])` settles exactly as some entrant w does, and w settled first, ties going to the lowest index |
| Factory.RaceArraySettles | src/effect.ts:114-118 | a `race([...])` with a settling entrant settles, no later than that entrant |
| Factory.NormalizeArray | src/factory.ts:63-65 | `promisify` of an array whose elements all fulfil, each once normalized, fulfils with an array of their values in order |
| Factory.NormalizeArrayRejects | src/factory.ts:63-65 | a rejecting normalized array rejects exactly as the normalization of one of its elements does |
| Factory.NestedRuntime | src/factory.ts:55-62 | `promisify` of a function or generator starts a nested runtime over the same middleware, which settles exactly as the task of that function does |
| Factory.RaceObjectResult | src/effect.ts:121-143 | a fulfilled `race({...})` has a winning entrant that fulfilled no later than any other settled one; the result holds every key in order, with the winner's result under its key and undefined elsewhere |
| Factory.SpawnDoesNotWait | src/effect.ts:155-158 | for a callable `fn` whose result normalizes to a promise, `spawn` fulfils at once with undefined, however the spawned work settles |
| Factory.DelayFires | src/effect.ts:172-179 | `delay(ms)` fulfils with undefined exactly ms ticks after it starts |
| Factory.FilledObject | src/factory.ts:71-95 | once the deferred values are filled in, the results object holds exactly the input keys in order, and every non-deferred key keeps its own value |
| Factory.ObjectFills | src/factory.ts:85-93 | a fulfilled object promise is the preset results with each deferred key set to its promise's fulfilment value |
| Factory.ObjectKeepsKeys | src/factory.ts:70-96 | a plain object, once normalized and fulfilled, gives an object with exactly its keys, in which every key that did not become a promise keeps its value |
| Factory.ObjectDeferredFilled | src/factory.ts:85-95 | in a fulfilled normalized object, every key whose value became a promise holds what that promise fulfilled with, replacing the preset undefined |
| Speculation.Wrapped | src/speculation.ts:15-24 | the wrapped resolve/reject raises the flag and settles a pending promise; a settled promise is left as it was |
| Speculation.Setup | src/speculation.ts:9-47 | running the executor keeps the flag sound (raised only on a settled promise), only appends registrations, and never lowers the flag |
| Speculation.React | src/speculation.ts:26-43 | a registration's cleanup runs exactly when the signal fulfilled and the flag is down, with the signal's value; when it does not run nothing changes |
| Speculation.Run | src/speculation.ts:26-45 | any sequence of settlements and reactions keeps the flag sound and never lowers it |
| Speculation.NoCleanupOnceSettled | src/speculation.ts:27-31 | once the flag is up, no cleanup ever runs |
| Speculation.RejectedSignalIsInert | src/speculation.ts:34-39 | a rejected cancel signal never runs any cleanup |
| Speculation.DefaultSignalNeverCleans | src/speculation.ts:8 | with the default signal `Promise.reject()` no cleanup ever runs |
| Speculation.CleanupsBoundedByReactions | src/speculation.ts:26-45 | the number of cleanups that run never exceeds the number of reaction events; resolves and rejects never run one |
| Speculation.SettlesAtMostOnce | src/speculation.ts:9-24 | once settled, the promise never changes again, whatever resolves, rejects or cleanups follow |
| Speculation.CleanupRunsBeforeSettlement | src/speculation.ts:27-31 | a signal that fulfils while the flag is down runs the cleanup with the signal's value |
| Speculation.CleanupThrowRejects | src/speculation.ts:40-43 | a cleanup that throws rejects the pending promise with what it threw |
| Speculation.SetupThrowKeepsCleanupLive | src/speculation.ts:9-47 | an executor that registers a cleanup and then throws rejects the promise but leaves the flag down, so the cleanup still runs when the signal fulfils |
| Speculation.Speculation.constructor | src/speculation.ts:8-48 | `speculation(fn, cancel)` runs the executor once, synchronously; the state is what `Setup` gives from an unsettled start |
| Speculation.Speculation.Resolve | src/speculation.ts:15-18 | the wrapped resolve applied to the object's state; registrations untouched |
| Speculation.Speculation.Reject | src/speculation.ts:21-24 | the wrapped reject applied to the object's state; registrations untouched |
| Speculation.Speculation.OnCancel | src/speculation.ts:26-45 | a registration is appended; the promise and the flag are untouched |
| Speculation.Speculation.Reaction | src/speculation.ts:27-43 | the next registration reacts as `React` says, and with the flag up nothing changes |
| LegacyFactory.IdSource.constructor | src/factory.js:20-23 | the shared counter starts at 0 |
| LegacyFactory.IdSource.Next | src/factory.js:20-23 | each id is one more than the last: the first is 1 and ids never repeat |
| LegacyFactory.CancelOrder | src/factory.js:88-95 | the base cancel calls no promise's `cancel`; a wrapped one calls its own promise's `cancel` first |
| LegacyFactory.CancelNewestFirst | src/factory.js:88-95 | after awaiting cancellable promises p1..pn, the chain cancels pn first and p1 last, then whatever the earlier chain cancelled |
| LegacyFactory.RecordValue | src/factory.js:37-42 | the task record is a truthy plain object with `TASK: true` and its id, and it is not a promise |
| LegacyFactory.Task.constructor | src/factory.js:37-44 | the record starts with the base cancel, and a fresh table holding only itself under its id |
| LegacyFactory.Task.Start | src/factory.js:28-46 | `runtime(gen, ...args)` takes the next id and applies a function, propagating its throw; something with no `next` throws 'gen.next is not a function'; otherwise it kickstarts with `next(undefined)` and ends in the state that step leads to from a fresh record alone in its table; the table is empty once the coroutine has finished |
| LegacyFactory.Task.OnFulfilled | src/factory.js:48-52 | `gen.next(res)` sends `res` into the coroutine and the record ends in the state that step leads to: coroutine, awaited promise, cancel chain, table and what escapes; with no coroutine it throws 'gen.next is not a function' and changes nothing |
| LegacyFactory.Task.OnRejected | src/factory.js:54-57 | `gen.throw(err)` throws `err` into the coroutine and the record ends in the state that step leads to; with no coroutine it throws 'gen.throw is not a function' and changes nothing |
| LegacyFactory.Task.Step | src/factory.js:48-57 | one resume: an exception out of the coroutine escapes with the coroutine closed, otherwise `next` runs on what it reported; the new coroutine state, awaited promise, cancel chain and table are exactly those of that step |
| LegacyFactory.Task.Next | src/factory.js:77-104 | done: the entry is deleted; a middleware throw propagates; otherwise the result is promisified (arrays and objects into an awaited promise, generators into a child record), and only a child runtime's throw escapes from that; a promise is awaited, and a cancellable one extends the cancel chain (or throws when the record is missing); a non-promise throws the TypeError into the coroutine, whose next step is followed |
| LegacyFactory.Task.Promisify | src/factory.js:106-115 | falsy values, promises and other plain values come back unchanged; a generator starts a child runtime and gives back its record; an array becomes `Promise.all` over its elements promisified in order; an object becomes `objectToPromise`'s promise with its keys; it throws only when the value holds a generator, from a child runtime |
| LegacyFactory.Task.ObjectToPromise | src/factory.js:117-142 | the result object gets every key in order, undefined for the deferred keys and the original value otherwise; every deferred entry is a promise under an input key; a throw comes only from a value that holds a generator |
| LegacyFactory.ObjectRound | src/factory.js:122-129 | one loop round writes the current key once, deferred or with its own value, and keeps that invariant |
| LegacyFactory.Task.AddTask | src/factory.js:59-63 | a child runtime gets a fresh id from the shared counter and is entered in this table under it; nothing else changes |
| LegacyFactory.Task.Cancel | src/factory.js:65-71 | cancelling a recorded id calls the awaited promises' `cancel` newest first and throws 'Task cancelled' into that task, which steps as `onRejected` says; the entry is deleted when nothing escapes and the rest of the table stays; cancelling another task leaves this record's state as it was; an unknown id throws a TypeError |
| LegacyFactory.Task.AwaitedSettles | src/factory.js:97 | a settled awaited promise sends its value into the coroutine, or throws its reason in, and the record ends in the state that step leads to; the own entry is deleted exactly when the coroutine has finished and nothing escaped |

## Where the code and the description of cofx differ

The model follows the code in each case.

- **Middleware order.** `factory(...mw)` appends the effect middleware last, and the
  last middleware is outermost. So the effect interpreter runs first, and user
  middleware sees only the interpreted value: no promisify and no signal.
- **Cancellation after a caught throw.** The cancel trigger rejects the task even when
  the coroutine catches the thrown cancellation. The coroutine is not driven further
  by the trigger.
- **The default speculation signal.** It is `Promise.reject()`, and a rejected signal
  is ignored. So without an explicit signal the cleanup never runs; it does not run at
  once.
- **No FORK and no CANCEL effect.** `src/effect.ts` defines neither, although
  `src/index.ts` imports names for both.
- **The spawn cancel is inert.** The cancel stored on a spawn promise cannot affect it.
  No registry maps spawn handles to triggers.
- **The legacy runtime and generators.** Promisifying a generator gives back a task
  record, not a promise. Yielding a generator therefore throws the invalid-yield
  TypeError into the coroutine.
- **What SPAWN resolves with.** The spawn promise resolves with undefined, not with a
  handle on the spawned work.
- **Spawning a plain function.** `spawn(fn)` calls `.then` on the promisified result
  of `fn`. When `fn` returns a value that is not a promise, that call throws and the
  spawn promise rejects at once.
- **A throwing executor in speculation.** When the executor throws, the promise is
  rejected but `isSettled` stays false. A cleanup registered before the throw can
  still run afterwards.

## Left out

- Factory.Task: its own contract only bounds the settlement time. What a task does is
  stated by `PlainFunctionTask`, `AwaitedCallResumes`, `DoneResolves`,
  `RaisedRejects` and `InvalidYieldThrowsIn`.
- Factory.RunFrom: its own contract only bounds the settlement time. Its behaviour is
  stated by the same lemmas.
- Factory.Settle: its own contract bounds the time and covers non-promises. The kinds
  of promise are covered by `Race`, `Gather`, `RaceArrayResult`, `RaceArraySettles`,
  `AllRejectsOnRejection`, `RaceObjectResult`, `SettleSpawn`, `DelayFires`,
  `ObjectFills`, `NestedRuntime`, `CallArrayTarget` and `AwaitedCallResumes`. No
  lemma characterises a nested runtime (`RunOf`) beyond `NestedRuntime` and the
  `Drive` lemmas.
- Factory.Drive: its own contract covers awaiting and failures. The cases are stated
  by `DoneResolves`, `RaisedRejects` and `InvalidYieldThrowsIn`.
- LegacyFactory.Task.ObjectToPromise: it does not state that each deferred promise is
  its value promisified, only that it is a promise. `Promisify` inherits this for
  objects.
- LegacyFactory.Task.Promisify: which ids the child runtimes take is left open in
  `Promisified`; `Promisify` states the first child's id only for a lone generator.
- LegacyFactory.Task.Cancel: when a task cancels itself, the new state is stated
  through some state its own step reaches. Records in the table other than the
  cancelled one are not stated to be untouched.
- Js.HasNext: only generator objects count as having a `next` method. A hand-written
  iterator (a plain object whose `next` is a function) is promisified as an object,
  and a function returning one resolves at once, where the source drives both as
  coroutines.
- Speculation.Speculation.Reaction: reactions run in registration order, one per
  call. The real interleaving of promise callbacks is not modelled.
- Speculation.React: a cleanup that throws rejects (through the wrapped `reject`,
  raising the flag) within its own reaction. In the source that rejection runs as a
  later `.catch` job, after the reactions already queued. So when one cleanup throws
  and a second registration's cleanup resolves, the source runs both cleanups and the
  promise resolves. The model runs only the first and rejects.
- Numbers are integers: NaN, floating point and numeric strings are not modelled.
- Strings are not spread as iterables. Thenables other than promises are not
  recognised.
- The invalid-yield message is given without the interpolated yielded value. Engine
  error messages are paraphrased.
- `console.log` output is not part of the model.
- Timers and the microtask queue are reduced to a discrete clock. A race tie goes to
  the lowest index.
- The cancel hooks on call and delay promises are stored but never called by the
  runtime, so they are not modelled as hooks. The call hook would call the
  non-existent `gen.throws`.
- A CALL or SPAWN effect handled with some other promisify is reduced to whether a
  promisify was passed at all (`canDrive`).
- Nested runtimes share their parent's cancel trigger; this is not modelled for
  evaluation. `Settle` treats every runtime's signal as never fulfilling.
- The synchronous side effects of spawned work are not modelled; only its effect on
  the spawn promise is.
- Objects with duplicate keys cannot exist in JavaScript. The contracts about objects
  assume distinct keys.
- Js.EnvValid: coroutines that yield forever, such as a poller looping over
  `yield delay(1000)`, are excluded, although each of their steps is finite. Nested
  evaluation is bounded by fuel.
- A coroutine that catches the invalid-yield TypeError and again yields a
  non-promise recurses synchronously in the source until the stack overflows.
  `Js.EnvValid` excludes this case, so the overflow is not modelled there.
- Synchronous stack overflow is modelled only in the legacy runtime, at a depth given
  as a parameter.
- The legacy middleware chain is called with the yielded value only. The extra
  `promisify`, `addTask` and `cancel` arguments are not passed to it.
- A foreign promise's `cancel()` that throws is not modelled.
- The `iterator` and `cancel` properties of a legacy task record are not part of its
  value. A generator object shared by two runtimes is not modelled.
- The promise `onCancel` returns, and the values of the `then` promises the runtimes
  create, are discarded by the source and are not modelled.
