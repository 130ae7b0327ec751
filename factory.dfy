/**
 * The task runtime of src/factory.ts: middleware composition, the `promisify`
 * normalizer with `objectToPromise`, the step function that reacts to each
 * `{value, done}` a coroutine reports, the promises effects produce and how they
 * settle, and the runtime object with its cancel trigger.
 */
module Factory {
  import opened Js
  import opened Effect

  // ---------------------------------------------------------------------------
  // applyMiddleware
  // ---------------------------------------------------------------------------

  /** `n = (effect) => effect`: the innermost link of every chain. */
  function Identity(): NextFn {
    (a: Args) => Normal(a.value)
  }

  /** `middlewares.reduce(compose, acc)`: each middleware wraps the chain built so far. */
  function Compose(mws: seq<Middleware>, acc: NextFn): NextFn
    decreases |mws|
  {
    if mws == [] then acc else Compose(mws[1..], mws[0](acc))
  }

  /** `applyMiddleware(middlewares)`: the chain the runtime calls with each yielded value. */
  function ApplyMiddleware(mws: seq<Middleware>): NextFn {
    Compose(mws, Identity())
  }

  /** With no middleware the chain returns the yielded value itself. */
  lemma ChainEmpty(a: Args)
    ensures ApplyMiddleware([])(a) == Normal(a.value)
  {
  }

  /** Folding a concatenation folds the second list over the fold of the first. */
  lemma {:induction false} ComposeAppend(xs: seq<Middleware>, ys: seq<Middleware>, acc: NextFn)
    ensures Compose(xs + ys, acc) == Compose(ys, Compose(xs, acc))
    decreases |xs|
  {
    if xs != [] {
      assert (xs + ys)[0] == xs[0];
      assert (xs + ys)[1..] == xs[1..] + ys;
      ComposeAppend(xs[1..], ys, xs[0](acc));
    } else {
      assert xs + ys == ys;
    }
  }

  /** The last middleware in the list is outermost: it is the one the runtime calls. */
  lemma LastIsOutermost(mws: seq<Middleware>)
    requires mws != []
    ensures ApplyMiddleware(mws) == mws[|mws| - 1](ApplyMiddleware(mws[..|mws| - 1]))
  {
    assert mws == mws[..|mws| - 1] + [mws[|mws| - 1]];
    ComposeAppend(mws[..|mws| - 1], [mws[|mws| - 1]], Identity());
  }

  /** `factory(...middleware)`: the user's middleware followed by the effect interpreter. */
  function FactoryMiddleware(user: seq<Middleware>): seq<Middleware> {
    user + [EffectMiddleware]
  }

  /**
   * Because the interpreter comes last it runs first: user middleware of a `factory`
   * sees the already interpreted effect, without the promisify and the signal.
   */
  lemma FactoryInterpretsFirst(user: seq<Middleware>, a: Args)
    requires Handle(a.promisify, a.value).Normal?
    ensures ApplyMiddleware(FactoryMiddleware(user))(a)
      == ApplyMiddleware(user)(Args(Handle(a.promisify, a.value).value, None, None))
  {
    LastIsOutermost(FactoryMiddleware(user));
    assert FactoryMiddleware(user)[..|user|] == user;
  }

  /** `task = factoryBase(effectMiddleware)`: the chain is exactly the effect interpreter. */
  lemma TaskChainInterprets(a: Args)
    ensures ApplyMiddleware([EffectMiddleware])(a) == Handle(a.promisify, a.value)
  {
    var c: seq<Middleware> := [EffectMiddleware];
    assert c[1..] == [];
    assert Compose(c, Identity()) == Compose(c[1..], c[0](Identity()));
    assert Compose(c[1..], c[0](Identity())) == c[0](Identity());
    assert c[0](Identity()) == EffectMiddleware(Identity());
  }

  // ---------------------------------------------------------------------------
  // promisify and objectToPromise
  // ---------------------------------------------------------------------------

  /**
   * `promisify(obj)`. Falsy values and promises come back as they are; functions,
   * generator functions and generators are driven by a nested runtime sharing this
   * runtime's middleware and signal; arrays become `Promise.all` over their
   * normalized elements; plain objects go to `objectToPromise`; anything else comes
   * back as it is.
   */
  function Normalize(v: Value): (r: Value)
    ensures !Truthy(v) || IsPromise(v) ==> r == v
    ensures !IsPromise(r) ==> r == v
    ensures IsPromise(r) <==> Truthy(v) && (IsPromise(v) || IsFunction(v) || HasNext(v) || v.Arr? || IsObject(v))
    decreases v, 1
  {
    if !Truthy(v) then v
    else if IsPromise(v) then v
    else if IsFunction(v) || HasNext(v) then Promise(RunOf(v))
    else if v.Arr? then Promise(AllOf(NormalizeEach(v.elems)))
    else if IsObject(v) then Promise(ObjectOf(Presets(v.props), Deferred(v.props)))
    else v
  }

  /** `obj.map(promisify)`. */
  function NormalizeEach(es: seq<Value>): (rs: seq<Value>)
    ensures |rs| == |es|
    ensures forall i :: 0 <= i < |es| ==> rs[i] == Normalize(es[i])
    decreases es, 0
  {
    if es == [] then [] else [Normalize(es[0])] + NormalizeEach(es[1..])
  }

  /** Whether `objectToPromise` waits for a property: its normalized value is a promise. */
  predicate Defers(p: Prop)
    decreases p, 0
  {
    IsPromise(Normalize(p.val))
  }

  /**
   * The `results` object `objectToPromise` hands to `Promise.all`'s continuation, as
   * it stands before any promise settles: every key of the input, in order; a key
   * whose value normalizes to a promise is preset to undefined, every other key
   * keeps its original value.
   */
  function Presets(props: seq<Prop>): (r: seq<Prop>)
    ensures |r| == |props|
    ensures forall i :: 0 <= i < |props| ==> r[i].key == props[i].key
    ensures forall i :: 0 <= i < |props| ==>
      r[i].val == (if Defers(props[i]) then Undefined else props[i].val)
    decreases props, 0
  {
    seq(|props|, i requires 0 <= i < |props| => Preset(props[i]))
  }

  function Preset(p: Prop): Prop
    decreases p, 1
  {
    if Defers(p) then Prop(p.key, Undefined) else p
  }

  /** The `promises` `objectToPromise` waits for, each with the key its result fills. */
  function Deferred(props: seq<Prop>): (r: seq<Prop>)
    ensures forall i :: 0 <= i < |r| ==> IsPromise(r[i].val)
    ensures |r| <= |props|
    decreases props, 0
  {
    if props == [] then []
    else
      var last := props[|props| - 1];
      var init := Deferred(props[..|props| - 1]);
      if Defers(last) then init + [Prop(last.key, Normalize(last.val))] else init
  }

  /** One turn of `objectToPromise`'s loop settles the preset of key `i` in `results`. */
  lemma PresetStep(obj: seq<Prop>, i: nat)
    requires UniqueKeys(obj) && i < |obj|
    ensures Assign(Presets(obj[..i]) + obj[i..], obj[i].key, Preset(obj[i]).val)
      == Presets(obj[..i + 1]) + obj[i + 1..]
  {
    PresetKeys(obj, i);
    AssignAt(Presets(obj[..i]) + obj[i..], i, Preset(obj[i]).val);
    PresetSplice(obj, i);
  }

  /** Halfway through the loop `results` still holds every key of the input once, in order. */
  lemma PresetKeys(obj: seq<Prop>, i: nat)
    requires UniqueKeys(obj) && i < |obj|
    ensures |Presets(obj[..i]) + obj[i..]| == |obj|
    ensures (Presets(obj[..i]) + obj[i..])[i] == obj[i]
    ensures UniqueKeys(Presets(obj[..i]) + obj[i..])
  {
    var before := Presets(obj[..i]) + obj[i..];
    forall j | 0 <= j < |obj|
      ensures before[j].key == obj[j].key
    {
      if j < i {
        assert before[j] == Presets(obj[..i])[j];
      } else {
        assert before[j] == obj[j];
      }
    }
  }

  /** Presetting key `i` in place extends the preset prefix by one. */
  lemma PresetSplice(obj: seq<Prop>, i: nat)
    requires i < |obj|
    ensures (Presets(obj[..i]) + obj[i..])[i := Prop(obj[i].key, Preset(obj[i]).val)]
      == Presets(obj[..i + 1]) + obj[i + 1..]
  {
    var before := (Presets(obj[..i]) + obj[i..])[i := Prop(obj[i].key, Preset(obj[i]).val)];
    var after := Presets(obj[..i + 1]) + obj[i + 1..];
    forall j | 0 <= j < |obj|
      ensures before[j] == after[j]
    {
      if j < i {
        assert before[j] == Presets(obj[..i])[j] == Preset(obj[j]);
        assert after[j] == Presets(obj[..i + 1])[j] == Preset(obj[j]);
      } else if j == i {
        assert after[j] == Presets(obj[..i + 1])[i] == Preset(obj[i]);
      } else {
        assert before[j] == obj[j] == after[j];
      }
    }
  }

  /** One turn of `objectToPromise`'s loop, in the two cases of its test. */
  lemma ObjectLoopStep(obj: seq<Prop>, i: nat, results: seq<Prop>, promises: seq<Prop>)
    requires UniqueKeys(obj) && i < |obj|
    requires results == Presets(obj[..i]) + obj[i..] && promises == Deferred(obj[..i])
    ensures Lookup(obj, Keys(obj)[i]) == obj[i].val
    ensures IsPromise(Normalize(obj[i].val)) ==>
      Assign(results, obj[i].key, Undefined) == Presets(obj[..i + 1]) + obj[i + 1..] &&
      promises + [Prop(obj[i].key, Normalize(obj[i].val))] == Deferred(obj[..i + 1])
    ensures !IsPromise(Normalize(obj[i].val)) ==>
      Assign(results, obj[i].key, obj[i].val) == Presets(obj[..i + 1]) + obj[i + 1..] &&
      promises == Deferred(obj[..i + 1])
  {
    LookupAt(obj, i);
    PresetStep(obj, i);
    assert obj[..i + 1][..i] == obj[..i];
    assert obj[..i + 1][i] == obj[i];
    if IsPromise(Normalize(obj[i].val)) {
      assert Preset(obj[i]).val == Undefined;
    } else {
      assert Preset(obj[i]) == obj[i];
    }
  }

  /** After the last key, the loop's state describes the whole object. */
  lemma ObjectLoopDone(obj: seq<Prop>)
    ensures Presets(obj[..|obj|]) + obj[|obj|..] == Presets(obj)
    ensures Deferred(obj[..|obj|]) == Deferred(obj)
  {
    assert obj[..|obj|] == obj && obj[|obj|..] == [];
    assert Presets(obj) + [] == Presets(obj);
  }

  /**
   * `objectToPromise(obj)`: the key loop that fills `results` and `promises`. The
   * promise it returns is the one `Normalize` describes for a plain object.
   */
  method ObjectToPromise(obj: seq<Prop>) returns (r: Value)
    requires UniqueKeys(obj)
    ensures r == Promise(ObjectOf(Presets(obj), Deferred(obj)))
  {
    var results := obj;
    var keys := Keys(obj);
    var promises: seq<Prop> := [];
    for i := 0 to |keys|
      invariant results == Presets(obj[..i]) + obj[i..]
      invariant promises == Deferred(obj[..i])
    {
      var key := keys[i];
      ObjectLoopStep(obj, i, results, promises);
      var promise := Normalize(Lookup(obj, key));
      PromiseIsTruthy(promise);
      if Truthy(promise) && IsPromise(promise) {
        results := Assign(results, key, Undefined);
        promises := promises + [Prop(key, promise)];
      } else {
        results := Assign(results, key, Lookup(obj, key));
      }
    }
    ObjectLoopDone(obj);
    r := Promise(ObjectOf(results, promises));
  }

  /** `promisify` of a plain object is the promise `objectToPromise` returns. */
  lemma NormalizeObject(props: seq<Prop>)
    ensures Normalize(Obj(props)) == Promise(ObjectOf(Presets(props), Deferred(props)))
  {
  }

  // ---------------------------------------------------------------------------
  // The runtime's reaction to one coroutine step: onFulfilled, onRejected, next
  // ---------------------------------------------------------------------------

  /** The text of the TypeError thrown into a coroutine that yields an unusable value. */
  const INVALID_YIELD: string :=
    "You may only yield a function, promise, generator, array, or object, but the following object was passed: "

  /** The value the cancel trigger throws into the coroutine. */
  const CANCEL_THROWN: Value := Str("1 generator was cancelled")

  /** The reason the cancel trigger rejects with when the coroutine survives the throw. */
  const CANCEL_REASON: Value := Obj([Prop("error", Str("2 generator was cancelled"))])

  /** The value the cancel trigger fulfils the signal with. */
  const CANCEL_ACTIVATED: Value := Str("cancel has been activated")

  /** Where the synchronous part of a runtime stops. */
  datatype Pause =
    | Resolved(value: Value)             // `resolve(value)` was called (a promise is adopted)
    | Failed(error: Value, co: CoState)  // `reject(error)` was called; the coroutine is left in `co`
    | Awaiting(promise: Value, state: nat)  // `promise.then(onFulfilled, onRejected)`, suspended at `state`

  /** Twice the number of yields a step can still be followed by, plus two for a yield. */
  function StepRank(env: Env, ret: Step): nat {
    if ret.Yielded? then 2 * env.rank(ret.next) + 2 else 0
  }

  /** The measure of `onRejected`: between that of the step before it and the one after. */
  function CoMeasure(env: Env, co: CoState): nat {
    if co.Live? then 2 * env.rank(co.state) + 1 else 1
  }

  /**
   * `next(ret)` together with the `onRejected` calls it makes: a finished coroutine
   * resolves the task with its value; a raised exception rejects it; a yielded value
   * goes through the middleware chain (with the runtime's promisify and cancel
   * signal) and then through `promisify`; a promise is awaited; anything else has a
   * TypeError thrown into the coroutine at the point where it yielded. An exception
   * out of the middleware rejects the task and leaves the coroutine suspended.
   */
  function Drive(env: Env, mws: seq<Middleware>, signal: Value, ret: Step): (p: Pause)
    requires EnvValid(env)
    ensures p.Awaiting? ==> Truthy(p.promise) && IsPromise(p.promise)
    ensures p.Failed? && p.co.Live? ==> ret.Yielded?
    decreases StepRank(env, ret)
  {
    match ret
    case Raised(e) => Failed(e, Closed)
    case Returned(v) => Resolved(v)
    case Yielded(v, n) =>
      match ApplyMiddleware(mws)(Args(v, Some(Normalize), Some(signal)))
      case Throw(e) => Failed(e, Live(n))
      case Normal(taskValue) =>
        var promiseValue := Normalize(taskValue);
        if Truthy(promiseValue) && IsPromise(promiseValue) then Awaiting(promiseValue, n)
        else Drive(env, mws, signal, env.resume(n, ThrowIn(TypeError(INVALID_YIELD))))
  }

  /** When a step reports `done`, the task resolves with that step's value. */
  lemma DoneResolves(env: Env, mws: seq<Middleware>, signal: Value, v: Value)
    requires EnvValid(env)
    ensures Drive(env, mws, signal, Returned(v)) == Resolved(v)
  {
  }

  /** An exception escaping `iter.next` or `iter.throw` rejects the task with it. */
  lemma RaisedRejects(env: Env, mws: seq<Middleware>, signal: Value, e: Value)
    requires EnvValid(env)
    ensures Drive(env, mws, signal, Raised(e)) == Failed(e, Closed)
  {
  }

  /**
   * A value that is still not a promise after the middleware and `promisify` makes
   * the runtime throw a TypeError into the coroutine where it yielded; the runtime
   * then carries on with whatever the coroutine does with it.
   */
  lemma InvalidYieldThrowsIn(env: Env, mws: seq<Middleware>, signal: Value, v: Value, n: nat)
    requires EnvValid(env)
    requires ApplyMiddleware(mws)(Args(v, Some(Normalize), Some(signal))).Normal?
    requires !IsPromise(Normalize(ApplyMiddleware(mws)(Args(v, Some(Normalize), Some(signal))).value))
    ensures Drive(env, mws, signal, Yielded(v, n))
      == Drive(env, mws, signal, env.resume(n, ThrowIn(TypeError(INVALID_YIELD))))
  {
  }

  /**
   * With the plain `task` runtime, yielding a number (nothing `promisify` turns into
   * a promise) and not catching the TypeError rejects the task with that TypeError.
   */
  lemma YieldingNumberRejects(env: Env, signal: Value, k: int, n: nat)
    requires EnvValid(env)
    requires env.resume(n, ThrowIn(TypeError(INVALID_YIELD))) == Raised(TypeError(INVALID_YIELD))
    ensures Drive(env, [EffectMiddleware], signal, Yielded(Num(k), n)) == Failed(TypeError(INVALID_YIELD), Closed)
  {
    TaskChainInterprets(Args(Num(k), Some(Normalize), Some(signal)));
  }

  /** How a settled awaited promise resumes the coroutine: `onFulfilled` or `onRejected`. */
  function ResumeWith(o: Outcome): Resume {
    match o
    case Fulfilled(v) => Send(v)
    case Rejected(e) => ThrowIn(e)
  }

  /** `fn.apply(ctx, args)` for a function, otherwise `fn` itself is the iterator. */
  function Iterate(env: Env, fn: Value, args: seq<Value>): Completion<Value> {
    if IsFunction(fn) then env.apply(fn, args) else Normal(fn)
  }

  /**
   * The promise executor of `runtime` up to its first pause: get the iterator, resolve
   * at once with anything that has no `next`, otherwise kickstart it with `next()`.
   * An exception from `fn.apply` rejects the task.
   */
  function Kickoff(env: Env, mws: seq<Middleware>, signal: Value, fn: Value, args: seq<Value>): (p: Pause)
    requires EnvValid(env)
    ensures Iterate(env, fn, args).Normal? && !HasNext(Iterate(env, fn, args).value) ==>
      p == Resolved(Iterate(env, fn, args).value)
    ensures Iterate(env, fn, args).Throw? ==> p == Failed(Iterate(env, fn, args).error, Closed)
  {
    match Iterate(env, fn, args)
    case Throw(e) => Failed(e, Closed)
    case Normal(iter) =>
      if !Truthy(iter) || !HasNext(iter) then Resolved(iter)
      else Drive(env, mws, signal, env.resume(iter.start, Send(Undefined)))
  }

  /** The parts of a runtime's state the step functions change. */
  datatype RunState = RunState(co: CoState, task: PromiseState, awaiting: Option<Value>)

  /** The effect of a pause on the runtime: settle the task, or await a promise. */
  function Commit(f: RunState, p: Pause): RunState {
    match p
    case Resolved(v) => RunState(Closed, Resolve(f.task, v), f.awaiting)
    case Failed(e, co) => RunState(co, Reject(f.task, e), f.awaiting)
    case Awaiting(q, s) => RunState(Live(s), f.task, Some(q))
  }

  /** A signal the runtime's middleware receive: the inherited one, or its own. */
  function SignalFor(inherited: Option<Value>): Value {
    if inherited.Some? then inherited.value else Promise(Signal)
  }

  /**
   * One `runtime` call: the promise it returns (`task`), the coroutine it drives, the
   * promise it currently awaits, and the cancel trigger with its signal promise.
   */
  class Runtime {
    const env: Env
    const mws: seq<Middleware>
    /** The cancel trigger was created here, because none was passed in. */
    const ownsTrigger: bool
    /** `cancelPromise`, as handed to the middleware. */
    const signalValue: Value
    var co: CoState
    var task: PromiseState
    var awaiting: Option<Value>
    /** The local `cancel` still refers to the trigger (it is cleared once the trigger has run). */
    var triggerArmed: bool
    /** The state of the signal promise the trigger fulfils. */
    var signal: PromiseState

    ghost predicate Valid()
      reads this
    {
      EnvValid(env)
    }

    function State(): RunState
      reads this
    {
      RunState(co, task, awaiting)
    }

    /**
     * `runtime({fn, args, cancel, cancelPromise, middleware})`; `inherited` is the
     * `cancelPromise` that comes with a `cancel` function, if one was passed. The
     * trigger is created only for a coroutine and only when none was passed in; the
     * coroutine is then kickstarted.
     */
    constructor (env: Env, mws: seq<Middleware>, fn: Value, args: seq<Value>, inherited: Option<Value>)
      requires EnvValid(env)
      ensures Valid() && this.env == env && this.mws == mws
      ensures var it := Iterate(env, fn, args);
        ownsTrigger == (it.Normal? && HasNext(it.value) && inherited.None?)
      ensures signalValue == SignalFor(inherited)
      ensures triggerArmed == ownsTrigger && signal == Pending
      ensures State() == Commit(RunState(Closed, Pending, None), Kickoff(env, mws, SignalFor(inherited), fn, args))
    {
      this.env := env;
      this.mws := mws;
      signalValue := SignalFor(inherited);
      var it := Iterate(env, fn, args);
      ownsTrigger := it.Normal? && HasNext(it.value) && inherited.None?;
      triggerArmed := it.Normal? && HasNext(it.value) && inherited.None?;
      signal := Pending;
      awaiting := None;
      co := Closed;
      task := Pending;
      new;
      if it.Throw? {
        task := Reject(task, it.error);
      } else if !Truthy(it.value) || !HasNext(it.value) {
        task := Resolve(task, it.value);
      } else {
        co := Live(it.value.start);
        OnFulfilled(Undefined);
      }
    }

    /** `onFulfilled(res)`: resume the coroutine with `res`; an exception rejects the task. */
    method OnFulfilled(res: Value)
      requires Valid()
      modifies this
      ensures State() == Commit(old(State()), Drive(env, mws, signalValue, Advance(env, old(co), Send(res))))
      ensures triggerArmed == old(triggerArmed) && signal == old(signal)
    {
      var ret := Advance(env, co, Send(res));
      co := After(ret);
      if ret.Raised? {
        task := Reject(task, ret.error);
      } else {
        Next(ret);
      }
    }

    /** `onRejected(err)`: throw `err` into the coroutine; an exception rejects the task. */
    method OnRejected(err: Value)
      requires Valid()
      modifies this
      ensures State() == Commit(old(State()), Drive(env, mws, signalValue, Advance(env, old(co), ThrowIn(err))))
      ensures triggerArmed == old(triggerArmed) && signal == old(signal)
      decreases CoMeasure(env, co)
    {
      var ret := Advance(env, co, ThrowIn(err));
      co := After(ret);
      if ret.Raised? {
        task := Reject(task, ret.error);
      } else {
        Next(ret);
      }
    }

    /**
     * `next(ret)`: resolve on `done`; otherwise run the middleware chain and
     * `promisify`, await a promise, or throw a TypeError into the coroutine.
     */
    method Next(ret: Step)
      requires Valid() && !ret.Raised? && co == After(ret)
      modifies this
      ensures State() == Commit(old(State()), Drive(env, mws, signalValue, ret))
      ensures triggerArmed == old(triggerArmed) && signal == old(signal)
      decreases StepRank(env, ret)
    {
      if ret.Returned? {
        task := Resolve(task, ret.value);
        return;
      }
      var taskValue := ApplyMiddleware(mws)(Args(ret.value, Some(Normalize), Some(signalValue)));
      if taskValue.Throw? {
        task := Reject(task, taskValue.error);
        return;
      }
      var promiseValue := Normalize(taskValue.value);
      if Truthy(promiseValue) && IsPromise(promiseValue) {
        awaiting := Some(promiseValue);
        return;
      }
      OnRejected(TypeError(INVALID_YIELD));
    }

    /** The awaited promise settles: `promiseValue.then(onFulfilled, onRejected)` fires. */
    method AwaitedSettles(o: Outcome)
      requires Valid() && awaiting.Some?
      modifies this
      ensures State() == Commit(old(State()).(awaiting := None), Drive(env, mws, signalValue, Advance(env, old(co), ResumeWith(o))))
      ensures triggerArmed == old(triggerArmed) && signal == old(signal)
    {
      awaiting := None;
      match o
      case Fulfilled(v) => OnFulfilled(v);
      case Rejected(e) => OnRejected(e);
    }

    /**
     * `promise.cancel()`: throw into the coroutine; reject the task with what the
     * coroutine raised or, if it survived, with `{error: '2 generator was cancelled'}`;
     * fulfil the signal; clear the local trigger. What the coroutine yields in
     * response is not acted on, and the awaited promise stays registered.
     */
    method Cancel()
      requires Valid() && ownsTrigger
      modifies this
      ensures var ret := Advance(env, old(co), ThrowIn(CANCEL_THROWN));
        co == After(ret) &&
        task == Reject(old(task), if ret.Raised? then ret.error else CANCEL_REASON)
      ensures awaiting == old(awaiting)
      ensures signal == Resolve(old(signal), CANCEL_ACTIVATED) && !triggerArmed
      ensures old(task).Pending? ==> task.Settled? && task.outcome.Rejected?
      ensures old(signal).Pending? ==> signal == Settled(Fulfilled(CANCEL_ACTIVATED))
    {
      var ret := Advance(env, co, ThrowIn(CANCEL_THROWN));
      co := After(ret);
      if ret.Raised? {
        task := Reject(task, ret.error);
      } else {
        task := Reject(task, CANCEL_REASON);
      }
      signal := Resolve(signal, CANCEL_ACTIVATED);
      triggerArmed := false;
    }
  }

  // ---------------------------------------------------------------------------
  // How the promises of effects and of nested runtimes settle
  // ---------------------------------------------------------------------------

  /**
   * When and how a promise settles, on a discrete clock: with an outcome at a time,
   * never, or beyond the evaluation's fuel.
   */
  datatype Settlement = At(outcome: Outcome, time: nat) | Never | OutOfFuel

  function Max(a: nat, b: nat): nat { if a < b then b else a }

  /** `setTimeout(resolve, ms)`: a non-number or negative delay fires at once. */
  function DelayMs(ms: Value): nat {
    if ms.Num? && ms.n > 0 then ms.n else 0
  }

  /** A settlement that can win a race (`rejectedOnly`: that can end a `Promise.all`). */
  predicate Candidate(s: Settlement, rejectedOnly: bool) {
    s.At? && (!rejectedOnly || s.outcome.Rejected?)
  }

  /**
   * The first settlement among candidates: the earliest time, and among equal times
   * the lowest index (promises already settled are reacted to in order).
   */
  function Earliest(ss: seq<Settlement>, rejectedOnly: bool): (r: Option<nat>)
    ensures r.Some? ==> r.value < |ss| && Candidate(ss[r.value], rejectedOnly)
    ensures r.Some? ==> forall j :: 0 <= j < |ss| && Candidate(ss[j], rejectedOnly) ==>
      ss[r.value].time < ss[j].time || (ss[r.value].time == ss[j].time && r.value <= j)
    ensures r.None? <==> forall j :: 0 <= j < |ss| ==> !Candidate(ss[j], rejectedOnly)
  {
    if ss == [] then None
    else
      var rest := Earliest(ss[1..], rejectedOnly);
      if Candidate(ss[0], rejectedOnly) && (rest.None? || ss[0].time <= ss[1 + rest.value].time) then Some(0)
      else if rest.Some? then Some(rest.value + 1)
      else None
  }

  predicate AnyOutOfFuel(ss: seq<Settlement>) {
    exists i :: 0 <= i < |ss| && ss[i].OutOfFuel?
  }

  /** `Promise.race`: the first entrant to settle decides; with no entrant it never settles. */
  function Race(ss: seq<Settlement>): (r: Settlement)
    ensures r.At? ==> exists i :: 0 <= i < |ss| && r == ss[i]
    ensures r.At? ==> forall j :: 0 <= j < |ss| && ss[j].At? ==> r.time <= ss[j].time
    ensures !AnyOutOfFuel(ss) && (exists j :: 0 <= j < |ss| && ss[j].At?) ==> r.At?
    ensures r == Never <==> !AnyOutOfFuel(ss) && forall j :: 0 <= j < |ss| ==> !ss[j].At?
  {
    if AnyOutOfFuel(ss) then OutOfFuel
    else match Earliest(ss, false)
      case None => Never
      case Some(i) => ss[i]
  }

  /** The values of settlements that all fulfilled. */
  function FulfilledValues(ss: seq<Settlement>): (vs: seq<Value>)
    requires forall i :: 0 <= i < |ss| ==> ss[i].At? && ss[i].outcome.Fulfilled?
    ensures |vs| == |ss| && forall i :: 0 <= i < |ss| ==> vs[i] == ss[i].outcome.value
  {
    if ss == [] then [] else [ss[0].outcome.value] + FulfilledValues(ss[1..])
  }

  /** The time the last of the settlements happens, and no earlier than `now`. */
  function Latest(ss: seq<Settlement>, now: nat): (t: nat)
    requires forall i :: 0 <= i < |ss| ==> ss[i].At?
    ensures t >= now && forall i :: 0 <= i < |ss| ==> ss[i].time <= t
  {
    if ss == [] then now else Max(ss[0].time, Latest(ss[1..], now))
  }

  /**
   * `Promise.all`: rejects as soon as any element rejects; otherwise, once every
   * element has fulfilled, fulfils with their values in order.
   */
  function Gather(ss: seq<Settlement>, now: nat): (r: Settlement)
    ensures r.At? && r.outcome.Fulfilled? ==>
      (forall i :: 0 <= i < |ss| ==> ss[i].At? && ss[i].outcome.Fulfilled?) &&
      r.outcome.value == Arr(FulfilledValues(ss))
    ensures r.At? && r.outcome.Rejected? ==> exists i :: 0 <= i < |ss| && r == ss[i]
    ensures !AnyOutOfFuel(ss) && (exists i :: 0 <= i < |ss| && Candidate(ss[i], true)) ==>
      r.At? && r.outcome.Rejected? &&
      forall j :: 0 <= j < |ss| && Candidate(ss[j], true) ==> r.time <= ss[j].time
  {
    if AnyOutOfFuel(ss) then OutOfFuel
    else match Earliest(ss, true)
      case Some(i) => ss[i]
      case None =>
        if exists i :: 0 <= i < |ss| && ss[i].Never? then Never
        else At(Fulfilled(Arr(FulfilledValues(ss))), Latest(ss, now))
  }

  /** The object `raceEffect` resolves with: every key, only the winner's holding a result. */
  function RaceResult(keys: seq<string>, winner: string, result: Value): (r: seq<Prop>)
    ensures Keys(r) == keys
    ensures forall i :: 0 <= i < |keys| ==> r[i].val == (if keys[i] == winner then result else Undefined)
  {
    if keys == [] then []
    else [Prop(keys[0], if keys[0] == winner then result else Undefined)] + RaceResult(keys[1..], winner, result)
  }

  /** The race over key-tagged entrants, then the reduce that builds the result object. */
  function RaceKeyed(keys: seq<string>, tagged: seq<Prop>, ss: seq<Settlement>): Settlement
    requires |ss| == |tagged|
  {
    match Race(ss)
    case At(Fulfilled(x), t) =>
      var i := Earliest(ss, false).value;
      At(Fulfilled(Obj(RaceResult(keys, tagged[i].key, x))), t)
    case other => other
  }

  /** `results[key] = res` for each deferred key, in order. */
  function Fill(results: seq<Prop>, deferred: seq<Prop>, vs: seq<Value>): seq<Prop>
    requires |vs| == |deferred|
    decreases |deferred|
  {
    if deferred == [] then results
    else Fill(Assign(results, deferred[0].key, vs[0]), deferred[1..], vs[1..])
  }

  /** `Promise.all(promises).then(() => results)`. */
  function ObjectOutcome(results: seq<Prop>, deferred: seq<Prop>, g: Settlement): Settlement
    requires g.At? && g.outcome.Fulfilled? ==> g.outcome.value.Arr? && |g.outcome.value.elems| == |deferred|
  {
    match g
    case At(Fulfilled(vs), t) => At(Fulfilled(Obj(Fill(results, deferred, vs.elems))), t)
    case other => other
  }

  /** `fn.call(this, ...args)`. */
  function CallFn(env: Env, fn: Value, args: Value): Completion<Value> {
    if !IsFunction(fn) then Throw(TypeError("fn.call is not a function"))
    else match Spread(args)
      case None => Throw(TypeError("args is not iterable"))
      case Some(spread) => env.apply(fn, spread)
  }

  /**
   * `spawnEffect`'s promise: it calls `fn` and promisifies the result, then resolves
   * at once with undefined without waiting for the spawned work. It rejects only if
   * that synchronous part throws (no promisify, or a result with no `then`).
   */
  function SettleSpawn(env: Env, fn: Value, args: Value, canDrive: bool, now: nat): (r: Settlement)
    ensures r.At? && r.time == now
  {
    match CallFn(env, fn, args)
    case Throw(e) => At(Rejected(e), now)
    case Normal(result) =>
      if !canDrive then At(Rejected(TypeError("promisify is not a function")), now)
      else if IsPromise(Normalize(result)) then At(Fulfilled(Undefined), now)
      else At(Rejected(TypeError("Cannot read properties of a non-promise (reading 'then')")), now)
  }

  /**
   * How the promise `v` settles when evaluated at time `now` (a value that is not a
   * promise is already fulfilled). Nested runtimes and adopted promises cost fuel.
   */
  function Settle(env: Env, mws: seq<Middleware>, fuel: nat, v: Value, now: nat): (r: Settlement)
    requires EnvValid(env)
    ensures r.At? ==> r.time >= now
    ensures !IsPromise(v) ==> r == At(Fulfilled(v), now)
    decreases fuel, v, 2
  {
    if v.Promise? then SettleFut(env, mws, fuel, v.fut, now) else At(Fulfilled(v), now)
  }

  function SettleFut(env: Env, mws: seq<Middleware>, fuel: nat, f: Fut, now: nat): (r: Settlement)
    requires EnvValid(env)
    ensures r.At? ==> r.time >= now
    decreases fuel, f, 1
  {
    match f
    case External(pid) =>
      (match env.external(pid)
       case None => Never
       case Some(settled) => At(settled.0, Max(settled.1, now)))
    case Signal => Never
    case CallOf(_, _, _) => SettleCall(env, mws, fuel, f, now)
    case SpawnOf(fn, args, canDrive) => SettleSpawn(env, fn, args, canDrive, now)
    case DelayOf(ms) => At(Fulfilled(Undefined), now + DelayMs(ms))
    case RaceOf(es) => Race(SettleEach(env, mws, fuel, es, now))
    case RaceKeysOf(keys, tagged) => RaceKeyed(keys, tagged, SettleProps(env, mws, fuel, tagged, now))
    case AllOf(es) => Gather(SettleEach(env, mws, fuel, es, now), now)
    case ObjectOf(results, deferred) =>
      ObjectOutcome(results, deferred, Gather(SettleProps(env, mws, fuel, deferred, now), now))
    case RunOf(fn) =>
      if fuel == 0 then OutOfFuel
      else RunFrom(env, mws, fuel - 1, Kickoff(env, mws, Promise(Signal), fn, []), now)
  }

  /**
   * `callEffect`'s promise. An array target `[obj, name, ...fargs]` resolves with
   * `obj[name](...fargs)`, ignoring `args`. Otherwise `fn(...args)` is called: a
   * result with no `next` resolves the promise (a promise result is adopted); a
   * generator is promisified and followed. A throw rejects it.
   */
  function SettleCall(env: Env, mws: seq<Middleware>, fuel: nat, f: Fut, now: nat): (r: Settlement)
    requires EnvValid(env) && f.CallOf?
    ensures r.At? ==> r.time >= now
    decreases fuel, f, 0
  {
    if f.fn.Arr? then
      var target := f.fn.elems;
      match env.invoke(Elem(target, 0), Elem(target, 1), if |target| < 2 then [] else target[2..])
      case Throw(e) => At(Rejected(e), now)
      case Normal(x) => if fuel == 0 then OutOfFuel else Settle(env, mws, fuel - 1, x, now)
    else match CallFn(env, f.fn, f.args)
      case Throw(e) => At(Rejected(e), now)
      case Normal(gen) =>
        if fuel == 0 then OutOfFuel
        else if !Truthy(gen) || !HasNext(gen) then Settle(env, mws, fuel - 1, gen, now)
        else if !f.canDrive then At(Rejected(TypeError("promisify is not a function")), now)
        else Settle(env, mws, fuel - 1, Normalize(gen), now)
  }

  function SettleEach(env: Env, mws: seq<Middleware>, fuel: nat, es: seq<Value>, now: nat): (ss: seq<Settlement>)
    requires EnvValid(env)
    ensures |ss| == |es|
    ensures forall i :: 0 <= i < |es| ==> ss[i] == Settle(env, mws, fuel, es[i], now)
    decreases fuel, es, 0
  {
    if es == [] then [] else [Settle(env, mws, fuel, es[0], now)] + SettleEach(env, mws, fuel, es[1..], now)
  }

  function SettleProps(env: Env, mws: seq<Middleware>, fuel: nat, ps: seq<Prop>, now: nat): (ss: seq<Settlement>)
    requires EnvValid(env)
    ensures |ss| == |ps|
    ensures forall i :: 0 <= i < |ps| ==> ss[i] == Settle(env, mws, fuel, ps[i].val, now)
    decreases fuel, ps, 0
  {
    if ps == [] then [] else [Settle(env, mws, fuel, ps[0].val, now)] + SettleProps(env, mws, fuel, ps[1..], now)
  }

  /**
   * A runtime from a pause on: a resolved task adopts its value; a rejected one is
   * done; an awaited promise resumes the coroutine when it settles.
   */
  function RunFrom(env: Env, mws: seq<Middleware>, fuel: nat, p: Pause, now: nat): (r: Settlement)
    requires EnvValid(env)
    ensures r.At? ==> r.time >= now
    decreases fuel, 0, 0
  {
    match p
    case Failed(e, _) => At(Rejected(e), now)
    case Resolved(v) => if fuel == 0 then OutOfFuel else Settle(env, mws, fuel - 1, v, now)
    case Awaiting(q, s) =>
      if fuel == 0 then OutOfFuel
      else match Settle(env, mws, fuel - 1, q, now)
        case At(o, t) => RunFrom(env, mws, fuel - 1, Drive(env, mws, Promise(Signal), env.resume(s, ResumeWith(o))), t)
        case other => other
  }

  /**
   * `factoryBase(...middleware)(fn, ...args)`: the task promise of a fresh runtime, as
   * it settles when nothing cancels it.
   */
  function Task(env: Env, mws: seq<Middleware>, fuel: nat, fn: Value, args: seq<Value>, now: nat): (r: Settlement)
    requires EnvValid(env)
    ensures r.At? ==> r.time >= now
  {
    RunFrom(env, mws, fuel, Kickoff(env, mws, Promise(Signal), fn, args), now)
  }

  // ---------------------------------------------------------------------------
  // Properties of settlement
  // ---------------------------------------------------------------------------

  /**
   * A plain function (its result has no `next`) makes a task that resolves at once
   * with what the function returned: a function returning 'hi' gives 'hi'.
   */
  lemma PlainFunctionTask(env: Env, mws: seq<Middleware>, fuel: nat, fn: Value, args: seq<Value>, x: Value, now: nat)
    requires EnvValid(env) && fuel >= 1
    requires IsFunction(fn) && env.apply(fn, args) == Normal(x) && !HasNext(x) && !IsPromise(x)
    ensures Task(env, mws, fuel, fn, args, now) == At(Fulfilled(x), now)
  {
  }

  /** `call(fn, ...args)` of a function whose result has no `next` resolves with that result. */
  lemma CallPlainFunction(env: Env, mws: seq<Middleware>, fuel: nat, fn: Value, args: seq<Value>, canDrive: bool, x: Value, now: nat)
    requires EnvValid(env) && fuel >= 1
    requires IsFunction(fn) && env.apply(fn, args) == Normal(x) && !HasNext(x) && !IsPromise(x)
    ensures Settle(env, mws, fuel, Promise(CallOf(fn, Arr(args), canDrive)), now) == At(Fulfilled(x), now)
  {
    var f := CallOf(fn, Arr(args), canDrive);
    assert CallFn(env, fn, Arr(args)) == Normal(x);
    assert SettleCall(env, mws, fuel, f, now) == Settle(env, mws, fuel - 1, x, now);
  }

  /**
   * `call([obj, name, ...fargs], ...args)` calls `obj[name](...fargs)`: `args` and the
   * promisify play no part, and the call's outcome is the promise's.
   */
  lemma CallArrayTarget(env: Env, mws: seq<Middleware>, fuel: nat, obj: Value, name: Value, fargs: seq<Value>,
                        args1: Value, args2: Value, c1: bool, c2: bool, now: nat)
    requires EnvValid(env)
    ensures var target := Arr([obj, name] + fargs);
      Settle(env, mws, fuel, Promise(CallOf(target, args1, c1)), now)
        == Settle(env, mws, fuel, Promise(CallOf(target, args2, c2)), now)
    ensures var target := Arr([obj, name] + fargs);
      env.invoke(obj, name, fargs).Throw? ==>
        Settle(env, mws, fuel, Promise(CallOf(target, args1, c1)), now) == At(Rejected(env.invoke(obj, name, fargs).error), now)
    ensures var target := Arr([obj, name] + fargs);
      fuel >= 1 && env.invoke(obj, name, fargs).Normal? && !IsPromise(env.invoke(obj, name, fargs).value) ==>
        Settle(env, mws, fuel, Promise(CallOf(target, args1, c1)), now) == At(Fulfilled(env.invoke(obj, name, fargs).value), now)
  {
    var target := [obj, name] + fargs;
    assert Elem(target, 0) == obj && Elem(target, 1) == name && target[2..] == fargs;
    var c := env.invoke(obj, name, fargs);
    var s1 := Settle(env, mws, fuel, Promise(CallOf(Arr(target), args1, c1)), now);
    var s2 := Settle(env, mws, fuel, Promise(CallOf(Arr(target), args2, c2)), now);
    assert s1 == SettleFut(env, mws, fuel, CallOf(Arr(target), args1, c1), now)
              == SettleCall(env, mws, fuel, CallOf(Arr(target), args1, c1), now);
    assert s2 == SettleFut(env, mws, fuel, CallOf(Arr(target), args2, c2), now)
              == SettleCall(env, mws, fuel, CallOf(Arr(target), args2, c2), now);
    if c.Throw? {
      assert s1 == At(Rejected(c.error), now) == s2;
    } else if fuel == 0 {
      assert s1 == OutOfFuel == s2;
    } else {
      assert s1 == Settle(env, mws, fuel - 1, c.value, now) == s2;
    }
  }

  /** A task yielding `call(fn, ...args)` awaits the promise `callEffect` makes. */
  lemma TaskAwaitsCall(env: Env, signal: Value, fn: Value, args: seq<Value>, n: nat)
    requires EnvValid(env)
    ensures Drive(env, [EffectMiddleware], signal, Yielded(Call(fn, args), n))
      == Awaiting(Promise(CallOf(fn, Arr(args), true)), n)
  {
    TaskChainInterprets(Args(Call(fn, args), Some(Normalize), Some(signal)));
  }

  /**
   * ...and once that promise settles the coroutine is resumed with the outcome: a
   * function returning 'hi' sends 'hi' back into the coroutine.
   */
  lemma AwaitedCallResumes(env: Env, mws: seq<Middleware>, fuel: nat, fn: Value, args: seq<Value>, canDrive: bool,
                           x: Value, s: nat, now: nat)
    requires EnvValid(env) && fuel >= 2
    requires IsFunction(fn) && env.apply(fn, args) == Normal(x) && !HasNext(x) && !IsPromise(x)
    ensures RunFrom(env, mws, fuel, Awaiting(Promise(CallOf(fn, Arr(args), canDrive)), s), now)
      == RunFrom(env, mws, fuel - 1, Drive(env, mws, Promise(Signal), env.resume(s, Send(x))), now)
  {
    CallPlainFunction(env, mws, fuel - 1, fn, args, canDrive, x, now);
  }

  /**
   * `Promise.all` over an array whose elements all fulfil fulfils with their values,
   * element by element, once the last of them has settled.
   */
  lemma AllFulfilsElementwise(env: Env, mws: seq<Middleware>, fuel: nat, es: seq<Value>, xs: seq<Value>, now: nat)
    requires EnvValid(env) && |xs| == |es|
    requires forall i :: 0 <= i < |es| ==>
      Settle(env, mws, fuel, es[i], now).At? && Settle(env, mws, fuel, es[i], now).outcome == Fulfilled(xs[i])
    ensures Settle(env, mws, fuel, Promise(AllOf(es)), now).At?
    ensures Settle(env, mws, fuel, Promise(AllOf(es)), now).outcome == Fulfilled(Arr(xs))
  {
    var ss := SettleEach(env, mws, fuel, es, now);
    SettleAll(env, mws, fuel, es, now);
    assert !AnyOutOfFuel(ss);
    assert Earliest(ss, true).None?;
    assert !exists i :: 0 <= i < |ss| && ss[i].Never?;
    assert FulfilledValues(ss) == xs;
  }

  /** `Promise.all` that rejects does so with the rejection of one of its elements. */
  lemma AllRejectsWithElement(env: Env, mws: seq<Middleware>, fuel: nat, es: seq<Value>, now: nat)
    requires EnvValid(env)
    requires Settle(env, mws, fuel, Promise(AllOf(es)), now).At?
    requires Settle(env, mws, fuel, Promise(AllOf(es)), now).outcome.Rejected?
    ensures exists i :: 0 <= i < |es| && Settle(env, mws, fuel, es[i], now) == Settle(env, mws, fuel, Promise(AllOf(es)), now)
  {
    var ss := SettleEach(env, mws, fuel, es, now);
    SettleAll(env, mws, fuel, es, now);
    var i :| 0 <= i < |ss| && Gather(ss, now) == ss[i];
    assert Settle(env, mws, fuel, es[i], now) == ss[i];
  }

  /**
   * `Promise.all` with an element that rejects (and every element evaluated) rejects,
   * with the first rejection: no element rejects earlier.
   */
  lemma AllRejectsOnRejection(env: Env, mws: seq<Middleware>, fuel: nat, es: seq<Value>, k: nat, now: nat)
    requires EnvValid(env) && k < |es|
    requires forall i :: 0 <= i < |es| ==> !Settle(env, mws, fuel, es[i], now).OutOfFuel?
    requires Settle(env, mws, fuel, es[k], now).At? && Settle(env, mws, fuel, es[k], now).outcome.Rejected?
    ensures Settle(env, mws, fuel, Promise(AllOf(es)), now).At?
    ensures Settle(env, mws, fuel, Promise(AllOf(es)), now).outcome.Rejected?
    ensures forall i :: 0 <= i < |es| && Candidate(Settle(env, mws, fuel, es[i], now), true) ==>
      Settle(env, mws, fuel, Promise(AllOf(es)), now).time <= Settle(env, mws, fuel, es[i], now).time
  {
    var ss := SettleEach(env, mws, fuel, es, now);
    SettleAll(env, mws, fuel, es, now);
    assert Candidate(ss[k], true);
    assert !AnyOutOfFuel(ss);
  }

  /** `Promise.all`'s promise settles as its elements gathered. */
  lemma SettleAll(env: Env, mws: seq<Middleware>, fuel: nat, es: seq<Value>, now: nat)
    requires EnvValid(env)
    ensures Settle(env, mws, fuel, Promise(AllOf(es)), now) == Gather(SettleEach(env, mws, fuel, es, now), now)
  {
    assert Settle(env, mws, fuel, Promise(AllOf(es)), now) == SettleFut(env, mws, fuel, AllOf(es), now);
  }

  /**
   * `race([...])` settles exactly as its first entrant to settle: no entrant settles
   * earlier, and among entrants settling at the same time the lowest index wins.
   */
  lemma RaceArrayResult(env: Env, mws: seq<Middleware>, fuel: nat, es: seq<Value>, now: nat, o: Outcome, t: nat)
    returns (w: nat)
    requires EnvValid(env)
    requires Settle(env, mws, fuel, Promise(RaceOf(es)), now) == At(o, t)
    ensures w < |es| && Settle(env, mws, fuel, es[w], now) == At(o, t)
    ensures forall j :: 0 <= j < |es| && Settle(env, mws, fuel, es[j], now).At? ==>
      t < Settle(env, mws, fuel, es[j], now).time || (t == Settle(env, mws, fuel, es[j], now).time && w <= j)
  {
    var ss := SettleEach(env, mws, fuel, es, now);
    assert Settle(env, mws, fuel, Promise(RaceOf(es)), now) == SettleFut(env, mws, fuel, RaceOf(es), now) == Race(ss);
    assert !AnyOutOfFuel(ss);
    w := Earliest(ss, false).value;
  }

  /** `race([...])` settles as soon as one entrant settles (when every entrant is evaluated). */
  lemma RaceArraySettles(env: Env, mws: seq<Middleware>, fuel: nat, es: seq<Value>, k: nat, now: nat)
    requires EnvValid(env) && k < |es|
    requires forall i :: 0 <= i < |es| ==> !Settle(env, mws, fuel, es[i], now).OutOfFuel?
    requires Settle(env, mws, fuel, es[k], now).At?
    ensures Settle(env, mws, fuel, Promise(RaceOf(es)), now).At?
    ensures Settle(env, mws, fuel, Promise(RaceOf(es)), now).time <= Settle(env, mws, fuel, es[k], now).time
  {
    var ss := SettleEach(env, mws, fuel, es, now);
    assert Settle(env, mws, fuel, Promise(RaceOf(es)), now) == SettleFut(env, mws, fuel, RaceOf(es), now) == Race(ss);
    assert ss[k].At? && !AnyOutOfFuel(ss);
  }

  /**
   * `race({...})`: the result holds every key in order; the key of the first entrant
   * to settle holds its result and every other key holds undefined.
   */
  lemma RaceObjectResult(env: Env, mws: seq<Middleware>, fuel: nat, keys: seq<string>, tagged: seq<Prop>,
                         now: nat, o: Value, t: nat) returns (w: nat)
    requires EnvValid(env)
    requires Settle(env, mws, fuel, Promise(RaceKeysOf(keys, tagged)), now) == At(Fulfilled(o), t)
    ensures w < |tagged|
    ensures Settle(env, mws, fuel, tagged[w].val, now).At? && Settle(env, mws, fuel, tagged[w].val, now).time == t
    ensures Settle(env, mws, fuel, tagged[w].val, now).outcome.Fulfilled?
    ensures forall j :: 0 <= j < |tagged| && Settle(env, mws, fuel, tagged[j].val, now).At? ==>
      t <= Settle(env, mws, fuel, tagged[j].val, now).time
    ensures o.Obj? && Keys(o.props) == keys
    ensures forall k :: 0 <= k < |keys| ==>
      o.props[k].val == (if keys[k] == tagged[w].key then Settle(env, mws, fuel, tagged[w].val, now).outcome.value else Undefined)
  {
    var ss := SettleProps(env, mws, fuel, tagged, now);
    assert Race(ss) != Never && !AnyOutOfFuel(ss);
    w := Earliest(ss, false).value;
    assert ss[w] == Race(ss);
  }

  /** `spawn(fn, ...args)` resolves at once with undefined, however the spawned work settles. */
  lemma SpawnDoesNotWait(env: Env, mws: seq<Middleware>, fuel: nat, fn: Value, args: Value, now: nat)
    requires EnvValid(env)
    requires CallFn(env, fn, args).Normal? && IsPromise(Normalize(CallFn(env, fn, args).value))
    ensures Settle(env, mws, fuel, Promise(SpawnOf(fn, args, true)), now) == At(Fulfilled(Undefined), now)
  {
  }

  /** `delay(ms)` fulfils with undefined `ms` ticks later. */
  lemma DelayFires(env: Env, mws: seq<Middleware>, fuel: nat, ms: nat, now: nat)
    requires EnvValid(env)
    ensures Settle(env, mws, fuel, Promise(DelayOf(Num(ms))), now) == At(Fulfilled(Undefined), now + ms)
  {
  }

  /** Filling deferred keys that already exist keeps the key list. */
  lemma {:induction false} FillKeys(results: seq<Prop>, deferred: seq<Prop>, vs: seq<Value>)
    requires |vs| == |deferred|
    requires forall i :: 0 <= i < |deferred| ==> deferred[i].key in Keys(results)
    ensures Keys(Fill(results, deferred, vs)) == Keys(results)
    decreases |deferred|
  {
    if deferred != [] {
      AssignKeys(results, deferred[0].key, vs[0]);
      FillKeys(Assign(results, deferred[0].key, vs[0]), deferred[1..], vs[1..]);
    }
  }

  /** Filling other keys leaves a key's value as it was. */
  lemma {:induction false} FillOther(results: seq<Prop>, deferred: seq<Prop>, vs: seq<Value>, key: string)
    requires |vs| == |deferred|
    requires key !in Keys(deferred)
    ensures Lookup(Fill(results, deferred, vs), key) == Lookup(results, key)
    decreases |deferred|
  {
    if deferred != [] {
      assert Keys(deferred) == [deferred[0].key] + Keys(deferred[1..]);
      LookupAssignOther(results, deferred[0].key, vs[0], key);
      FillOther(Assign(results, deferred[0].key, vs[0]), deferred[1..], vs[1..], key);
    }
  }

  /** A key whose value does not normalize to a promise is never among the deferred keys. */
  lemma {:induction false} DeferredKeys(props: seq<Prop>, i: nat)
    requires i < |props| && UniqueKeys(props) && !Defers(props[i])
    ensures props[i].key !in Keys(Deferred(props))
  {
    var n := |props| - 1;
    var init := props[..n];
    if i < n {
      assert UniqueKeys(init);
      assert init[i] == props[i];
      DeferredKeys(init, i);
      DeferredGrows(props, props[i].key);
    } else {
      DeferredLastKey(props);
    }
  }

  /** Taking one more property defers at most that property's key. */
  lemma DeferredGrows(props: seq<Prop>, key: string)
    requires props != [] && key != props[|props| - 1].key
    requires key !in Keys(Deferred(props[..|props| - 1]))
    ensures key !in Keys(Deferred(props))
  {
    var last := props[|props| - 1];
    if Defers(last) {
      KeysConcat(Deferred(props[..|props| - 1]), [Prop(last.key, Normalize(last.val))]);
    }
  }

  /** With distinct keys, a last property that is not deferred leaves its key out. */
  lemma DeferredLastKey(props: seq<Prop>)
    requires props != [] && UniqueKeys(props) && !Defers(props[|props| - 1])
    ensures props[|props| - 1].key !in Keys(Deferred(props))
  {
    var n := |props| - 1;
    FreshKey(props, n);
    DeferredAbsent(props[..n], props[n].key);
  }

  /** Every deferred promise is filed under a key of the input. */
  lemma {:induction false} DeferredKeysIn(props: seq<Prop>)
    ensures forall i :: 0 <= i < |Deferred(props)| ==> Deferred(props)[i].key in Keys(props)
  {
    if props != [] {
      var n := |props| - 1;
      var init := props[..n];
      DeferredKeysIn(init);
      KeysPrefix(props, n);
      assert props[..n + 1] == props;
      forall i | 0 <= i < |Deferred(props)|
        ensures Deferred(props)[i].key in Keys(props)
      {
        if i < |Deferred(init)| {
          assert Deferred(props)[i] == Deferred(init)[i];
        }
      }
    }
  }

  /** Only keys of the input are ever deferred. */
  lemma {:induction false} DeferredAbsent(props: seq<Prop>, key: string)
    requires key !in Keys(props)
    ensures key !in Keys(Deferred(props))
  {
    if props != [] {
      var init := props[..|props| - 1];
      assert props == init + [props[|props| - 1]];
      KeysConcat(init, [props[|props| - 1]]);
      DeferredAbsent(init, key);
      DeferredGrows(props, key);
    }
  }

  /**
   * `objectToPromise`'s result object once every deferred promise has fulfilled: the
   * input's keys in their order, and a key whose value did not normalize to a promise
   * keeps its value.
   */
  lemma FilledObject(props: seq<Prop>, vs: seq<Value>)
    requires UniqueKeys(props) && |vs| == |Deferred(props)|
    ensures Keys(Fill(Presets(props), Deferred(props), vs)) == Keys(props)
    ensures forall i :: 0 <= i < |props| && !Defers(props[i]) ==>
      Lookup(Fill(Presets(props), Deferred(props), vs), props[i].key) == props[i].val
  {
    var results, deferred := Presets(props), Deferred(props);
    assert Keys(results) == Keys(props);
    assert UniqueKeys(results);
    DeferredKeysIn(props);
    FillKeys(results, deferred, vs);
    forall i | 0 <= i < |props| && !Defers(props[i])
      ensures Lookup(Fill(results, deferred, vs), props[i].key) == props[i].val
    {
      DeferredKeys(props, i);
      FillOther(results, deferred, vs, props[i].key);
      LookupAt(results, i);
    }
  }

  /**
   * The promise a plain object normalizes to, if it fulfils, fulfils with an object
   * holding exactly the input's keys, the non-deferred ones with their own values.
   */
  lemma ObjectKeepsKeys(env: Env, mws: seq<Middleware>, fuel: nat, props: seq<Prop>, now: nat, o: Value, t: nat)
    requires EnvValid(env) && UniqueKeys(props)
    requires Settle(env, mws, fuel, Normalize(Obj(props)), now) == At(Fulfilled(o), t)
    ensures o.Obj? && Keys(o.props) == Keys(props)
    ensures forall i :: 0 <= i < |props| && !Defers(props[i]) ==> Lookup(o.props, props[i].key) == props[i].val
  {
    NormalizeObject(props);
    var vs := ObjectFills(env, mws, fuel, Presets(props), Deferred(props), now, o, t);
    FilledObject(props, vs);
  }

  /** A fulfilled `objectToPromise` promise holds its results with the deferred keys filled in. */
  lemma ObjectFills(env: Env, mws: seq<Middleware>, fuel: nat, results: seq<Prop>, deferred: seq<Prop>,
                    now: nat, o: Value, t: nat) returns (vs: seq<Value>)
    requires EnvValid(env)
    requires Settle(env, mws, fuel, Promise(ObjectOf(results, deferred)), now) == At(Fulfilled(o), t)
    ensures |vs| == |deferred| && o == Obj(Fill(results, deferred, vs))
    ensures forall i :: 0 <= i < |deferred| ==>
      Settle(env, mws, fuel, deferred[i].val, now).At? && Settle(env, mws, fuel, deferred[i].val, now).outcome == Fulfilled(vs[i])
  {
    var ss := SettleProps(env, mws, fuel, deferred, now);
    var g := Gather(ss, now);
    assert Settle(env, mws, fuel, Promise(ObjectOf(results, deferred)), now) == ObjectOutcome(results, deferred, g);
    vs := g.outcome.value.elems;
    assert FulfilledValues(ss) == vs;
  }

  /** `promisify` of a function or an iterator is a nested runtime with the same middleware: it settles as `task(fn)`. */
  lemma NestedRuntime(env: Env, mws: seq<Middleware>, fuel: nat, f: Value, now: nat)
    requires EnvValid(env) && fuel >= 1
    requires Truthy(f) && !IsPromise(f) && (IsFunction(f) || HasNext(f))
    ensures Settle(env, mws, fuel, Normalize(f), now) == Task(env, mws, fuel - 1, f, [], now)
  {
    assert Normalize(f) == Promise(RunOf(f));
    assert Settle(env, mws, fuel, Promise(RunOf(f)), now) == SettleFut(env, mws, fuel, RunOf(f), now);
  }

  /** `promisify` of an array whose promisified elements all fulfil fulfils with their values in order. */
  lemma NormalizeArray(env: Env, mws: seq<Middleware>, fuel: nat, es: seq<Value>, xs: seq<Value>, now: nat)
    requires EnvValid(env) && |xs| == |es|
    requires forall i :: 0 <= i < |es| ==>
      Settle(env, mws, fuel, Normalize(es[i]), now).At? && Settle(env, mws, fuel, Normalize(es[i]), now).outcome == Fulfilled(xs[i])
    ensures Settle(env, mws, fuel, Normalize(Arr(es)), now).At?
    ensures Settle(env, mws, fuel, Normalize(Arr(es)), now).outcome == Fulfilled(Arr(xs))
  {
    var ns := NormalizeEach(es);
    assert Normalize(Arr(es)) == Promise(AllOf(ns));
    AllFulfilsElementwise(env, mws, fuel, ns, xs, now);
  }

  /** `promisify` of an array that rejects does so as one of its promisified elements. */
  lemma NormalizeArrayRejects(env: Env, mws: seq<Middleware>, fuel: nat, es: seq<Value>, now: nat)
    requires EnvValid(env)
    requires Settle(env, mws, fuel, Normalize(Arr(es)), now).At?
    requires Settle(env, mws, fuel, Normalize(Arr(es)), now).outcome.Rejected?
    ensures exists i :: (0 <= i < |es| &&
      Settle(env, mws, fuel, Normalize(es[i]), now) == Settle(env, mws, fuel, Normalize(Arr(es)), now))
  {
    var ns := NormalizeEach(es);
    assert Normalize(Arr(es)) == Promise(AllOf(ns));
    AllRejectsWithElement(env, mws, fuel, ns, now);
    var i :| 0 <= i < |ns| && Settle(env, mws, fuel, ns[i], now) == Settle(env, mws, fuel, Promise(AllOf(ns)), now);
    assert ns[i] == Normalize(es[i]);
  }

  /** `d` is the promise some deferring property of `props` normalized to, under that property's key. */
  ghost predicate DeferredFrom(props: seq<Prop>, d: Prop) {
    exists k :: 0 <= k < |props| && Defers(props[k]) && d == Prop(props[k].key, Normalize(props[k].val))
  }

  /** Every deferred entry is the promise a deferring property normalized to, under that property's key. */
  lemma {:induction false} DeferredEntries(props: seq<Prop>)
    ensures forall j :: 0 <= j < |Deferred(props)| ==> DeferredFrom(props, Deferred(props)[j])
  {
    if props != [] {
      var n := |props| - 1;
      var init := props[..n];
      DeferredEntries(init);
      forall j | 0 <= j < |Deferred(props)|
        ensures DeferredFrom(props, Deferred(props)[j])
      {
        if j < |Deferred(init)| {
          assert Deferred(props)[j] == Deferred(init)[j];
          var k :| 0 <= k < |init| && Defers(init[k]) && Deferred(init)[j] == Prop(init[k].key, Normalize(init[k].val));
          assert init[k] == props[k];
          assert Defers(props[k]) && Deferred(props)[j] == Prop(props[k].key, Normalize(props[k].val));
        } else {
          assert Defers(props[n]) && Deferred(props)[j] == Prop(props[n].key, Normalize(props[n].val));
          assert DeferredFrom(props, Deferred(props)[j]);
        }
      }
    }
  }

  /** Every property whose value normalizes to a promise has that promise deferred under its key. */
  lemma {:induction false} DeferredComplete(props: seq<Prop>, k: nat)
    requires k < |props| && Defers(props[k])
    ensures Prop(props[k].key, Normalize(props[k].val)) in Deferred(props)
  {
    var n := |props| - 1;
    var init := props[..n];
    if k < n {
      assert init[k] == props[k];
      DeferredComplete(init, k);
    }
  }

  /** With distinct keys in the input, the deferred entries have distinct keys too. */
  lemma {:induction false} DeferredUnique(props: seq<Prop>)
    requires UniqueKeys(props)
    ensures UniqueKeys(Deferred(props))
  {
    if props != [] {
      var n := |props| - 1;
      var init := props[..n];
      assert UniqueKeys(init) by {
        forall i, j | 0 <= i < j < |init|
          ensures init[i].key != init[j].key
        {
          assert init[i] == props[i] && init[j] == props[j];
        }
      }
      DeferredUnique(init);
      if Defers(props[n]) {
        FreshKey(props, n);
        DeferredAbsent(init, props[n].key);
        UniqueSnoc(Deferred(init), Prop(props[n].key, Normalize(props[n].val)));
      }
    }
  }

  /** A property list stays free of repeated keys when a fresh key is added at the end. */
  lemma UniqueSnoc(ps: seq<Prop>, p: Prop)
    requires UniqueKeys(ps) && p.key !in Keys(ps)
    ensures UniqueKeys(ps + [p])
  {
    forall i, j | 0 <= i < j < |ps| + 1
      ensures (ps + [p])[i].key != (ps + [p])[j].key
    {
      if j == |ps| {
        assert (ps + [p])[i].key == Keys(ps)[i];
      }
    }
  }

  /** With distinct deferred keys, filling leaves the key of entry `j` holding `vs[j]`. */
  lemma {:induction false} FillLookup(results: seq<Prop>, deferred: seq<Prop>, vs: seq<Value>, j: nat)
    requires |vs| == |deferred| && UniqueKeys(deferred) && j < |deferred|
    ensures Lookup(Fill(results, deferred, vs), deferred[j].key) == vs[j]
    decreases |deferred|
  {
    var rest := deferred[1..];
    var written := Assign(results, deferred[0].key, vs[0]);
    if j == 0 {
      forall i | 0 <= i < |rest|
        ensures Keys(rest)[i] != deferred[0].key
      {
        assert rest[i] == deferred[i + 1];
      }
      FillOther(written, rest, vs[1..], deferred[0].key);
    } else {
      assert UniqueKeys(rest) by {
        forall i, k | 0 <= i < k < |rest|
          ensures rest[i].key != rest[k].key
        {
          assert rest[i] == deferred[i + 1] && rest[k] == deferred[k + 1];
        }
      }
      assert rest[j - 1] == deferred[j];
      FillLookup(written, rest, vs[1..], j - 1);
    }
  }

  /**
   * A fulfilled plain-object promise holds, under each key whose value normalized to a
   * promise, what that promise fulfilled with: the preset undefined has been replaced.
   */
  lemma ObjectDeferredFilled(env: Env, mws: seq<Middleware>, fuel: nat, props: seq<Prop>, now: nat, o: Value, t: nat)
    requires EnvValid(env) && UniqueKeys(props)
    requires Settle(env, mws, fuel, Normalize(Obj(props)), now) == At(Fulfilled(o), t)
    ensures o.Obj?
    ensures forall k :: 0 <= k < |props| && Defers(props[k]) ==>
      Settle(env, mws, fuel, Normalize(props[k].val), now).At? &&
      Settle(env, mws, fuel, Normalize(props[k].val), now).outcome == Fulfilled(Lookup(o.props, props[k].key))
  {
    NormalizeObject(props);
    var deferred := Deferred(props);
    var vs := ObjectFills(env, mws, fuel, Presets(props), deferred, now, o, t);
    DeferredUnique(props);
    forall k | 0 <= k < |props| && Defers(props[k])
      ensures Settle(env, mws, fuel, Normalize(props[k].val), now).At? &&
        Settle(env, mws, fuel, Normalize(props[k].val), now).outcome == Fulfilled(Lookup(o.props, props[k].key))
    {
      DeferredComplete(props, k);
      var j :| 0 <= j < |deferred| && deferred[j] == Prop(props[k].key, Normalize(props[k].val));
      FillLookup(Presets(props), deferred, vs, j);
    }
  }
}
