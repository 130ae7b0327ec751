/**
 * The JavaScript world the task runtime lives in: the values a coroutine can yield,
 * the promises the runtime awaits (each described by how it was made), settle-once
 * promise state, and the opaque user code (functions, generators, foreign promises)
 * the runtime calls into.
 */
module Js {

  datatype Option<+T> = None | Some(value: T)

  /** A JavaScript value, as far as the runtime tells values apart. */
  datatype Value =
    | Undefined
    | Null
    | Bool(b: bool)
    | Num(n: int)
    | Str(s: string)
    | Arr(elems: seq<Value>)
    | Obj(props: seq<Prop>)        // a plain object, its properties in insertion order
    | Func(fid: nat)               // a function that is not a generator function
    | GenFunc(gid: nat)            // a generator function
    | Iter(start: nat)             // a generator object, suspended at coroutine state `start`
    | Promise(fut: Fut)            // a promise; `fut` records how it was made
    | Error(name: string, message: string)

  datatype Prop = Prop(key: string, val: Value)

  /**
   * How a promise was made. The synchronous work a promise executor does is carried
   * out when the promise is evaluated (Factory.Settle); nothing in the model is
   * shared and mutable, so this does not change any outcome.
   */
  datatype Fut =
    | External(pid: nat)                                  // made by user code
    | Signal                                              // a runtime's cancellation signal
    | CallOf(fn: Value, args: Value, canDrive: bool)      // callEffect
    | SpawnOf(fn: Value, args: Value, canDrive: bool)     // spawnEffect
    | DelayOf(ms: Value)                                  // delayEffect
    | RaceOf(entrants: seq<Value>)                        // Promise.race over an array
    | RaceKeysOf(keys: seq<string>, tagged: seq<Prop>)    // raceEffect over an object; each entrant tagged with its key
    | AllOf(elems: seq<Value>)                            // Promise.all over an array
    | ObjectOf(results: seq<Prop>, deferred: seq<Prop>)   // objectToPromise
    | RunOf(fn: Value)                                    // a nested runtime

  /** JavaScript truthiness (NaN is not modelled: numbers are integers). */
  predicate Truthy(v: Value) {
    match v
    case Undefined => false
    case Null => false
    case Bool(b) => b
    case Num(n) => n != 0
    case Str(s) => s != ""
    case _ => true
  }

  /** `isObject`: a plain object, whose constructor is Object. */
  predicate IsObject(v: Value) { v.Obj? }

  /** `typeof v === 'function'`. */
  predicate IsFunction(v: Value) { v.Func? || v.GenFunc? }

  /** `isPromise`: the value has a `then` method. */
  predicate IsPromise(v: Value) { v.Promise? }

  /** `typeof v.next === 'function'`: the value can be driven as a coroutine. */
  predicate HasNext(v: Value) { v.Iter? }

  /** A promise is an object, so it is always truthy: `p && isPromise(p)` is `isPromise(p)`. */
  lemma PromiseIsTruthy(v: Value)
    ensures (Truthy(v) && IsPromise(v)) == IsPromise(v)
  {
  }

  function TypeError(message: string): Value {
    Error("TypeError", message)
  }

  /** `Object.keys` of a plain object. */
  function Keys(props: seq<Prop>): (ks: seq<string>)
    ensures |ks| == |props|
    ensures forall i :: 0 <= i < |props| ==> ks[i] == props[i].key
  {
    if props == [] then [] else [props[0].key] + Keys(props[1..])
  }

  /** The keys of two property lists laid end to end. */
  lemma KeysConcat(ps: seq<Prop>, qs: seq<Prop>)
    ensures Keys(ps + qs) == Keys(ps) + Keys(qs)
  {
    var l, r := Keys(ps + qs), Keys(ps) + Keys(qs);
    assert |l| == |r|;
    forall i | 0 <= i < |l|
      ensures l[i] == r[i]
    {
      if i < |ps| {
        assert (ps + qs)[i] == ps[i];
      } else {
        assert (ps + qs)[i] == qs[i - |ps|];
      }
    }
  }

  /** JavaScript objects never hold a key twice. */
  ghost predicate UniqueKeys(props: seq<Prop>) {
    forall i, j :: 0 <= i < j < |props| ==> props[i].key != props[j].key
  }

  function Lookup(props: seq<Prop>, key: string): (r: Value)
    ensures r == Undefined || exists i :: 0 <= i < |props| && r == props[i].val
  {
    if props == [] then Undefined
    else if props[0].key == key then props[0].val
    else Lookup(props[1..], key)
  }

  /** Property read `v[key]`: undefined when absent or when `v` is not a plain object. */
  function Get(v: Value, key: string): (r: Value)
    ensures r == Undefined || r < v
  {
    if v.Obj? then Lookup(v.props, key) else Undefined
  }

  /** Property write `props[key] = val`: replaces an existing key in place, else appends. */
  function Assign(props: seq<Prop>, key: string, val: Value): (r: seq<Prop>)
    ensures Lookup(r, key) == val
  {
    if props == [] then [Prop(key, val)]
    else if props[0].key == key then [Prop(key, val)] + props[1..]
    else [props[0]] + Assign(props[1..], key, val)
  }

  /** Writing an existing key keeps the key list; writing a new key appends it. */
  lemma {:induction false} AssignKeys(props: seq<Prop>, key: string, val: Value)
    ensures key in Keys(props) ==> Keys(Assign(props, key, val)) == Keys(props)
    ensures key !in Keys(props) ==> Keys(Assign(props, key, val)) == Keys(props) + [key]
  {
    if props != [] {
      var rest := props[1..];
      assert props == [props[0]] + rest;
      KeysCons(props[0], rest);
      if props[0].key == key {
        KeysCons(Prop(key, val), rest);
        assert Keys(props)[0] == key;
      } else {
        AssignKeys(rest, key, val);
        KeysCons(props[0], Assign(rest, key, val));
        assert (key in Keys(props)) == (key in Keys(rest));
        if key !in Keys(rest) {
          assert [props[0].key] + (Keys(rest) + [key]) == [props[0].key] + Keys(rest) + [key];
        }
      }
    }
  }

  /** The keys of a property list with one property in front. */
  lemma KeysCons(p: Prop, ps: seq<Prop>)
    ensures Keys([p] + ps) == [p.key] + Keys(ps)
  {
    assert ([p] + ps)[1..] == ps;
  }

  /** The keys of a property list with one property added at the end. */
  lemma KeysSnoc(ps: seq<Prop>, p: Prop)
    ensures Keys(ps + [p]) == Keys(ps) + [p.key]
  {
    KeysConcat(ps, [p]);
    assert Keys([p]) == [p.key];
  }

  /** The keys of a prefix one property longer. */
  lemma KeysPrefix(obj: seq<Prop>, i: nat)
    requires i < |obj|
    ensures Keys(obj[..i + 1]) == Keys(obj[..i]) + [obj[i].key]
  {
    assert obj[..i + 1] == obj[..i] + [obj[i]];
    KeysSnoc(obj[..i], obj[i]);
  }

  /** With distinct keys, the key at `i` is not among those before it. */
  lemma FreshKey(obj: seq<Prop>, i: nat)
    requires UniqueKeys(obj) && i < |obj|
    ensures obj[i].key !in Keys(obj[..i])
    ensures forall j :: 0 <= j < i ==> obj[j].key != obj[i].key
  {
    forall j | 0 <= j < i
      ensures Keys(obj[..i])[j] != obj[i].key
    {
      assert obj[..i][j] == obj[j];
    }
  }

  lemma {:induction false} LookupAt(props: seq<Prop>, i: nat)
    requires UniqueKeys(props) && i < |props|
    ensures Lookup(props, props[i].key) == props[i].val
  {
    if i > 0 {
      LookupAt(props[1..], i - 1);
    }
  }

  lemma {:induction false} LookupMissing(props: seq<Prop>, key: string)
    requires key !in Keys(props)
    ensures Lookup(props, key) == Undefined
  {
    if props != [] {
      assert Keys(props) == [props[0].key] + Keys(props[1..]);
      LookupMissing(props[1..], key);
    }
  }

  /** Writing one key leaves every other key's value as it was. */
  lemma {:induction false} LookupAssignOther(props: seq<Prop>, key: string, val: Value, other: string)
    requires other != key
    ensures Lookup(Assign(props, key, val), other) == Lookup(props, other)
  {
    if props != [] && props[0].key != key {
      LookupAssignOther(props[1..], key, val, other);
    }
  }

  /** Writing a key the object does not hold appends it. */
  lemma {:induction false} AssignAppends(props: seq<Prop>, key: string, val: Value)
    requires key !in Keys(props)
    ensures Assign(props, key, val) == props + [Prop(key, val)]
  {
    if props != [] {
      assert props[0].key != key by {
        assert Keys(props)[0] == props[0].key;
      }
      forall j | 0 <= j < |props| - 1
        ensures Keys(props[1..])[j] != key
      {
        assert Keys(props[1..])[j] == props[j + 1].key == Keys(props)[j + 1];
      }
      AssignAppends(props[1..], key, val);
      calc {
        Assign(props, key, val);
        [props[0]] + Assign(props[1..], key, val);
        [props[0]] + (props[1..] + [Prop(key, val)]);
        { assert props == [props[0]] + props[1..]; }
        props + [Prop(key, val)];
      }
    }
  }

  /** An existing key is overwritten at its own position; every other property stays. */
  lemma {:induction false} AssignAt(props: seq<Prop>, i: nat, val: Value)
    requires UniqueKeys(props) && i < |props|
    ensures Assign(props, props[i].key, val) == props[i := Prop(props[i].key, val)]
  {
    if i > 0 {
      AssignAt(props[1..], i - 1, val);
      assert props[1..][i - 1 := Prop(props[i].key, val)] == props[i := Prop(props[i].key, val)][1..];
    }
  }

  /** `...args`: only arrays are spread (strings and other iterables are not modelled). */
  function Spread(args: Value): (r: Option<seq<Value>>)
    ensures r.Some? <==> args.Arr?
  {
    if args.Arr? then Some(args.elems) else None
  }

  /** Element `i` of an array, `undefined` past its end. */
  function Elem(a: seq<Value>, i: nat): Value {
    if i < |a| then a[i] else Undefined
  }

  datatype Outcome = Fulfilled(value: Value) | Rejected(reason: Value)

  /** How a synchronous call ends: with a value or with a thrown exception. */
  datatype Completion<T> = Normal(value: T) | Throw(error: Value)

  /**
   * The state of a promise. Once resolved with a thenable it follows that thenable
   * and no later resolve or reject can change it; once settled it never changes.
   */
  datatype PromiseState = Pending | Following(target: Value) | Settled(outcome: Outcome)

  /** The promise's `resolve` function. */
  function Resolve(p: PromiseState, v: Value): PromiseState {
    if !p.Pending? then p
    else if IsPromise(v) then Following(v)
    else Settled(Fulfilled(v))
  }

  /** The promise's `reject` function. */
  function Reject(p: PromiseState, e: Value): PromiseState {
    if !p.Pending? then p else Settled(Rejected(e))
  }

  /** One call of a promise's `resolve` or `reject`. */
  datatype SettleCall = ResolveCall(value: Value) | RejectCall(reason: Value)

  function Apply(p: PromiseState, c: SettleCall): PromiseState {
    match c
    case ResolveCall(v) => Resolve(p, v)
    case RejectCall(e) => Reject(p, e)
  }

  function ApplyAll(p: PromiseState, calls: seq<SettleCall>): PromiseState
    decreases |calls|
  {
    if calls == [] then p else ApplyAll(Apply(p, calls[0]), calls[1..])
  }

  /**
   * Settle-once: whatever sequence of resolve and reject calls a pending promise
   * receives, only the first one has an effect.
   */
  lemma {:induction false} FirstCallWins(calls: seq<SettleCall>)
    requires calls != []
    ensures ApplyAll(Pending, calls) == Apply(Pending, calls[0])
    ensures !ApplyAll(Pending, calls).Pending?
  {
    SettledStays(Apply(Pending, calls[0]), calls[1..]);
  }

  lemma {:induction false} SettledStays(p: PromiseState, calls: seq<SettleCall>)
    requires !p.Pending?
    ensures ApplyAll(p, calls) == p
  {
    if calls != [] {
      SettledStays(Apply(p, calls[0]), calls[1..]);
    }
  }

  /**
   * What a middleware is called with: the yielded value, the runtime's promisify
   * (absent when the caller passes only the value) and the cancellation signal.
   */
  datatype Args = Args(value: Value, promisify: Option<Value -> Value>, cancel: Option<Value>)

  /** The function a middleware hands its result to; the chain's innermost one is the identity. */
  type NextFn = Args -> Completion<Value>

  /** A middleware wraps the rest of the chain. */
  type Middleware = NextFn -> NextFn

  /** A coroutine step: `iter.next(v)` or `iter.throw(e)`. */
  datatype Resume = Send(value: Value) | ThrowIn(error: Value)

  /** What a step reports: `{value, done: false}`, `{value, done: true}`, or an exception. */
  datatype Step = Yielded(value: Value, next: nat) | Returned(value: Value) | Raised(error: Value)

  /**
   * The code the runtime cannot see: user functions, methods called through a
   * `[receiver, name]` pair, generator bodies (as a step function over opaque
   * coroutine states), and promises made by user code (their outcome and the time
   * at which they settle, or None if they never settle). `rank` bounds how many more
   * times a coroutine can yield.
   */
  datatype Env = Env(
    apply: (Value, seq<Value>) -> Completion<Value>,
    invoke: (Value, Value, seq<Value>) -> Completion<Value>,
    resume: (nat, Resume) -> Step,
    rank: nat -> nat,
    external: nat -> Option<(Outcome, nat)>)

  /** Every coroutine finishes: each yield lowers its rank. */
  ghost predicate EnvValid(env: Env) {
    forall s: nat, r: Resume :: env.resume(s, r).Yielded? ==> env.rank(env.resume(s, r).next) < env.rank(s)
  }

  /** A generator object's state: suspended at a coroutine state, or finished. */
  datatype CoState = Live(state: nat) | Closed

  /**
   * Stepping a generator. A finished generator reports done with `undefined` on
   * `next` and rethrows what `throw` is given.
   */
  function Advance(env: Env, co: CoState, r: Resume): Step {
    match co
    case Live(s) => env.resume(s, r)
    case Closed => if r.Send? then Returned(Undefined) else Raised(r.error)
  }

  /** The generator's state after a step. */
  function After(ret: Step): CoState {
    if ret.Yielded? then Live(ret.next) else Closed
  }
}
