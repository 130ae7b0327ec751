/**
 * Effect descriptors and their interpreter (src/effect.ts): constructors build inert
 * tagged plain objects; `Handle` dispatches on the tag and turns a descriptor into a
 * promise (or, for ALL, into an array or object of promises); anything else passes
 * through unchanged.
 */
module Effect {
  import opened Js

  const CALL: string := "CALL"
  const ALL: string := "ALL"
  const RACE: string := "RACE"
  const SPAWN: string := "SPAWN"
  const DELAY: string := "DELAY"

  /** `typeDetector(type)(value)`: a truthy plain object whose `type` field is `type`. */
  predicate TypeDetector(tag: string, v: Value) {
    Truthy(v) && IsObject(v) && Get(v, "type") == Str(tag)
  }

  /** Which handler `effectHandler` picks, testing CALL, ALL, RACE, SPAWN, DELAY in that order. */
  datatype Kind = CallKind | AllKind | RaceKind | SpawnKind | DelayKind | Plain

  function Dispatch(v: Value): Kind {
    if TypeDetector(CALL, v) then CallKind
    else if TypeDetector(ALL, v) then AllKind
    else if TypeDetector(RACE, v) then RaceKind
    else if TypeDetector(SPAWN, v) then SpawnKind
    else if TypeDetector(DELAY, v) then DelayKind
    else Plain
  }

  /** `call(fn, ...args)`. */
  function Call(fn: Value, args: seq<Value>): (e: Value)
    ensures Dispatch(e) == CallKind
    ensures Get(e, "fn") == fn && Get(e, "args") == Arr(args)
  {
    var props := [Prop("type", Str(CALL)), Prop("fn", fn), Prop("args", Arr(args))];
    assert props[0].key != "fn" && props[0].key != "args" && props[1].key != "args";
    assert props[1..] == [Prop("fn", fn), Prop("args", Arr(args))];
    assert props[1..][1..] == [Prop("args", Arr(args))];
    assert Lookup(props[1..][1..], "args") == Arr(args);
    assert Lookup(props[1..], "args") == Arr(args) && Lookup(props[1..], "fn") == fn;
    Obj(props)
  }

  /** `all(effects)`. */
  function All(effects: Value): (e: Value)
    ensures Dispatch(e) == AllKind
    ensures Get(e, "effects") == effects
  {
    var props := [Prop("type", Str(ALL)), Prop("effects", effects)];
    assert props[0].key != "effects";
    assert props[1..] == [Prop("effects", effects)];
    assert Lookup(props[1..], "effects") == effects;
    Obj(props)
  }

  /** `race(effects)`. */
  function Race(effects: Value): (e: Value)
    ensures Dispatch(e) == RaceKind
    ensures Get(e, "effects") == effects
  {
    var props := [Prop("type", Str(RACE)), Prop("effects", effects)];
    assert props[0].key != "effects";
    assert props[1..] == [Prop("effects", effects)];
    assert Lookup(props[1..], "effects") == effects;
    Obj(props)
  }

  /** `spawn(fn, ...args)`. */
  function Spawn(fn: Value, args: seq<Value>): (e: Value)
    ensures Dispatch(e) == SpawnKind
    ensures Get(e, "fn") == fn && Get(e, "args") == Arr(args)
  {
    var props := [Prop("type", Str(SPAWN)), Prop("fn", fn), Prop("args", Arr(args))];
    assert props[0].key != "fn" && props[0].key != "args" && props[1].key != "args";
    assert props[1..] == [Prop("fn", fn), Prop("args", Arr(args))];
    assert props[1..][1..] == [Prop("args", Arr(args))];
    assert Lookup(props[1..][1..], "args") == Arr(args);
    assert Lookup(props[1..], "args") == Arr(args) && Lookup(props[1..], "fn") == fn;
    Obj(props)
  }

  /** `delay(ms)`. */
  function Delay(ms: Value): (e: Value)
    ensures Dispatch(e) == DelayKind
    ensures Get(e, "ms") == ms
  {
    var props := [Prop("type", Str(DELAY)), Prop("ms", ms)];
    assert props[0].key != "ms";
    assert props[1..] == [Prop("ms", ms)];
    assert Lookup(props[1..], "ms") == ms;
    Obj(props)
  }

  /** No value is recognised under two tags, so the order of the tests never matters. */
  lemma DetectorsExclusive(t1: string, t2: string, v: Value)
    requires TypeDetector(t1, v) && TypeDetector(t2, v)
    ensures t1 == t2
  {
  }

  /**
   * `effectHandler(effect, promisify)`. CALL, SPAWN and DELAY become promises; ALL
   * becomes an array or object of interpreted children; RACE becomes a promise over
   * the normalized children, or throws; anything unrecognised is returned as it is.
   */
  function Handle(promisify: Option<Value -> Value>, e: Value): Completion<Value>
    decreases e, 2
  {
    match Dispatch(e)
    case CallKind => Normal(CallEffect(e, promisify))
    case AllKind => AllEffect(promisify, e)
    case RaceKind => RaceEffect(promisify, e)
    case SpawnKind => Normal(SpawnEffect(e, promisify))
    case DelayKind => Normal(DelayEffect(e))
    case Plain => Normal(e)
  }

  /** `callEffect`: a promise that calls `fn` (or `obj[name]` for `[obj, name, ...fargs]`). */
  function CallEffect(e: Value, promisify: Option<Value -> Value>): Value {
    Promise(CallOf(Get(e, "fn"), Get(e, "args"), promisify.Some?))
  }

  /** `spawnEffect`: a promise that starts `fn` and resolves without waiting for it. */
  function SpawnEffect(e: Value, promisify: Option<Value -> Value>): Value {
    Promise(SpawnOf(Get(e, "fn"), Get(e, "args"), promisify.Some?))
  }

  /** `delayEffect`: a promise that resolves when a timer of `ms` elapses. */
  function DelayEffect(e: Value): Value {
    Promise(DelayOf(Get(e, "ms")))
  }

  /**
   * `allEffect`: the children interpreted in order, in the shape they came in (an
   * array or a plain object); any other `effects` makes the handler return undefined.
   */
  function AllEffect(promisify: Option<Value -> Value>, e: Value): Completion<Value>
    decreases e, 1
  {
    var effects := Get(e, "effects");
    if effects.Arr? then
      match HandleEach(promisify, effects.elems)
      case Normal(hs) => Normal(Arr(hs))
      case Throw(err) => Throw(err)
    else if IsObject(effects) then
      match HandleProps(promisify, effects.props)
      case Normal(hps) => Normal(Obj(hps))
      case Throw(err) => Throw(err)
    else Normal(Undefined)
  }

  /** `effects.map(effect => effectHandler(effect, promisify))`: stops at the first throw. */
  function HandleEach(promisify: Option<Value -> Value>, es: seq<Value>): Completion<seq<Value>>
    decreases es, 0
  {
    if es == [] then Normal([])
    else match Handle(promisify, es[0])
      case Throw(err) => Throw(err)
      case Normal(h) =>
        match HandleEach(promisify, es[1..])
        case Throw(err) => Throw(err)
        case Normal(hs) => Normal([h] + hs)
  }

  /** The reduce over `Object.keys(effects)` that interprets each property's effect. */
  function HandleProps(promisify: Option<Value -> Value>, props: seq<Prop>): Completion<seq<Prop>>
    decreases props, 0
  {
    if props == [] then Normal([])
    else match Handle(promisify, props[0].val)
      case Throw(err) => Throw(err)
      case Normal(h) =>
        match HandleProps(promisify, props[1..])
        case Throw(err) => Throw(err)
        case Normal(hps) => Normal([Prop(props[0].key, h)] + hps)
  }

  /**
   * `raceEffect`. An array races the normalized children as they are; an object races
   * each child's promise tagged with its key, and throws if a child does not normalize
   * to a promise (it has no `then`). `Object.keys` throws on undefined and null, finds
   * a string's indices (each holding that one character), and finds no keys in any
   * other non-object.
   */
  function RaceEffect(promisify: Option<Value -> Value>, e: Value): Completion<Value>
    decreases e, 1
  {
    var effects := Get(e, "effects");
    if effects.Arr? then
      match RaceEntrants(promisify, effects.elems)
      case Normal(ps) => Normal(Promise(RaceOf(ps)))
      case Throw(err) => Throw(err)
    else if effects == Undefined || effects == Null then
      Throw(TypeError("Cannot convert undefined or null to object"))
    else if IsObject(effects) then
      match KeyedEntrants(promisify, effects.props)
      case Normal(ps) => Normal(Promise(RaceKeysOf(Keys(effects.props), ps)))
      case Throw(err) => Throw(err)
    else if effects.Str? then
      match PlainEntrants(promisify, Indexed(effects.s))
      case Normal(ps) => Normal(Promise(RaceKeysOf(Keys(Indexed(effects.s)), ps)))
      case Throw(err) => Throw(err)
    else Normal(Promise(RaceKeysOf([], [])))
  }

  /**
   * `KeyedEntrants` over values that are no descriptors, which `effectHandler` hands
   * back as they are (the characters of a string).
   */
  function PlainEntrants(promisify: Option<Value -> Value>, props: seq<Prop>): Completion<seq<Prop>>
    decreases |props|
  {
    if props == [] then Normal([])
    else if promisify.None? then Throw(TypeError("promisify is not a function"))
    else if !IsPromise(promisify.value(props[0].val)) then Throw(TypeError("promisify(...).then is not a function"))
    else match PlainEntrants(promisify, props[1..])
      case Throw(err) => Throw(err)
      case Normal(ps) => Normal([Prop(props[0].key, promisify.value(props[0].val))] + ps)
  }

  /** Over values that are no descriptors, the keyed race's entrants are `PlainEntrants`. */
  lemma {:induction false} PlainEntrantsAgree(promisify: Option<Value -> Value>, props: seq<Prop>)
    requires forall i :: 0 <= i < |props| ==> Dispatch(props[i].val) == Plain
    ensures KeyedEntrants(promisify, props) == PlainEntrants(promisify, props)
    decreases |props|
  {
    if props != [] {
      assert Handle(promisify, props[0].val) == Normal(props[0].val);
      PlainEntrantsAgree(promisify, props[1..]);
    }
  }

  /** A string seen as an object: its indices as decimal keys, each holding its one character. */
  function Indexed(s: string): (r: seq<Prop>)
    ensures |r| == |s|
    ensures forall i :: 0 <= i < |s| ==> r[i] == Prop(Decimal(i), Str([s[i]]))
  {
    seq(|s|, i requires 0 <= i < |s| => Prop(Decimal(i), Str([s[i]])))
  }

  /** `String(n)` for a natural number. */
  function Decimal(n: nat): string
    decreases n
  {
    if n < 10 then [Digit(n)] else Decimal(n / 10) + [Digit(n % 10)]
  }

  function Digit(d: nat): char
    requires d < 10
  {
    "0123456789"[d]
  }

  /** `effects.map(effect => promisify(effectHandler(effect, promisify)))`. */
  function RaceEntrants(promisify: Option<Value -> Value>, es: seq<Value>): Completion<seq<Value>>
    decreases es, 0
  {
    if es == [] then Normal([])
    else match Handle(promisify, es[0])
      case Throw(err) => Throw(err)
      case Normal(h) =>
        if promisify.None? then Throw(TypeError("promisify is not a function"))
        else match RaceEntrants(promisify, es[1..])
          case Throw(err) => Throw(err)
          case Normal(ps) => Normal([promisify.value(h)] + ps)
  }

  /** `keys.map(key => promisify(effectHandler(effects[key], promisify)).then(...))`. */
  function KeyedEntrants(promisify: Option<Value -> Value>, props: seq<Prop>): Completion<seq<Prop>>
    decreases props, 0
  {
    if props == [] then Normal([])
    else match Handle(promisify, props[0].val)
      case Throw(err) => Throw(err)
      case Normal(h) =>
        if promisify.None? then Throw(TypeError("promisify is not a function"))
        else if !IsPromise(promisify.value(h)) then Throw(TypeError("promisify(...).then is not a function"))
        else match KeyedEntrants(promisify, props[1..])
          case Throw(err) => Throw(err)
          case Normal(ps) => Normal([Prop(props[0].key, promisify.value(h))] + ps)
  }

  /**
   * `effectMiddleware(next)`: interpret the effect, then hand only the result on to
   * `next` (the promisify and the cancellation signal are not passed along).
   */
  function EffectMiddleware(next: NextFn): NextFn {
    (a: Args) =>
      match Handle(a.promisify, a.value)
      case Throw(err) => Throw(err)
      case Normal(h) => next(Args(h, None, None))
  }

  /** Values that are not descriptors come back unchanged, whatever promisify is. */
  lemma HandlePassesThrough(promisify: Option<Value -> Value>, v: Value)
    requires !IsObject(v) || Get(v, "type") !in {Str(CALL), Str(ALL), Str(RACE), Str(SPAWN), Str(DELAY)}
    ensures Handle(promisify, v) == Normal(v)
  {
  }

  /**
   * RACE over a non-empty string races its characters under their indices: no
   * character has a `then`, so the handler throws (the promise-returning promisify a
   * runtime passes leaves a string as it is).
   */
  lemma RaceOverStringThrows(promisify: Option<Value -> Value>, s: string)
    requires s != []
    requires promisify.Some? ==> !IsPromise(promisify.value(Str([s[0]])))
    ensures promisify.None? ==> Handle(promisify, Race(Str(s))) == Throw(TypeError("promisify is not a function"))
    ensures promisify.Some? ==> Handle(promisify, Race(Str(s))) == Throw(TypeError("promisify(...).then is not a function"))
  {
    var props := Indexed(s);
    assert props[0] == Prop("0", Str([s[0]]));
    assert Handle(promisify, Race(Str(s))) == RaceEffect(promisify, Race(Str(s)));
  }

  /**
   * ALL over an array: when no child throws, an array of the same length whose
   * element i is the interpretation of child i.
   */
  lemma {:induction false} HandleEachPointwise(promisify: Option<Value -> Value>, es: seq<Value>)
    requires forall i :: 0 <= i < |es| ==> Handle(promisify, es[i]).Normal?
    ensures HandleEach(promisify, es).Normal?
    ensures |HandleEach(promisify, es).value| == |es|
    ensures forall i :: 0 <= i < |es| ==> HandleEach(promisify, es).value[i] == Handle(promisify, es[i]).value
  {
    if es != [] {
      HandleEachPointwise(promisify, es[1..]);
    }
  }

  /** If some child throws, ALL over an array throws the first child's exception. */
  lemma {:induction false} HandleEachFirstThrow(promisify: Option<Value -> Value>, es: seq<Value>, k: nat)
    requires k < |es| && Handle(promisify, es[k]).Throw?
    requires forall i :: 0 <= i < k ==> Handle(promisify, es[i]).Normal?
    ensures HandleEach(promisify, es) == Throw(Handle(promisify, es[k]).error)
  {
    if k > 0 {
      HandleEachFirstThrow(promisify, es[1..], k - 1);
    }
  }

  /**
   * ALL over a plain object: when no child throws, an object with exactly the input's
   * keys, in order, each holding the interpretation of that key's effect.
   */
  lemma {:induction false} HandlePropsPointwise(promisify: Option<Value -> Value>, props: seq<Prop>)
    requires forall i :: 0 <= i < |props| ==> Handle(promisify, props[i].val).Normal?
    ensures HandleProps(promisify, props).Normal?
    ensures Keys(HandleProps(promisify, props).value) == Keys(props)
    ensures forall i :: 0 <= i < |props| ==>
      HandleProps(promisify, props).value[i].val == Handle(promisify, props[i].val).value
  {
    if props != [] {
      HandlePropsPointwise(promisify, props[1..]);
      var rest := HandleProps(promisify, props[1..]).value;
      assert Keys([Prop(props[0].key, Handle(promisify, props[0].val).value)] + rest)
        == [props[0].key] + Keys(rest);
    }
  }

  /** `all([...])` as the runtime sees it: the same array shape, child by child. */
  lemma AllArrayShape(promisify: Option<Value -> Value>, es: seq<Value>)
    requires forall i :: 0 <= i < |es| ==> Handle(promisify, es[i]).Normal?
    ensures Handle(promisify, All(Arr(es))).Normal?
    ensures Handle(promisify, All(Arr(es))).value.Arr?
    ensures |Handle(promisify, All(Arr(es))).value.elems| == |es|
    ensures forall i :: 0 <= i < |es| ==>
      Handle(promisify, All(Arr(es))).value.elems[i] == Handle(promisify, es[i]).value
  {
    HandleEachPointwise(promisify, es);
  }

  /** `all({...})` as the runtime sees it: exactly the input keys, key by key. */
  lemma AllObjectShape(promisify: Option<Value -> Value>, props: seq<Prop>)
    requires forall i :: 0 <= i < |props| ==> Handle(promisify, props[i].val).Normal?
    ensures Handle(promisify, All(Obj(props))).Normal?
    ensures Handle(promisify, All(Obj(props))).value.Obj?
    ensures Keys(Handle(promisify, All(Obj(props))).value.props) == Keys(props)
    ensures forall i :: 0 <= i < |props| ==>
      Handle(promisify, All(Obj(props))).value.props[i].val == Handle(promisify, props[i].val).value
  {
    HandlePropsPointwise(promisify, props);
  }

  /**
   * `race({...})` as the runtime sees it: one entrant per key, in key order, each the
   * normalized interpretation of that key's effect, provided each is a promise.
   */
  lemma {:induction false} KeyedEntrantsPointwise(p: Value -> Value, props: seq<Prop>)
    requires forall i :: 0 <= i < |props| ==>
      Handle(Some(p), props[i].val).Normal? && IsPromise(p(Handle(Some(p), props[i].val).value))
    ensures KeyedEntrants(Some(p), props).Normal?
    ensures Keys(KeyedEntrants(Some(p), props).value) == Keys(props)
    ensures forall i :: 0 <= i < |props| ==>
      KeyedEntrants(Some(p), props).value[i].val == p(Handle(Some(p), props[i].val).value)
  {
    if props != [] {
      KeyedEntrantsPointwise(p, props[1..]);
      var rest := KeyedEntrants(Some(p), props[1..]).value;
      assert Keys([Prop(props[0].key, p(Handle(Some(p), props[0].val).value))] + rest)
        == [props[0].key] + Keys(rest);
    }
  }

  /** The effect middleware interprets first and then passes on nothing but the result. */
  lemma EffectMiddlewareForwards(next: NextFn, a: Args)
    requires Handle(a.promisify, a.value).Normal?
    ensures EffectMiddleware(next)(a) == next(Args(Handle(a.promisify, a.value).value, None, None))
  {
  }

  /**
   * The promise `delayEffect` makes, with its timer and the cancel function stored on
   * it: cancelling clears the timer and rejects; a cleared timer never fires.
   */
  class DelayTimer {
    const ms: Value
    var timerPending: bool
    var promise: PromiseState

    /** `setTimeout(() => resolve(), ms)` inside the promise executor. */
    constructor (ms: Value)
      ensures this.ms == ms && timerPending && promise == Pending
    {
      this.ms := ms;
      timerPending := true;
      promise := Pending;
    }

    /** The timer elapses: `resolve()`, unless it was cleared. */
    method Fire()
      modifies this
      ensures !timerPending
      ensures promise == if old(timerPending) then Resolve(old(promise), Undefined) else old(promise)
    {
      if timerPending {
        timerPending := false;
        promise := Resolve(promise, Undefined);
      }
    }

    /** The stored cancel: `clearTimeout(timerId); reject('delay has been cancelled.')`. */
    method Cancel()
      modifies this
      ensures !timerPending
      ensures promise == Reject(old(promise), Str("delay has been cancelled."))
      ensures old(promise) == Pending ==> promise == Settled(Rejected(Str("delay has been cancelled.")))
    {
      timerPending := false;
      promise := Reject(promise, Str("delay has been cancelled."));
    }
  }

  /**
   * The cancel function `spawnEffect` stores can never change its promise: the
   * promise is resolved inside the executor before the cancel function exists.
   */
  lemma SpawnCancelIsInert()
    ensures Reject(Resolve(Pending, Undefined), Str("spawn has been cancelled")) == Settled(Fulfilled(Undefined))
  {
  }
}
