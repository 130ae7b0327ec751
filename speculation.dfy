/**
 * `speculation(fn, cancel)`: a promise whose executor `fn` gets wrapped `resolve` and
 * `reject` functions that raise an `isSettled` flag before settling, and an `onCancel`
 * registration whose cleanup runs only if the `cancel` promise fulfils while the flag
 * is still down.
 */
module Speculation {
  import opened Js

  /** What a cleanup handler does when it is run with the cancel signal's value. */
  datatype CleanupAction =
    | Nothing
    | CallsResolve(value: Value)   // the handler calls the wrapped `resolve`
    | CallsReject(reason: Value)   // the handler calls the wrapped `reject`
    | Throws(error: Value)         // the handler throws

  type Cleanup = Value -> CleanupAction

  /** What the executor `fn` does, call by call, while `speculation` runs it. */
  datatype SetupCall =
    | ResolveWith(value: Value)
    | RejectWith(reason: Value)
    | Register(handler: Cleanup)   // `onCancel(handler)`
    | SetupThrows(error: Value)    // the executor throws; nothing after it runs

  /** The flag and the promise it guards. */
  datatype Guard = Guard(isSettled: bool, promise: PromiseState)

  /** The flag never claims a settlement the promise has not had. */
  predicate Sound(g: Guard) {
    g.isSettled ==> !g.promise.Pending?
  }

  /** The default cancel signal, `Promise.reject()`: rejected with undefined. */
  const DEFAULT_SIGNAL: Option<Outcome> := Some(Rejected(Undefined))

  /** The wrapped `resolve` or `reject`: raise the flag, then forward to the promise. */
  function Wrapped(g: Guard, c: SettleCall): (r: Guard)
    ensures r.isSettled
    ensures r.promise == Apply(g.promise, c)
    ensures g.promise.Pending? ==> !r.promise.Pending?
    ensures !g.promise.Pending? ==> r.promise == g.promise
  {
    Guard(true, Apply(g.promise, c))
  }

  /**
   * Running the executor: each call in order, until it returns or throws. A throw
   * rejects the promise directly (the promise constructor catches it), so the flag
   * stays down.
   */
  function Setup(g: Guard, handlers: seq<Cleanup>, calls: seq<SetupCall>): (r: (Guard, seq<Cleanup>))
    ensures Sound(g) ==> Sound(r.0)
    ensures |r.1| >= |handlers| && r.1[..|handlers|] == handlers
    ensures g.isSettled ==> r.0.isSettled
    decreases |calls|
  {
    if calls == [] then (g, handlers)
    else match calls[0]
      case ResolveWith(v) => Setup(Wrapped(g, ResolveCall(v)), handlers, calls[1..])
      case RejectWith(e) => Setup(Wrapped(g, RejectCall(e)), handlers, calls[1..])
      case Register(h) =>
        var r := Setup(g, handlers + [h], calls[1..]);
        assert r.1[..|handlers|] == (handlers + [h])[..|handlers|];
        r
      case SetupThrows(e) => (Guard(g.isSettled, Reject(g.promise, e)), handlers)
  }

  /** The state `new Promise(...)` starts from. */
  const START: Guard := Guard(false, Pending)

  /**
   * One registration's reaction to the settled cancel signal: `maybeHandleCancel` on
   * fulfilment, `noop` on rejection, and the `catch` that turns a throwing handler into
   * a rejection. Returns the new guard and the value the handler was run with, if it ran.
   */
  function React(g: Guard, signal: Outcome, h: Cleanup): (r: (Guard, Option<Value>))
    ensures r.1.Some? <==> signal.Fulfilled? && !g.isSettled
    ensures r.1.Some? ==> r.1.value == signal.value
    ensures r.1.None? ==> r.0 == g
    ensures Sound(g) ==> Sound(r.0)
  {
    match signal
    case Rejected(_) => (g, None)
    case Fulfilled(v) =>
      if g.isSettled then (g, None)
      else match h(v)
        case Nothing => (g, Some(v))
        case CallsResolve(x) => (Wrapped(g, ResolveCall(x)), Some(v))
        case CallsReject(e) => (Wrapped(g, RejectCall(e)), Some(v))
        case Throws(e) => (Wrapped(g, RejectCall(e)), Some(v))
  }

  /** What can happen to a speculation once its executor has returned. */
  datatype Event =
    | Settles(call: SettleCall)   // the work calls the wrapped `resolve` or `reject`
    | Reacts(handler: Cleanup)    // a registration's reaction to the cancel signal runs

  /**
   * A run of events: the final guard and the values the cleanups were run with, in
   * order. A signal that never settles (None) never triggers a reaction.
   */
  function Run(g: Guard, signal: Option<Outcome>, events: seq<Event>): (r: (Guard, seq<Value>))
    ensures Sound(g) ==> Sound(r.0)
    ensures g.isSettled ==> r.0.isSettled
    decreases |events|
  {
    if events == [] then (g, [])
    else match events[0]
      case Settles(c) => Run(Wrapped(g, c), signal, events[1..])
      case Reacts(h) =>
        if signal.None? then Run(g, signal, events[1..])
        else
          var step := React(g, signal.value, h);
          var rest := Run(step.0, signal, events[1..]);
          (rest.0, (if step.1.Some? then [step.1.value] else []) + rest.1)
  }

  /** Once the flag is up, no cleanup runs, whatever happens next. */
  lemma {:induction false} NoCleanupOnceSettled(g: Guard, signal: Option<Outcome>, events: seq<Event>)
    requires g.isSettled
    ensures Run(g, signal, events).1 == []
    decreases |events|
  {
    if events != [] {
      match events[0]
      case Settles(c) => NoCleanupOnceSettled(Wrapped(g, c), signal, events[1..]);
      case Reacts(h) =>
        if signal.Some? {
          NoCleanupOnceSettled(React(g, signal.value, h).0, signal, events[1..]);
        } else {
          NoCleanupOnceSettled(g, signal, events[1..]);
        }
    }
  }

  /** A rejected cancel signal is ignored: no cleanup ever runs. */
  lemma {:induction false} RejectedSignalIsInert(g: Guard, e: Value, events: seq<Event>)
    ensures Run(g, Some(Rejected(e)), events).1 == []
    decreases |events|
  {
    if events != [] {
      match events[0]
      case Settles(c) => RejectedSignalIsInert(Wrapped(g, c), e, events[1..]);
      case Reacts(h) => RejectedSignalIsInert(g, e, events[1..]);
    }
  }

  /** Without an explicit signal the cleanups never run. */
  lemma DefaultSignalNeverCleans(g: Guard, events: seq<Event>)
    ensures Run(g, DEFAULT_SIGNAL, events).1 == []
  {
    RejectedSignalIsInert(g, Undefined, events);
  }

  /** How many registrations' reactions a run of events contains. */
  function Reactions(events: seq<Event>): nat
    decreases |events|
  {
    if events == [] then 0
    else (if events[0].Reacts? then 1 else 0) + Reactions(events[1..])
  }

  /** A cleanup runs at most once per reaction: never more cleanups than reactions. */
  lemma {:induction false} CleanupsBoundedByReactions(g: Guard, signal: Option<Outcome>, events: seq<Event>)
    ensures |Run(g, signal, events).1| <= Reactions(events)
    decreases |events|
  {
    if events != [] {
      match events[0]
      case Settles(c) => CleanupsBoundedByReactions(Wrapped(g, c), signal, events[1..]);
      case Reacts(h) =>
        if signal.Some? {
          CleanupsBoundedByReactions(React(g, signal.value, h).0, signal, events[1..]);
        } else {
          CleanupsBoundedByReactions(g, signal, events[1..]);
        }
    }
  }

  /** A settled promise never changes again: later resolves, rejects and cleanups have no effect. */
  lemma {:induction false} SettlesAtMostOnce(g: Guard, signal: Option<Outcome>, events: seq<Event>)
    requires !g.promise.Pending?
    ensures Run(g, signal, events).0.promise == g.promise
    decreases |events|
  {
    if events != [] {
      match events[0]
      case Settles(c) => SettlesAtMostOnce(Wrapped(g, c), signal, events[1..]);
      case Reacts(h) =>
        if signal.Some? {
          var step := React(g, signal.value, h);
          assert step.0.promise == g.promise;
          SettlesAtMostOnce(step.0, signal, events[1..]);
        } else {
          SettlesAtMostOnce(g, signal, events[1..]);
        }
    }
  }

  /** A signal that fulfils while the promise is unsettled runs the cleanup with its value. */
  lemma CleanupRunsBeforeSettlement(g: Guard, v: Value, h: Cleanup)
    requires !g.isSettled
    ensures Run(g, Some(Fulfilled(v)), [Reacts(h)]).1 == [v]
  {
  }

  /** A cleanup that throws rejects a pending promise with what it threw. */
  lemma CleanupThrowRejects(g: Guard, v: Value, h: Cleanup, e: Value)
    requires !g.isSettled && g.promise.Pending? && h(v) == Throws(e)
    ensures Run(g, Some(Fulfilled(v)), [Reacts(h)]).0 == Guard(true, Settled(Rejected(e)))
  {
  }

  /**
   * An executor that throws rejects the promise but leaves the flag down, so a
   * handler it registered before throwing still runs when the signal fulfils.
   */
  lemma SetupThrowKeepsCleanupLive(h: Cleanup, e: Value, v: Value)
    ensures Setup(START, [], [Register(h), SetupThrows(e)]) == (Guard(false, Settled(Rejected(e))), [h])
    ensures Run(Guard(false, Settled(Rejected(e))), Some(Fulfilled(v)), [Reacts(h)]).1 == [v]
  {
    assert [Register(h), SetupThrows(e)][1..] == [SetupThrows(e)];
  }

  /**
   * The promise `speculation` returns, with the flag its wrappers share and the
   * registrations `onCancel` made. `reacted` counts the registrations whose reaction
   * to the cancel signal has run (reactions run in registration order); `ran` lists the
   * values the cleanups were run with.
   */
  class Speculation {
    const signal: Option<Outcome>
    var isSettled: bool
    var promise: PromiseState
    var handlers: seq<Cleanup>
    var reacted: nat
    var ran: seq<Value>

    function Current(): Guard
      reads this
    {
      Guard(isSettled, promise)
    }

    ghost predicate Valid()
      reads this
    {
      Sound(Current()) && reacted <= |handlers|
    }

    /** `speculation(fn, cancel)`: runs the executor once, synchronously, then returns. */
    constructor (signal: Option<Outcome>, setup: seq<SetupCall>)
      ensures Valid()
      ensures this.signal == signal
      ensures (Current(), handlers) == Setup(START, [], setup)
      ensures reacted == 0 && ran == []
    {
      this.signal := signal;
      var r := Setup(START, [], setup);
      isSettled, promise, handlers := r.0.isSettled, r.0.promise, r.1;
      reacted, ran := 0, [];
    }

    /** The wrapped `resolve`. */
    method Resolve(v: Value)
      requires Valid()
      modifies this
      ensures Valid()
      ensures Current() == Wrapped(old(Current()), ResolveCall(v))
      ensures handlers == old(handlers) && reacted == old(reacted) && ran == old(ran)
    {
      isSettled := true;
      promise := Js.Resolve(promise, v);
    }

    /** The wrapped `reject`. */
    method Reject(e: Value)
      requires Valid()
      modifies this
      ensures Valid()
      ensures Current() == Wrapped(old(Current()), RejectCall(e))
      ensures handlers == old(handlers) && reacted == old(reacted) && ran == old(ran)
    {
      isSettled := true;
      promise := Js.Reject(promise, e);
    }

    /** `onCancel(handler)`, called by the work after the executor has returned. */
    method OnCancel(h: Cleanup)
      requires Valid()
      modifies this
      ensures Valid()
      ensures handlers == old(handlers) + [h]
      ensures Current() == old(Current()) && reacted == old(reacted) && ran == old(ran)
    {
      handlers := handlers + [h];
    }

    /** The reaction of the next registration to a settled cancel signal. */
    method Reaction()
      requires Valid() && signal.Some? && reacted < |handlers|
      modifies this
      ensures Valid()
      ensures reacted == old(reacted) + 1 && handlers == old(handlers)
      ensures var step := React(old(Current()), signal.value, handlers[old(reacted)]);
        Current() == step.0 && ran == old(ran) + (if step.1.Some? then [step.1.value] else [])
      ensures old(isSettled) ==> Current() == old(Current()) && ran == old(ran)
    {
      var h := handlers[reacted];
      reacted := reacted + 1;
      match signal.value
      case Rejected(_) =>
      case Fulfilled(v) =>
        if !isSettled {
          ran := ran + [v];
          match h(v)
          case Nothing =>
          case CallsResolve(x) => Resolve(x);
          case CallsReject(e) => Reject(e);
          case Throws(e) => Reject(e);
        }
    }
  }
}
