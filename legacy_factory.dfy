/**
 * The older runtime of src/factory.js. Every runtime keeps a table of task records
 * keyed by ids from a counter its factory shares; a record's `cancel` grows into a
 * chain that cancels the promises the runtime awaited, newest first, and then throws
 * into the coroutine. `runtime` returns the record itself, not a promise.
 */
module LegacyFactory {
  import opened Js
  import Factory

  /** `autoInc(0)`: the id counter shared by every runtime of one factory. */
  class IdSource {
    var seed: nat

    constructor ()
      ensures seed == 0
    {
      seed := 0;
    }

    /** `++seed`: the first id is 1 and each id is larger than all before it. */
    method Next() returns (id: nat)
      modifies this
      ensures seed == old(seed) + 1
      ensures id == seed && id >= 1
    {
      seed := seed + 1;
      id := seed;
    }
  }

  /**
   * A record's `cancel`: at first the runtime's own `onRejected` (Base); each await
   * of a promise with a `cancel` method wraps it in a function that cancels that
   * promise and then calls the previous one.
   */
  datatype CancelChain = Base | Link(awaited: Value, prev: CancelChain)

  /** The promises whose `cancel()` a call of the chain invokes, in call order. */
  function CancelOrder(c: CancelChain): (r: seq<Value>)
    ensures c.Base? <==> r == []
    ensures c.Link? ==> r[0] == c.awaited
  {
    match c
    case Base => []
    case Link(p, prev) => [p] + CancelOrder(prev)
  }

  /** The chain after the runtime has awaited the cancellable promises `ps`, in order. */
  function Extend(c: CancelChain, ps: seq<Value>): CancelChain
    decreases |ps|
  {
    if ps == [] then c else Extend(Link(ps[0], c), ps[1..])
  }

  function Reversed(ps: seq<Value>): (r: seq<Value>)
    ensures |r| == |ps|
    ensures forall i :: 0 <= i < |ps| ==> r[i] == ps[|ps| - 1 - i]
  {
    if ps == [] then [] else Reversed(ps[1..]) + [ps[0]]
  }

  /** Cancelling runs newest first: the promise awaited last is cancelled first. */
  lemma {:induction false} CancelNewestFirst(c: CancelChain, ps: seq<Value>)
    ensures CancelOrder(Extend(c, ps)) == Reversed(ps) + CancelOrder(c)
    decreases |ps|
  {
    if ps != [] {
      var rest := Reversed(ps[1..]);
      CancelNewestFirst(Link(ps[0], c), ps[1..]);
      assert Extend(c, ps) == Extend(Link(ps[0], c), ps[1..]);
      assert CancelOrder(Link(ps[0], c)) == [ps[0]] + CancelOrder(c);
      assert Reversed(ps) == rest + [ps[0]];
      assert rest + ([ps[0]] + CancelOrder(c)) == rest + [ps[0]] + CancelOrder(c);
    }
  }

  /** The task record as a value: `{[TASK]: true, id, ...}`; it has no `then`. */
  function RecordValue(id: nat): (r: Value)
    ensures r.Obj? && Truthy(r) && !IsPromise(r)
    ensures Get(r, "TASK") == Bool(true) && Get(r, "id") == Num(id)
  {
    var props := [Prop("TASK", Bool(true)), Prop("id", Num(id))];
    assert "TASK" != "id";
    assert props[1..] == [Prop("id", Num(id))];
    assert Lookup(props[1..], "id") == Num(id);
    Obj(props)
  }

  /** A value `promisify` hands back unchanged and that is not a promise. */
  predicate Plain(v: Value) {
    !IsPromise(v) && !v.GenFunc? && !v.Iter? && !v.Arr? && !v.Obj?
  }

  /** What too deep a nest of synchronous runtime starts throws. */
  const STACK_OVERFLOW: Value := Error("RangeError", "Maximum call stack size exceeded")

  const NEXT_NOT_A_FUNCTION: Value := TypeError("gen.next is not a function")
  const THROW_NOT_A_FUNCTION: Value := TypeError("gen.throw is not a function")
  const NO_RECORD: Value := TypeError("Cannot read properties of undefined (reading 'cancel')")
  const TASK_CANCELLED: Value := Str("Task cancelled")

  /** The part of a task record its step functions change: what `next` and friends leave behind. */
  datatype Snap = Snap(co: CoState, cancel: CancelChain, awaiting: Option<Value>, tasks: map<nat, Task>, sent: seq<Resume>)

  /**
   * `x` holds a generator function or generator, directly or inside an array or a plain
   * object: the only values for which `promisify` starts a child runtime, and so the
   * only ones for which it can throw.
   */
  ghost predicate HasGenerator(x: Value)
    decreases x
  {
    x.GenFunc? || x.Iter?
    || (x.Arr? && exists i :: 0 <= i < |x.elems| && HasGenerator(x.elems[i]))
    || (x.Obj? && exists i :: 0 <= i < |x.props| && HasGenerator(x.props[i].val))
  }

  /**
   * `p` is a value `promisify(x)` can hand back. Falsy values, promises and other plain
   * values come back as they are; a generator function or generator comes back as a
   * child's task record; an array becomes `Promise.all` over its elements, each
   * promisified in order; a plain object becomes `objectToPromise`'s promise. Which
   * ids the child runtimes take is left open.
   */
  ghost predicate Promisified(x: Value, p: Value)
    decreases x
  {
    if !Truthy(x) || IsPromise(x) || Plain(x) then p == x
    else if x.GenFunc? || x.Iter? then exists k: nat :: p == RecordValue(k)
    else if x.Arr? then
      p.Promise? && p.fut.AllOf? && |p.fut.elems| == |x.elems|
      && forall i :: 0 <= i < |x.elems| ==> Promisified(x.elems[i], p.fut.elems[i])
    else p.Promise? && p.fut.ObjectOf? && ObjectProgress(x.props, |x.props|, p.fut.results, p.fut.deferred)
  }

  /**
   * One `runtime(gen, ...args)` call: its task record (id, iterator, cancel) together
   * with the closures over it (`onFulfilled`, `onRejected`, `next`, `promisify`,
   * `addTask`, `cancel`) and its `tasks` table. `sent` lists what the runtime has sent
   * into the coroutine, in order; `awaiting` is the promise it last called `then` on.
   * `hasCancel` tells which promises carry a `cancel` method.
   */
  class Task {
    const id: nat
    const ids: IdSource
    const env: Env
    const mws: seq<Middleware>
    const hasCancel: Value -> bool
    const iter: Value
    var co: CoState
    var cancel: CancelChain
    var tasks: map<nat, Task>
    var awaiting: Option<Value>
    ghost var sent: seq<Resume>

    /**
     * Every record in the table sits under its own id, shares this factory's counter
     * and got its id from it; this runtime's own entry, if any, is this record.
     */
    ghost predicate Inv()
      reads this, ids
    {
      EnvValid(env)
      && id <= ids.seed
      && (forall k :: k in tasks ==> tasks[k].id == k && tasks[k].ids == ids && k <= ids.seed)
      && (id in tasks ==> tasks[id] == this)
      && (co.Live? ==> HasNext(iter))
    }

    ghost predicate Valid()
      reads this, ids, tasks.Values
    {
      Inv() && forall k :: k in tasks ==> tasks[k].Inv()
    }

    /** A resume that did not raise, followed by what `next` did with it, is a step. */
    lemma StepThrough(r: Resume, s: Snap, ret: Step, s': Snap, thrown: Option<Value>)
      requires EnvValid(env) && ret == Advance(env, s.co, r) && !ret.Raised?
      requires NextLeaves(ret, s.(co := After(ret), sent := s.sent + [r]), s', thrown)
      ensures StepLeaves(r, s, s', thrown)
    {
    }

    /** A resume that raised leaves the coroutine closed and lets the exception escape. */
    lemma StepRaises(r: Resume, s: Snap, ret: Step)
      requires EnvValid(env) && ret == Advance(env, s.co, r) && ret.Raised?
      ensures StepLeaves(r, s, s.(co := After(ret), sent := s.sent + [r]), Some(ret.error))
    {
    }

    ghost function Snapshot(): Snap
      reads this
    {
      Snap(co, cancel, awaiting, tasks, sent)
    }

    /**
     * `gen.next(res)` or `gen.throw(err)` from state `s`, then `next` on what it reports,
     * ending in `s'` with `thrown` escaping: an exception out of the generator
     * propagates and leaves the table as it is.
     */
    ghost predicate StepLeaves(r: Resume, s: Snap, s': Snap, thrown: Option<Value>)
      requires EnvValid(env)
      decreases Factory.CoMeasure(env, s.co), 1
    {
      var ret := Advance(env, s.co, r);
      var s1 := s.(co := After(ret), sent := s.sent + [r]);
      if ret.Raised? then thrown == Some(ret.error) && s' == s1
      else NextLeaves(ret, s1, s', thrown)
    }

    /**
     * `next(ret)` from state `s` (whose coroutine is where `ret` left it): done deletes
     * this runtime's entry; a middleware throw escapes; otherwise the middleware's
     * result is promisified, which either escapes a child runtime's throw or gives a
     * value the runtime then awaits or answers with a TypeError.
     */
    ghost predicate NextLeaves(ret: Step, s: Snap, s': Snap, thrown: Option<Value>)
      requires EnvValid(env) && !ret.Raised? && s.co == After(ret)
      decreases Factory.StepRank(env, ret), 2
    {
      match ret
      case Returned(_) => thrown.None? && s' == s.(tasks := s.tasks - {id})
      case Yielded(v, n) =>
        match Factory.ApplyMiddleware(mws)(Args(v, None, None))
        case Throw(e) => thrown == Some(e) && s' == s
        case Normal(x) =>
          (thrown.Some? && HasGenerator(x) && s' == s)
          || exists p :: Promisified(x, p) && Awaits(p, n, s, s', thrown)
    }

    /**
     * What `next` does with the promisified value `p` in state `s`, the coroutine
     * suspended at `n`: a promise is awaited, first wrapping the record's cancel chain
     * when it carries a `cancel` method (which needs the record in the table); anything
     * else is answered with a TypeError thrown into the coroutine.
     */
    ghost predicate Awaits(p: Value, n: nat, s: Snap, s': Snap, thrown: Option<Value>)
      requires EnvValid(env) && s.co == Live(n)
      decreases Factory.StepRank(env, Yielded(Undefined, n)), 1
    {
      if Truthy(p) && IsPromise(p) then
        if hasCancel(p) && id !in s.tasks then thrown == Some(NO_RECORD) && s' == s
        else thrown.None? && s' == s.(awaiting := Some(p), cancel := if hasCancel(p) then Link(p, s.cancel) else s.cancel)
      else StepLeaves(ThrowIn(TypeError(Factory.INVALID_YIELD)), s, s', thrown)
    }

    /** The task record `{[TASK]: true, id, iterator, cancel: onRejected}`, inserted in a fresh table. */
    constructor (id: nat, ids: IdSource, env: Env, mws: seq<Middleware>, hasCancel: Value -> bool, iter: Value)
      requires EnvValid(env) && id <= ids.seed
      ensures this.id == id && this.ids == ids && this.env == env && this.mws == mws
      ensures this.hasCancel == hasCancel && this.iter == iter
      ensures co == (if HasNext(iter) then Live(iter.start) else Closed)
      ensures cancel == Base && tasks == map[id := this] && awaiting == None && sent == []
      ensures Valid()
    {
      this.id := id;
      this.ids := ids;
      this.env := env;
      this.mws := mws;
      this.hasCancel := hasCancel;
      this.iter := iter;
      co := if HasNext(iter) then Live(iter.start) else Closed;
      cancel := Base;
      awaiting := None;
      sent := [];
      new;
      tasks := map[id := this];
    }

    /**
     * `runtime(gen, ...args)`: takes the next id, applies a function to `args` (anything
     * else is the iterator itself), records the task under its id and kickstarts it.
     * Whatever the application or the kickstart throws propagates to the caller.
     */
    static method Start(ids: IdSource, env: Env, mws: seq<Middleware>, hasCancel: Value -> bool,
                        gen: Value, args: seq<Value>, fuel: nat) returns (r: Completion<Task>)
      requires EnvValid(env)
      modifies ids
      ensures ids.seed > old(ids.seed)
      ensures Factory.Iterate(env, gen, args).Throw? ==>
        r == Throw(Factory.Iterate(env, gen, args).error) && ids.seed == old(ids.seed) + 1
      ensures Factory.Iterate(env, gen, args).Normal? && !HasNext(Factory.Iterate(env, gen, args).value) ==>
        r == Throw(NEXT_NOT_A_FUNCTION)
      ensures r.Normal? ==> fresh(r.value) && r.value.Valid()
      ensures r.Normal? ==>
        r.value.id == old(ids.seed) + 1 && r.value.ids == ids && r.value.env == env
        && r.value.mws == mws && r.value.hasCancel == hasCancel
        && r.value.iter == Factory.Iterate(env, gen, args).value
      ensures r.Normal? ==> |r.value.sent| >= 1 && r.value.sent[0] == Send(Undefined)
      ensures r.Normal? ==> r.value.tasks == (if r.value.co.Closed? then map[] else map[r.value.id := r.value])
      ensures r.Normal? ==>
        HasNext(r.value.iter)
        && r.value.StepLeaves(Send(Undefined), Snap(Live(r.value.iter.start), Base, None, map[r.value.id := r.value], []),
                              r.value.Snapshot(), None)
      decreases fuel, 4, 0
    {
      var id := ids.Next();
      var it := Factory.Iterate(env, gen, args);
      if it.Throw? {
        return Throw(it.error);
      }
      var t := new Task(id, ids, env, mws, hasCancel, it.value);
      var thrown := t.OnFulfilled(Undefined, fuel);
      if thrown.Some? {
        return Throw(thrown.value);
      }
      r := Normal(t);
    }

    /** `onFulfilled(res)`: `gen.next(res)`, then `next` on what it reports. */
    method OnFulfilled(res: Value, fuel: nat) returns (thrown: Option<Value>)
      requires Inv()
      modifies this, ids
      ensures Inv() && ids.seed >= old(ids.seed)
      ensures !HasNext(iter) ==> thrown == Some(NEXT_NOT_A_FUNCTION) && Snapshot() == old(Snapshot())
      ensures HasNext(iter) ==> |sent| > |old(sent)| && sent[..|old(sent)|] == old(sent) && sent[|old(sent)|] == Send(res)
      ensures HasNext(iter) ==> StepLeaves(Send(res), old(Snapshot()), Snapshot(), thrown)
      ensures thrown.None? ==> tasks == (if co.Closed? then old(tasks) - {id} else old(tasks))
      ensures thrown.Some? ==> tasks == old(tasks) || tasks == old(tasks) - {id}
      decreases fuel, 3, Factory.CoMeasure(env, co)
    {
      if !HasNext(iter) {
        return Some(NEXT_NOT_A_FUNCTION);
      }
      thrown := Step(Send(res), fuel);
    }

    /** `onRejected(err)`: `gen.throw(err)`, then `next` on what it reports. */
    method OnRejected(err: Value, fuel: nat) returns (thrown: Option<Value>)
      requires Inv()
      modifies this, ids
      ensures Inv() && ids.seed >= old(ids.seed)
      ensures !HasNext(iter) ==> thrown == Some(THROW_NOT_A_FUNCTION) && Snapshot() == old(Snapshot())
      ensures HasNext(iter) ==> |sent| > |old(sent)| && sent[..|old(sent)|] == old(sent) && sent[|old(sent)|] == ThrowIn(err)
      ensures HasNext(iter) ==> StepLeaves(ThrowIn(err), old(Snapshot()), Snapshot(), thrown)
      ensures thrown.None? ==> tasks == (if co.Closed? then old(tasks) - {id} else old(tasks))
      ensures thrown.Some? ==> tasks == old(tasks) || tasks == old(tasks) - {id}
      decreases fuel, 3, Factory.CoMeasure(env, co)
    {
      if !HasNext(iter) {
        return Some(THROW_NOT_A_FUNCTION);
      }
      thrown := Step(ThrowIn(err), fuel);
    }

    /** The part `onFulfilled` and `onRejected` share: step the generator, then `next`. */
    method Step(r: Resume, fuel: nat) returns (thrown: Option<Value>)
      requires Inv() && HasNext(iter)
      modifies this, ids
      ensures Inv() && ids.seed >= old(ids.seed)
      ensures |sent| > |old(sent)| && sent[..|old(sent)|] == old(sent) && sent[|old(sent)|] == r
      ensures StepLeaves(r, old(Snapshot()), Snapshot(), thrown)
      ensures thrown.None? ==> tasks == (if co.Closed? then old(tasks) - {id} else old(tasks))
      ensures thrown.Some? ==> tasks == old(tasks) || tasks == old(tasks) - {id}
      decreases fuel, 3, Factory.CoMeasure(env, co), 1
    {
      ghost var s0 := Snapshot();
      var ret := Advance(env, co, r);
      co := After(ret);
      sent := sent + [r];
      if ret.Raised? {
        StepRaises(r, s0, ret);
        return Some(ret.error);
      }
      thrown := Next(ret, fuel);
      StepThrough(r, s0, ret, Snapshot(), thrown);
    }

    /**
     * `next(ret)`. Done: the record is deleted from the table. Otherwise the yielded
     * value goes through the middleware and `promisify`; a truthy promise is awaited,
     * extending the record's cancel chain when it carries a `cancel` method; anything
     * else throws a TypeError into the coroutine.
     */
    method Next(ret: Step, fuel: nat) returns (thrown: Option<Value>)
      requires Inv() && !ret.Raised? && co == After(ret)
      modifies this, ids
      ensures Inv() && ids.seed >= old(ids.seed)
      ensures |sent| >= |old(sent)| && sent[..|old(sent)|] == old(sent)
      ensures thrown.None? ==> tasks == (if co.Closed? then old(tasks) - {id} else old(tasks))
      ensures thrown.Some? ==> tasks == old(tasks) || tasks == old(tasks) - {id}
      ensures NextLeaves(ret, old(Snapshot()), Snapshot(), thrown)
      ensures ret.Returned? ==>
        thrown.None? && tasks == old(tasks) - {id} && sent == old(sent)
        && cancel == old(cancel) && awaiting == old(awaiting)
      ensures ret.Yielded? && Factory.ApplyMiddleware(mws)(Args(ret.value, None, None)).Throw? ==>
        thrown == Some(Factory.ApplyMiddleware(mws)(Args(ret.value, None, None)).error) && sent == old(sent)
      ensures ret.Yielded? && Factory.ApplyMiddleware(mws)(Args(ret.value, None, None)).Normal? ==>
        var p := Factory.ApplyMiddleware(mws)(Args(ret.value, None, None)).value;
        (IsPromise(p) && (!hasCancel(p) || id in old(tasks)) ==>
           thrown.None? && awaiting == Some(p) && sent == old(sent) && tasks == old(tasks)
           && cancel == (if hasCancel(p) then Link(p, old(cancel)) else old(cancel)))
        && (IsPromise(p) && hasCancel(p) && id !in old(tasks) ==> thrown == Some(NO_RECORD))
        && (Plain(p) ==> |sent| > |old(sent)| && sent[|old(sent)|] == ThrowIn(TypeError(Factory.INVALID_YIELD)))
        && ((p.GenFunc? || p.Iter?) && thrown.None? ==>
              |sent| > |old(sent)| && sent[|old(sent)|] == ThrowIn(TypeError(Factory.INVALID_YIELD)))
      decreases fuel, 3, Factory.StepRank(env, ret)
    {
      if ret.Returned? {
        tasks := tasks - {id};
        return None;
      }
      var c := Factory.ApplyMiddleware(mws)(Args(ret.value, None, None));
      if c.Throw? {
        return Some(c.error);
      }
      var p, t := Promisify(c.value, fuel);
      if t.Some? {
        return t;
      }
      PromiseIsTruthy(p);
      ghost var s := Snapshot();
      if Truthy(p) && IsPromise(p) {
        if hasCancel(p) {
          if id !in tasks {
            assert Awaits(p, ret.next, s, Snapshot(), Some(NO_RECORD));
            return Some(NO_RECORD);
          }
          // `tasks[runtimeId]` is this record (Inv)
          cancel := Link(p, cancel);
        }
        awaiting := Some(p);
        assert Awaits(p, ret.next, s, Snapshot(), None);
        return None;
      }
      thrown := OnRejected(TypeError(Factory.INVALID_YIELD), fuel);
      assert Awaits(p, ret.next, s, Snapshot(), thrown);
    }

    /**
     * `promisify(obj)`: falsy values and promises come back as they are; a generator
     * function or generator starts a child runtime and gives back its task record; an
     * array becomes `Promise.all` of its promisified elements; a plain object goes
     * through `objectToPromise`; anything else, plain functions included, comes back
     * as it is. A child runtime's throw propagates.
     */
    method Promisify(v: Value, fuel: nat) returns (p: Value, thrown: Option<Value>)
      requires EnvValid(env)
      modifies ids
      ensures ids.seed >= old(ids.seed)
      ensures !Truthy(v) || IsPromise(v) || Plain(v) ==> p == v && thrown.None? && ids.seed == old(ids.seed)
      ensures Truthy(v) && (v.GenFunc? || v.Iter?) && thrown.None? ==> p == RecordValue(old(ids.seed) + 1)
      ensures Truthy(v) && v.Arr? && thrown.None? ==> p.Promise? && p.fut.AllOf? && |p.fut.elems| == |v.elems|
      ensures Truthy(v) && v.Obj? && thrown.None? ==>
        p.Promise? && p.fut.ObjectOf? && (UniqueKeys(v.props) ==> Keys(p.fut.results) == Keys(v.props))
      ensures thrown.None? ==> Promisified(v, p)
      ensures thrown.Some? ==> HasGenerator(v)
      decreases fuel, 2, v, 1
    {
      if !Truthy(v) || IsPromise(v) {
        return v, None;
      }
      if v.GenFunc? || v.Iter? {
        if fuel == 0 {
          return v, Some(STACK_OVERFLOW);
        }
        var r := Start(ids, env, mws, hasCancel, v, [], fuel - 1);
        if r.Throw? {
          return v, Some(r.error);
        }
        assert Promisified(v, RecordValue(r.value.id));
        return RecordValue(r.value.id), None;
      }
      if v.Arr? {
        var ps: seq<Value> := [];
        var i := 0;
        while i < |v.elems|
          invariant 0 <= i <= |v.elems| && |ps| == i
          invariant ids.seed >= old(ids.seed)
          invariant forall j :: 0 <= j < i ==> Promisified(v.elems[j], ps[j])
        {
          var q, t := Promisify(v.elems[i], fuel);
          if t.Some? {
            assert HasGenerator(v.elems[i]);
            return v, t;
          }
          ps := ps + [q];
          i := i + 1;
        }
        return Promise(AllOf(ps)), None;
      }
      if v.Obj? {
        p, thrown := ObjectToPromise(v.props, fuel);
        if thrown.Some? {
          ghost var k :| 0 <= k < |v.props| && HasGenerator(v.props[k].val);
          assert HasGenerator(v);
        }
        return;
      }
      return v, None;
    }

    /**
     * `objectToPromise(obj)`: a fresh result object gets each key in order, undefined
     * for a key whose promisified value is a promise (deferred, to be filled in when
     * it fulfils) and the original value otherwise.
     */
    method ObjectToPromise(obj: seq<Prop>, fuel: nat) returns (p: Value, thrown: Option<Value>)
      requires EnvValid(env)
      modifies ids
      ensures ids.seed >= old(ids.seed)
      ensures thrown.None? ==> p.Promise? && p.fut.ObjectOf?
      ensures thrown.None? ==> ObjectProgress(obj, |obj|, p.fut.results, p.fut.deferred)
      ensures thrown.Some? ==> exists k :: 0 <= k < |obj| && HasGenerator(obj[k].val)
      decreases fuel, 2, obj, 0
    {
      var results: seq<Prop> := [];
      var promises: seq<Prop> := [];
      for i := 0 to |obj|
        invariant ids.seed >= old(ids.seed)
        invariant ObjectProgress(obj, i, results, promises)
      {
        var key := obj[i].key;
        var promise, t := Promisify(obj[i].val, fuel);
        if t.Some? {
          assert HasGenerator(obj[i].val);
          return Undefined, t;
        }
        PromiseIsTruthy(promise);
        var defer := Truthy(promise) && IsPromise(promise);
        ObjectRound(obj, i, results, promises, defer, promise);
        if defer {
          results := Assign(results, key, Undefined);
          promises := promises + [Prop(key, promise)];
        } else {
          results := Assign(results, key, obj[i].val);
        }
      }
      thrown := None;
      p := Promise(ObjectOf(results, promises));
    }

    /**
     * `addTask(fn, ...taskArgs)`: starts a child runtime of the same factory and records
     * it in this runtime's table under the child's id.
     */
    method AddTask(fn: Value, args: seq<Value>, fuel: nat) returns (r: Completion<Task>)
      requires Valid()
      modifies this, ids
      ensures Valid() && ids.seed > old(ids.seed)
      ensures r.Normal? ==>
        fresh(r.value) && r.value.id == old(ids.seed) + 1 && r.value.id != id && tasks == old(tasks)[r.value.id := r.value]
      ensures r.Throw? ==> tasks == old(tasks)
      ensures co == old(co) && cancel == old(cancel) && awaiting == old(awaiting) && sent == old(sent)
      decreases fuel, 5, 0
    {
      r := Start(ids, env, mws, hasCancel, fn, args, fuel);
      if r.Normal? {
        tasks := tasks[r.value.id := r.value];
      }
      forall k | k in tasks
        ensures tasks[k].Inv()
      {
        if k in old(tasks) && tasks[k] != this && (r.Throw? || k != r.value.id) {
          assert old(tasks[k].Inv()) && tasks[k] == old(tasks[k]);
        }
      }
    }

    /**
     * `cancel(taskId)`: calls the stored record's cancel chain with 'Task cancelled' —
     * each awaited promise's `cancel()`, newest first (returned in call order), then a
     * throw into that task's coroutine — and deletes the entry if nothing threw. An
     * id with no entry throws a TypeError.
     */
    method Cancel(taskId: nat, fuel: nat) returns (cancelled: seq<Value>, thrown: Option<Value>)
      requires Valid()
      modifies this, ids, tasks.Values
      ensures Valid() && ids.seed >= old(ids.seed)
      ensures taskId !in old(tasks) ==> cancelled == [] && thrown == Some(NO_RECORD) && tasks == old(tasks)
      ensures taskId in old(tasks) ==> cancelled == CancelOrder(old(tasks[taskId].cancel))
      ensures taskId in old(tasks) && HasNext(old(tasks[taskId]).iter) ==>
        var t := old(tasks[taskId]);
        |t.sent| > |old(t.sent)| && t.sent[|old(t.sent)|] == ThrowIn(TASK_CANCELLED)
      ensures taskId in old(tasks) && thrown.None? ==> tasks == old(tasks) - {taskId}
      ensures taskId in old(tasks) && thrown.Some? ==> tasks == old(tasks) || tasks == old(tasks) - {taskId}
      ensures taskId in old(tasks) && !HasNext(old(tasks[taskId]).iter) ==>
        thrown == Some(THROW_NOT_A_FUNCTION) && tasks == old(tasks)
      ensures taskId in old(tasks) && old(tasks[taskId]) != this ==>
        co == old(co) && cancel == old(cancel) && awaiting == old(awaiting) && sent == old(sent)
        && (thrown.Some? ==> tasks == old(tasks))
      ensures taskId in old(tasks) && old(tasks[taskId]) != this && HasNext(old(tasks[taskId]).iter) ==>
        var t := old(tasks[taskId]);
        t.StepLeaves(ThrowIn(TASK_CANCELLED), old(t.Snapshot()), t.Snapshot(), thrown)
      ensures taskId in old(tasks) && old(tasks[taskId]) == this && HasNext(iter) ==>
        exists s' :: StepLeaves(ThrowIn(TASK_CANCELLED), old(Snapshot()), s', thrown)
                     && Snapshot() == (if thrown.None? then s'.(tasks := s'.tasks - {taskId}) else s')
      decreases fuel, 5, 0
    {
      if taskId !in tasks {
        return [], Some(NO_RECORD);
      }
      var t := tasks[taskId];
      cancelled := CancelOrder(t.cancel);
      thrown := t.OnRejected(TASK_CANCELLED, fuel);
      assert t != this ==> co == old(co) && cancel == old(cancel) && awaiting == old(awaiting) && sent == old(sent) && tasks == old(tasks);
      ghost var mid := Snapshot();
      if thrown.None? {
        tasks := tasks - {taskId};
      }
      StaysValid(t);
    }

    /**
     * A step of one record `t` leaves every other record of the table untouched, so a
     * table that was valid, keeping or dropping entries, is valid again.
     */
    twostate lemma StaysValid(t: Task)
      requires old(Valid()) && Inv() && t.Inv() && ids.seed >= old(ids.seed)
      requires forall k :: k in tasks ==> k in old(tasks) && tasks[k] == old(tasks[k])
      requires forall k :: k in old(tasks) && old(tasks[k]) != t && old(tasks[k]) != this ==> unchanged(old(tasks[k]))
      ensures Valid()
    {
      forall k | k in tasks
        ensures tasks[k].Inv()
      {
        var r := tasks[k];
        if r != t && r != this {
          assert old(r.Inv());
        }
      }
    }

    /** `promiseValue.then(onFulfilled, onRejected)` fires: the awaited promise has settled. */
    method AwaitedSettles(o: Outcome, fuel: nat) returns (thrown: Option<Value>)
      requires Inv() && awaiting.Some?
      modifies this, ids
      ensures Inv() && ids.seed >= old(ids.seed)
      ensures HasNext(iter) ==> |sent| > |old(sent)| && sent[|old(sent)|] == Factory.ResumeWith(o)
      ensures thrown.None? ==> tasks == (if co.Closed? then old(tasks) - {id} else old(tasks))
      ensures thrown.Some? ==> tasks == old(tasks) || tasks == old(tasks) - {id}
      ensures HasNext(iter) ==> StepLeaves(Factory.ResumeWith(o), old(Snapshot()).(awaiting := None), Snapshot(), thrown)
      ensures !HasNext(iter) ==>
        thrown == Some(if o.Fulfilled? then NEXT_NOT_A_FUNCTION else THROW_NOT_A_FUNCTION)
        && Snapshot() == old(Snapshot()).(awaiting := None)
      decreases fuel, 4, 0
    {
      awaiting := None;
      if o.Fulfilled? {
        thrown := OnFulfilled(o.value, fuel);
      } else {
        thrown := OnRejected(o.reason, fuel);
      }
    }
  }

  /**
   * `objectToPromise` after `i` keys: every deferred promise is under one of those keys;
   * with distinct keys, the result holds exactly those keys in order, undefined for the
   * deferred ones and the input's value for the rest.
   */
  ghost predicate ObjectProgress(obj: seq<Prop>, i: nat, results: seq<Prop>, promises: seq<Prop>)
    requires i <= |obj|
  {
    DeferredWithin(obj, i, promises) && (UniqueKeys(obj) ==> ResultsSoFar(obj, i, results, promises))
  }

  ghost predicate DeferredWithin(obj: seq<Prop>, i: nat, promises: seq<Prop>)
    requires i <= |obj|
  {
    forall j :: 0 <= j < |promises| ==> IsPromise(promises[j].val) && promises[j].key in Keys(obj[..i])
  }

  ghost predicate ResultsSoFar(obj: seq<Prop>, i: nat, results: seq<Prop>, promises: seq<Prop>)
    requires i <= |obj|
  {
    Keys(results) == Keys(obj[..i])
    && forall j :: 0 <= j < i ==> results[j].val == (if obj[j].key in Keys(promises) then Undefined else obj[j].val)
  }

  /** One round of the loop: the key is written once, deferred or with its own value. */
  lemma ObjectRound(obj: seq<Prop>, i: nat, results: seq<Prop>, promises: seq<Prop>, defer: bool, promise: Value)
    requires i < |obj| && ObjectProgress(obj, i, results, promises)
    requires defer ==> IsPromise(promise)
    ensures ObjectProgress(obj, i + 1,
      Assign(results, obj[i].key, if defer then Undefined else obj[i].val),
      if defer then promises + [Prop(obj[i].key, promise)] else promises)
  {
    var key := obj[i].key;
    var val := if defer then Undefined else obj[i].val;
    var promises' := if defer then promises + [Prop(key, promise)] else promises;
    KeysPrefix(obj, i);
    KeysSnoc(promises, Prop(key, promise));
    DeferredRound(obj, i, promises, promises');
    if UniqueKeys(obj) {
      FreshKey(obj, i);
      AssignAppends(results, key, val);
      ResultsRound(obj, i, results, promises, promises', val);
    }
  }

  lemma DeferredRound(obj: seq<Prop>, i: nat, promises: seq<Prop>, promises': seq<Prop>)
    requires i < |obj| && DeferredWithin(obj, i, promises)
    requires Keys(obj[..i + 1]) == Keys(obj[..i]) + [obj[i].key]
    requires promises' == promises || (|promises'| == |promises| + 1 && promises'[..|promises|] == promises
      && promises'[|promises|].key == obj[i].key && IsPromise(promises'[|promises|].val))
    ensures DeferredWithin(obj, i + 1, promises')
  {
    forall j | 0 <= j < |promises'|
      ensures IsPromise(promises'[j].val) && promises'[j].key in Keys(obj[..i + 1])
    {
      if j < |promises| {
        assert promises'[j] == promises[j];
      }
    }
  }

  lemma ResultsRound(obj: seq<Prop>, i: nat, results: seq<Prop>, promises: seq<Prop>, promises': seq<Prop>, val: Value)
    requires i < |obj| && ResultsSoFar(obj, i, results, promises)
    requires forall j :: 0 <= j < i ==> obj[j].key != obj[i].key
    requires Keys(promises') == Keys(promises) || Keys(promises') == Keys(promises) + [obj[i].key]
    requires val == (if obj[i].key in Keys(promises') then Undefined else obj[i].val)
    ensures ResultsSoFar(obj, i + 1, results + [Prop(obj[i].key, val)], promises')
  {
    KeysPrefix(obj, i);
    KeysSnoc(results, Prop(obj[i].key, val));
    ResultValues(obj, i, results, promises, promises', val);
  }

  /** The values after one more round: earlier keys keep theirs, the new key gets `val`. */
  lemma ResultValues(obj: seq<Prop>, i: nat, results: seq<Prop>, promises: seq<Prop>, promises': seq<Prop>, val: Value)
    requires i < |obj| && |results| == i
    requires forall j :: 0 <= j < i ==>
      results[j].val == (if obj[j].key in Keys(promises) then Undefined else obj[j].val)
    requires forall j :: 0 <= j < i ==> obj[j].key != obj[i].key
    requires Keys(promises') == Keys(promises) || Keys(promises') == Keys(promises) + [obj[i].key]
    requires val == (if obj[i].key in Keys(promises') then Undefined else obj[i].val)
    ensures forall j :: 0 <= j < i + 1 ==>
      (results + [Prop(obj[i].key, val)])[j].val == (if obj[j].key in Keys(promises') then Undefined else obj[j].val)
  {
    var results' := results + [Prop(obj[i].key, val)];
    forall j | 0 <= j < i + 1
      ensures results'[j].val == (if obj[j].key in Keys(promises') then Undefined else obj[j].val)
    {
      if j < i {
        assert results'[j] == results[j];
        assert (obj[j].key in Keys(promises')) == (obj[j].key in Keys(promises));
      }
    }
  }
}
