/** `Promise` of Sources/SwiftPromise/Promise.swift: the same design as
    `Promise2`, but `resolve` writes its own argument whenever the stored result
    is nil, instead of only on its first call. */
module PromiseDraft {
  import opened Callbacks

  /** `Promise.allPromisesSuccessString`, the value `all` resolves with. */
  const AllPromisesSuccessString := "Succeed to execute all promises."

  /** The mutable fields of a `Promise` (`then` and `catch` are the stored
      closures), plus the observed closure invocations: `thenCalls` lists the
      arguments the success closure received, `catchCalls` the invocations of
      the catch closure. */
  datatype State<!T, E> = State(
    result: Option<T>,
    thenClosure: Option<Transform<T>>,
    catchClosure: Option<HandlerId>,
    waiterInstalled: bool,
    thenCalls: seq<Option<T>>,
    catchCalls: seq<CatchCall<E>>)

  /** The state `init` leaves: nothing stored but the executor. */
  function Initial<T, E>(): State<T, E>
  {
    State(None, None, None, false, [], [])
  }

  /** `signalIfNeeded`: wakes the installed waiter, if there is one, and uninstalls it. */
  function AfterSignal<T, E>(s: State<T, E>): (out: (bool, State<T, E>))
    ensures out.0 <==> s.waiterInstalled
    ensures out.1 == s.(waiterInstalled := false)
  {
    (s.waiterInstalled, s.(waiterInstalled := false))
  }

  /** The value `resolve(v)` leaves in `result` before it signals or calls the closure. */
  function Recorded<T, E>(s: State<T, E>, v: Option<T>): Option<T>
  {
    if s.result.None? then v else s.result
  }

  /** `resolve(v)`: `v` is written only into a nil result; then either the
      waiter is woken and no closure runs, or the result becomes the success
      closure's image of the stored value (nil when no closure is stored). */
  function AfterResolve<T, E>(s: State<T, E>, v: Option<T>): (r: State<T, E>)
    ensures !r.waiterInstalled
    ensures r.thenClosure == s.thenClosure && r.catchClosure == s.catchClosure
    ensures r.catchCalls == s.catchCalls
    ensures s.waiterInstalled ==> r.result == Recorded(s, v) && r.thenCalls == s.thenCalls
    ensures !s.waiterInstalled && s.thenClosure.None? ==> r.result == None && r.thenCalls == s.thenCalls
    ensures !s.waiterInstalled && s.thenClosure.Some? ==>
      r.result == s.thenClosure.value(Recorded(s, v)) && r.thenCalls == s.thenCalls + [Recorded(s, v)]
  {
    var s1 := if s.result.None? then s.(result := v) else s;
    var (signaled, s2) := AfterSignal(s1);
    if signaled then s2
    else match s2.thenClosure
      case None => s2.(result := None)
      case Some(f) => s2.(result := f(s2.result), thenCalls := s2.thenCalls + [s2.result])
  }

  /** `reject(e)`: wakes the waiter if there is one; otherwise calls the catch
      closure, if stored, once with `e`. The result is never touched. */
  function AfterReject<T, E>(s: State<T, E>, e: Option<E>): (r: State<T, E>)
    ensures r == s.(waiterInstalled := false, catchCalls := r.catchCalls)
    ensures s.waiterInstalled || s.catchClosure.None? ==> r.catchCalls == s.catchCalls
    ensures !s.waiterInstalled && s.catchClosure.Some? ==>
      r.catchCalls == s.catchCalls + [CatchCall(s.catchClosure.value, e)]
  {
    var (signaled, s1) := AfterSignal(s);
    if signaled then s1
    else match s1.catchClosure
      case None => s1
      case Some(h) => s1.(catchCalls := s1.catchCalls + [CatchCall(h, e)])
  }

  /** One callback invocation. */
  function AfterStep<T, E>(s: State<T, E>, ev: Event<T, E>): State<T, E>
  {
    match ev
    case Resolved(v) => AfterResolve(s, v)
    case Rejected(e) => AfterReject(s, e)
  }

  /** The invocations `es`, one after the other. Callbacks never replace a
      closure, and they only append to the record of closure invocations. */
  function AfterRun<T, E>(s: State<T, E>, es: Executor<T, E>): (r: State<T, E>)
    ensures r.thenClosure == s.thenClosure && r.catchClosure == s.catchClosure
    ensures s.thenCalls <= r.thenCalls && s.catchCalls <= r.catchCalls
    ensures es != [] ==> !r.waiterInstalled
    decreases |es|
  {
    if es == [] then s else AfterRun(AfterStep(s, es[0]), es[1..])
  }

  /** `then(f)`: stores `f` and starts the executor. */
  function AfterThen<T, E>(s: State<T, E>, f: Transform<T>, execution: Executor<T, E>): (r: State<T, E>)
    ensures r.thenClosure == Some(f) && r.catchClosure == s.catchClosure
    ensures execution == [] ==> r == s.(thenClosure := Some(f))
  {
    AfterRun(s.(thenClosure := Some(f)), execution)
  }

  /** `await()` returning after `wake`: the executor is started, a waiter is
      installed, and `wake` is the invocation that wakes it. The value returned
      is the stored result, written by `wake` only if it was nil; the waking
      invocation runs no closure. */
  function AfterAwait<T, E>(s: State<T, E>, execution: Executor<T, E>, wake: Event<T, E>): (out: (Option<T>, State<T, E>))
    ensures out.0 == out.1.result && !out.1.waiterInstalled
    ensures out.1.thenCalls == AfterRun(s, execution).thenCalls
    ensures out.1.catchCalls == AfterRun(s, execution).catchCalls
    ensures wake.Resolved? ==> out.0 == Recorded(AfterRun(s, execution), wake.value)
    ensures wake.Rejected? ==> out.0 == AfterRun(s, execution).result
  {
    var s1 := AfterRun(s, execution).(waiterInstalled := true);
    var s2 := AfterStep(s1, wake);
    (s2.result, s2)
  }

  /** `signalIfNeeded` is one-shot: an immediate second call finds no waiter. */
  lemma SignalIsOneShot<T, E>(s: State<T, E>)
    ensures !AfterSignal(AfterSignal(s).1).0
  {
  }

  /** A non-nil result is never overwritten by a `resolve` argument. */
  lemma NonNilResultIgnoresArgument<T, E>(s: State<T, E>, v: Option<T>, w: Option<T>)
    requires s.result.Some?
    ensures AfterResolve(s, v) == AfterResolve(s, w)
  {
  }

  /** A nil result produced by the success closure is overwritten: the next
      `resolve` hands its own argument to the closure. */
  lemma NilFromClosureIsOverwritten<T, E>(s: State<T, E>, v: Option<T>, w: Option<T>)
    requires !s.waiterInstalled && s.thenClosure.Some?
    requires s.thenClosure.value(Recorded(s, v)).None?
    ensures AfterResolve(AfterResolve(s, v), w).thenCalls == s.thenCalls + [Recorded(s, v), w]
  {
  }

  /** While a success closure is stored that never yields nil, a non-nil result stays
      non-nil and no `resolve` argument is ever written: any run of callbacks
      ends in the same state whatever the resolve arguments. */
  lemma {:induction false} ResolveArgumentsIgnoredWhileNonNil<T, E>(s: State<T, E>, es: Executor<T, E>)
    requires s.result.Some? && s.thenClosure.Some?
    requires forall x :: s.thenClosure.value(x).Some?
    ensures AfterRun(s, es) == AfterRun(s, Blank(es))
    decreases |es|
  {
    if es != [] {
      assert Blank(es)[1..] == Blank(es[1..]);
      assert AfterStep(s, es[0]) == AfterStep(s, Blank(es)[0]);
      ResolveArgumentsIgnoredWhileNonNil(AfterStep(s, es[0]), es[1..]);
    }
  }

  /** With no waiter, a non-nil result and a closure that never yields nil,
      every `resolve` applies the closure to the already transformed result. */
  lemma {:induction false} ResolvesIterateClosure<T, E>(s: State<T, E>, f: Transform<T>, vs: seq<Option<T>>)
    requires s.result.Some? && !s.waiterInstalled && s.thenClosure == Some(f)
    requires forall x :: f(x).Some?
    ensures AfterRun(s, Resolves<T, E>(vs)).result == Iterate(f, |vs|, s.result)
    decreases |vs|
  {
    if vs != [] {
      var es := Resolves<T, E>(vs);
      assert es[1..] == Resolves<T, E>(vs[1..]);
      ResolvesIterateClosure(AfterResolve(s, vs[0]), f, vs[1..]);
    }
  }

  /** The `then` test: a closure attached before the executor's later
      `resolve(v)` is called exactly once, with `v`, and no catch closure runs. */
  lemma ThenReceivesResolvedValue<T, E>(f: Transform<T>, v: Option<T>)
    ensures var s := AfterResolve(AfterThen(Initial<T, E>(), f, []), v);
      s.thenCalls == [v] && s.catchCalls == []
  {
  }

  /** The `catch` test: after `then(f).catch(h)`, the executor's later
      `reject(e)` calls `h` exactly once with `e`, and never `f`. */
  lemma RejectCallsCatchOnly<T, E>(f: Transform<T>, h: HandlerId, e: Option<E>)
    ensures var s := AfterReject(AfterThen(Initial<T, E>(), f, []).(catchClosure := Some(h)), e);
      s.catchCalls == [CatchCall(h, e)] && s.thenCalls == []
  {
  }

  /** The `await` tests: `await` returns the value of the first `resolve`, and nil after a `reject`. */
  lemma AwaitOnFreshPromise<T, E>(v: Option<T>, e: Option<E>)
    ensures AfterAwait(Initial<T, E>(), [], Resolved(v)).0 == v
    ensures AfterAwait(Initial<T, E>(), [], Rejected(e)).0 == None
  {
  }

  /** A `Promise` object. The executor is a constant; `resolve` and `reject`
      are the closures handed to it, called by the executor when started or
      later by the caller on its behalf. */
  class Promise<T, E> {
    const execution: Executor<T, E>
    var result: Option<T>
    /** The field `then`. */
    var thenClosure: Option<Transform<T>>
    /** The field `catch`. */
    var catchClosure: Option<HandlerId>
    /** `semaphore != nil`. */
    var waiterInstalled: bool
    ghost var thenCalls: seq<Option<T>>
    ghost var catchCalls: seq<CatchCall<E>>

    ghost function Snapshot(): State<T, E>
      reads this
    {
      State(result, thenClosure, catchClosure, waiterInstalled, thenCalls, catchCalls)
    }

    /** `init(execution)`: stores the executor and does not run it. */
    constructor (execution: Executor<T, E>)
      ensures this.execution == execution && Snapshot() == Initial()
    {
      this.execution := execution;
      result := None;
      thenClosure := None;
      catchClosure := None;
      waiterInstalled := false;
      thenCalls := [];
      catchCalls := [];
    }

    /** `then(f)`: stores the closure, starts the executor, returns this promise. */
    method Then(f: Transform<T>) returns (r: Promise<T, E>)
      modifies this
      ensures r == this
      ensures Snapshot() == AfterThen(old(Snapshot()), f, execution)
    {
      thenClosure := Some(f);
      Execute(execution);
      r := this;
    }

    /** `catch(h)`: replaces the catch closure, returns this promise; nothing else changes. */
    method Catch(h: HandlerId) returns (r: Promise<T, E>)
      modifies this
      ensures r == this
      ensures Snapshot() == old(Snapshot()).(catchClosure := Some(h))
    {
      catchClosure := Some(h);
      r := this;
    }

    /** `await()`, returning once `wake` has signalled the waiter it installs. */
    method Await(wake: Event<T, E>) returns (r: Option<T>)
      modifies this
      ensures (r, Snapshot()) == AfterAwait(old(Snapshot()), execution, wake)
    {
      Execute(execution);
      waiterInstalled := true;
      Deliver(wake);
      r := result;
    }

    /** `resolve(v)`. */
    method Resolve(v: Option<T>)
      modifies this
      ensures Snapshot() == AfterResolve(old(Snapshot()), v)
    {
      if result.None? {
        result := v;
      }
      var signaled := SignalIfNeeded();
      if !signaled {
        match thenClosure
        case None =>
          result := None;
        case Some(f) =>
          thenCalls := thenCalls + [result];
          result := f(result);
      }
    }

    /** `reject(e)`. */
    method Reject(e: Option<E>)
      modifies this
      ensures Snapshot() == AfterReject(old(Snapshot()), e)
    {
      var signaled := SignalIfNeeded();
      if !signaled {
        match catchClosure
        case None =>
        case Some(h) =>
          catchCalls := catchCalls + [CatchCall(h, e)];
      }
    }

    /** `signalIfNeeded()`. */
    method SignalIfNeeded() returns (signaled: bool)
      modifies this
      ensures (signaled, Snapshot()) == AfterSignal(old(Snapshot()))
    {
      signaled := waiterInstalled;
      waiterInstalled := false;
    }

    /** One invocation of `resolve` or `reject`. */
    method Deliver(ev: Event<T, E>)
      modifies this
      ensures Snapshot() == AfterStep(old(Snapshot()), ev)
    {
      match ev
      case Resolved(v) => Resolve(v);
      case Rejected(e) => Reject(e);
    }

    /** `execution(resolve, reject)`: the executor's synchronous invocations, in order. */
    method Execute(es: Executor<T, E>)
      modifies this
      ensures Snapshot() == AfterRun(old(Snapshot()), es)
    {
      var i := 0;
      while i < |es|
        invariant 0 <= i <= |es|
        invariant AfterRun(Snapshot(), es[i..]) == AfterRun(old(Snapshot()), es)
      {
        assert es[i..][1..] == es[i + 1..];
        Deliver(es[i]);
        i := i + 1;
      }
    }
  }
}
