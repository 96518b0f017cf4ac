/** `Promise` of Sources/SwiftPromise/SwiftPromise.swift, named `NestedPromise`
    here: its success closure may return a nested promise, whose executor is
    started with this promise's own `resolve`/`reject`. Every value the nested
    executor resolves with re-enters `resolve`, which calls the same success
    closure again, so the cascade stops only when the closure returns nil.

    Nothing bounds that cascade, so every operation that may start a nested
    executor takes `fuel`, the number of nested executors it may start one
    inside another; its outcome is `None` when the fuel runs out, and otherwise
    does not depend on the fuel (`ResolveFuelMonotone`). */
module NestedPromiseDraft {
  import opened Callbacks

  /** The success closure `(T?) -> Promise<T>?`; a returned promise is
      represented by its executor, the only part of it that `resolve` uses. */
  type Continuation<!T, E> = Option<T> -> Option<Executor<T, E>>

  /** The mutable fields of a `Promise` of this draft (`then` and `catch` are the
      stored closures), plus the observed closure invocations: `thenCalls` lists
      the arguments the success closure received, `catchCalls` the invocations
      of the catch closure. */
  datatype State<!T, E> = State(
    result: Option<T>,
    thenClosure: Option<Continuation<T, E>>,
    catchClosure: Option<HandlerId>,
    waiterInstalled: bool,
    thenCalls: seq<Option<T>>,
    catchCalls: seq<CatchCall<E>>)

  /** The state `init` leaves: nothing stored but the executor. */
  function Initial<T, E>(): State<T, E>
  {
    State(None, None, None, false, [], [])
  }

  /** `signalIfNeeded`: wakes the installed waiter, if there is one, and uninstalls it. */
  function AfterSignal<T, E>(s: State<T, E>): (out: (bool, State<T, E>))
    ensures out.0 <==> s.waiterInstalled
    ensures out.1 == s.(waiterInstalled := false)
  {
    (s.waiterInstalled, s.(waiterInstalled := false))
  }

  /** `resolve(v)`: `v` always overwrites the result; then either the waiter is
      woken and no closure runs, or the success closure is called with `v` and
      the executor of the promise it returns, if any, is started with this
      promise's callbacks. */
  function AfterResolve<T, E>(s: State<T, E>, v: Option<T>, fuel: nat): (r: Option<State<T, E>>)
    ensures s.waiterInstalled ==> r == Some(s.(result := v, waiterInstalled := false))
    ensures !s.waiterInstalled && s.thenClosure.None? ==> r == Some(s.(result := v))
    ensures !s.waiterInstalled && s.thenClosure.Some? && s.thenClosure.value(v).None? ==>
      r == Some(s.(result := v, thenCalls := s.thenCalls + [v]))
    ensures r.Some? ==> r.value.thenClosure == s.thenClosure && r.value.catchClosure == s.catchClosure
    ensures r.Some? ==> !r.value.waiterInstalled
    ensures r.Some? ==> s.thenCalls <= r.value.thenCalls && s.catchCalls <= r.value.catchCalls
    ensures r.Some? && !s.waiterInstalled && s.thenClosure.Some? ==>
      |r.value.thenCalls| > |s.thenCalls| && r.value.thenCalls[|s.thenCalls|] == v
    decreases fuel, 0
  {
    var (signaled, s1) := AfterSignal(s.(result := v));
    if signaled then Some(s1)
    else match s1.thenClosure
      case None => Some(s1)
      case Some(f) =>
        var s2 := s1.(thenCalls := s1.thenCalls + [v]);
        match f(v)
        case None => Some(s2)
        case Some(nested) => if fuel == 0 then None else AfterRun(s2, nested, fuel - 1)
  }

  /** `reject(e)`: wakes the waiter if there is one; otherwise calls the catch
      closure, if stored, once with `e`. The result is never touched. */
  function AfterReject<T, E>(s: State<T, E>, e: Option<E>): (r: State<T, E>)
    ensures r == s.(waiterInstalled := false, catchCalls := r.catchCalls)
    ensures s.waiterInstalled || s.catchClosure.None? ==> r.catchCalls == s.catchCalls
    ensures !s.waiterInstalled && s.catchClosure.Some? ==>
      r.catchCalls == s.catchCalls + [CatchCall(s.catchClosure.value, e)]
  {
    var (signaled, s1) := AfterSignal(s);
    if signaled then s1
    else match s1.catchClosure
      case None => s1
      case Some(h) => s1.(catchCalls := s1.catchCalls + [CatchCall(h, e)])
  }

  /** One callback invocation. */
  function AfterStep<T, E>(s: State<T, E>, ev: Event<T, E>, fuel: nat): Option<State<T, E>>
    decreases fuel, 1
  {
    match ev
    case Resolved(v) => AfterResolve(s, v, fuel)
    case Rejected(e) => Some(AfterReject(s, e))
  }

  /** The invocations `es`, one after the other, each with the same fuel. */
  function AfterRun<T, E>(s: State<T, E>, es: Executor<T, E>, fuel: nat): (r: Option<State<T, E>>)
    ensures r.Some? ==> r.value.thenClosure == s.thenClosure && r.value.catchClosure == s.catchClosure
    ensures r.Some? ==> s.thenCalls <= r.value.thenCalls && s.catchCalls <= r.value.catchCalls
    ensures r.Some? && es != [] ==> !r.value.waiterInstalled
    decreases fuel, |es| + 2
  {
    if es == [] then Some(s)
    else match AfterStep(s, es[0], fuel)
      case None => None
      case Some(s1) => AfterRun(s1, es[1..], fuel)
  }

  /** `then(f)`: stores `f` and starts the executor. */
  function AfterThen<T, E>(s: State<T, E>, f: Continuation<T, E>, execution: Executor<T, E>, fuel: nat): (r: Option<State<T, E>>)
    ensures r.Some? ==> r.value.thenClosure == Some(f) && r.value.catchClosure == s.catchClosure
    ensures execution == [] ==> r == Some(s.(thenClosure := Some(f)))
  {
    AfterRun(s.(thenClosure := Some(f)), execution, fuel)
  }

  /** `await()` returning after `wake`: the executor is started, a waiter is
      installed, and `wake` is the invocation that wakes it. The value returned
      is the argument of a waking `resolve`, or the result the executor left
      for a waking `reject`; the waking invocation runs no closure. */
  function AfterAwait<T, E>(s: State<T, E>, execution: Executor<T, E>, wake: Event<T, E>, fuel: nat): (out: Option<(Option<T>, State<T, E>)>)
    ensures out.Some? <==> AfterRun(s, execution, fuel).Some?
    ensures out.Some? ==> out.value.0 == out.value.1.result && !out.value.1.waiterInstalled
    ensures out.Some? ==> out.value.1.thenCalls == AfterRun(s, execution, fuel).value.thenCalls
    ensures out.Some? ==> out.value.1.catchCalls == AfterRun(s, execution, fuel).value.catchCalls
    ensures out.Some? && wake.Resolved? ==> out.value.0 == wake.value
    ensures out.Some? && wake.Rejected? ==> out.value.0 == AfterRun(s, execution, fuel).value.result
  {
    match AfterRun(s, execution, fuel)
    case None => None
    case Some(s1) =>
      match AfterStep(s1.(waiterInstalled := true), wake, fuel)
      case None => None
      case Some(s2) => Some((s2.result, s2))
  }

  /** `signalIfNeeded` is one-shot: an immediate second call finds no waiter. */
  lemma SignalIsOneShot<T, E>(s: State<T, E>)
    ensures !AfterSignal(AfterSignal(s).1).0
  {
  }

  /** More fuel never changes a completed `resolve`: the fuel only bounds the
      cascade, it does not alter what the cascade does. */
  lemma {:induction false} ResolveFuelMonotone<T, E>(s: State<T, E>, v: Option<T>, n: nat, m: nat)
    requires n <= m && AfterResolve(s, v, n).Some?
    ensures AfterResolve(s, v, m) == AfterResolve(s, v, n)
    decreases n, 0
  {
    if !s.waiterInstalled && s.thenClosure.Some? {
      var s2 := s.(result := v, thenCalls := s.thenCalls + [v]);
      match s.thenClosure.value(v)
      case None =>
      case Some(nested) =>
        RunFuelMonotone(s2, nested, n - 1, m - 1);
    }
  }

  /** More fuel never changes a completed run of callbacks. */
  lemma {:induction false} RunFuelMonotone<T, E>(s: State<T, E>, es: Executor<T, E>, n: nat, m: nat)
    requires n <= m && AfterRun(s, es, n).Some?
    ensures AfterRun(s, es, m) == AfterRun(s, es, n)
    decreases n, |es| + 2
  {
    if es != [] {
      match es[0] {
        case Resolved(v) => ResolveFuelMonotone(s, v, n, m);
        case Rejected(e) =>
      }
      var s1 := AfterStep(s, es[0], n).value;
      RunFuelMonotone(s1, es[1..], n, m);
    }
  }

  /** The cascade need not end: a success closure that always returns a
      promise resolving with the value it was given makes `resolve` re-enter
      itself forever, so no amount of fuel completes it. */
  lemma {:induction false} EchoingClosureNeverCompletes<T, E>(s: State<T, E>, v: Option<T>, fuel: nat)
    requires !s.waiterInstalled && s.thenClosure.Some?
    requires forall x :: s.thenClosure.value(x) == Some([Resolved(x)])
    ensures AfterResolve(s, v, fuel) == None
    decreases fuel
  {
    if fuel > 0 {
      var s2 := s.(result := v, thenCalls := s.thenCalls + [v]);
      EchoingClosureNeverCompletes(s2, v, fuel - 1);
      assert AfterRun(s2, [Resolved(v)], fuel - 1) == None;
    }
  }

  /** The same closure is re-invoked on the nested promise's value: if `f(v)`
      is a promise resolving with `w` and `f(w)` is nil, `resolve(v)` calls `f`
      with `v` and then with `w`, and leaves `w` as the result. */
  lemma NestedValueRefiresClosure<T, E>(s: State<T, E>, v: Option<T>, w: Option<T>, fuel: nat)
    requires !s.waiterInstalled && s.thenClosure.Some? && fuel >= 1
    requires s.thenClosure.value(v) == Some([Resolved(w)])
    requires s.thenClosure.value(w) == None
    ensures AfterResolve(s, v, fuel) == Some(s.(result := w, thenCalls := s.thenCalls + [v, w]))
  {
    var s2 := s.(result := v, thenCalls := s.thenCalls + [v]);
    var s3 := s2.(result := w, thenCalls := s2.thenCalls + [w]);
    assert s.(result := v, waiterInstalled := false) == s.(result := v);
    assert AfterResolve(s, v, fuel) == AfterRun(s2, [Resolved(w)], fuel - 1);
    assert AfterResolve(s2, w, fuel - 1) == Some(s3);
    assert AfterRun(s2, [Resolved(w)], fuel - 1) == AfterRun(s3, [], fuel - 1);
    assert s.thenCalls + [v] + [w] == s.thenCalls + [v, w];
  }

  /** There is no settle-once guard: a later `resolve` overwrites the result. */
  lemma LaterResolveOverwrites<T, E>(s: State<T, E>, v: Option<T>, w: Option<T>, fuel: nat)
    requires s.thenClosure.None?
    ensures AfterResolve(s, v, fuel).Some?
    ensures AfterResolve(AfterResolve(s, v, fuel).value, w, fuel) == Some(s.(result := w, waiterInstalled := false))
  {
  }

  /** The `then` test: a closure returning nil, attached before the executor's
      later `resolve(v)`, is called exactly once, with `v`. */
  lemma ThenReceivesResolvedValue<T, E>(f: Continuation<T, E>, v: Option<T>, fuel: nat)
    requires f(v).None?
    ensures AfterThen(Initial<T, E>(), f, [], fuel) == Some(Initial<T, E>().(thenClosure := Some(f)))
    ensures var s := AfterResolve(Initial<T, E>().(thenClosure := Some(f)), v, fuel);
      s.Some? && s.value.thenCalls == [v] && s.value.catchCalls == []
  {
  }

  /** A `Promise` object of this draft. The executor is a constant; `resolve`
      and `reject` are the closures handed to it, called by the executor when
      started or later by the caller on its behalf. */
  class NestedPromise<T, E> {
    const execution: Executor<T, E>
    var result: Option<T>
    /** The field `then`. */
    var thenClosure: Option<Continuation<T, E>>
    /** The field `catch`. */
    var catchClosure: Option<HandlerId>
    /** `semaphore != nil`. */
    var waiterInstalled: bool
    ghost var thenCalls: seq<Option<T>>
    ghost var catchCalls: seq<CatchCall<E>>

    ghost function Snapshot(): State<T, E>
      reads this
    {
      State(result, thenClosure, catchClosure, waiterInstalled, thenCalls, catchCalls)
    }

    /** `init(execution)`: stores the executor and does not run it. */
    constructor (execution: Executor<T, E>)
      ensures this.execution == execution && Snapshot() == Initial()
    {
      this.execution := execution;
      result := None;
      thenClosure := None;
      catchClosure := None;
      waiterInstalled := false;
      thenCalls := [];
      catchCalls := [];
    }

    /** `then(f)`: stores the closure, starts the executor, returns this promise. */
    method Then(f: Continuation<T, E>, fuel: nat) returns (r: NestedPromise<T, E>, completed: bool)
      modifies this
      ensures r == this
      ensures AfterThen(old(Snapshot()), f, execution, fuel) == if completed then Some(Snapshot()) else None
    {
      thenClosure := Some(f);
      completed := Execute(execution, fuel);
      r := this;
    }

    /** `catch(h)`: replaces the catch closure, returns this promise; nothing else changes. */
    method Catch(h: HandlerId) returns (r: NestedPromise<T, E>)
      modifies this
      ensures r == this
      ensures Snapshot() == old(Snapshot()).(catchClosure := Some(h))
    {
      catchClosure := Some(h);
      r := this;
    }

    /** `await()`, returning once `wake` has signalled the waiter it installs. */
    method Await(wake: Event<T, E>, fuel: nat) returns (r: Option<T>, completed: bool)
      modifies this
      ensures AfterAwait(old(Snapshot()), execution, wake, fuel) == if completed then Some((r, Snapshot())) else None
    {
      completed := Execute(execution, fuel);
      r := None;
      if completed {
        waiterInstalled := true;
        completed := Deliver(wake, fuel);
        r := result;
      }
    }

    /** `resolve(v)`. */
    method Resolve(v: Option<T>, fuel: nat) returns (completed: bool)
      modifies this
      ensures AfterResolve(old(Snapshot()), v, fuel) == if completed then Some(Snapshot()) else None
      decreases fuel, 0
    {
      result := v;
      var signaled := SignalIfNeeded();
      completed := true;
      if !signaled {
        match thenClosure
        case None =>
        case Some(f) =>
          thenCalls := thenCalls + [v];
          match f(v)
          case None =>
          case Some(nested) =>
            if fuel == 0 {
              completed := false;
            } else {
              completed := Execute(nested, fuel - 1);
            }
      }
    }

    /** `reject(e)`. */
    method Reject(e: Option<E>)
      modifies this
      ensures Snapshot() == AfterReject(old(Snapshot()), e)
    {
      var signaled := SignalIfNeeded();
      if !signaled {
        match catchClosure
        case None =>
        case Some(h) =>
          catchCalls := catchCalls + [CatchCall(h, e)];
      }
    }

    /** `signalIfNeeded()`. */
    method SignalIfNeeded() returns (signaled: bool)
      modifies this
      ensures (signaled, Snapshot()) == AfterSignal(old(Snapshot()))
    {
      signaled := waiterInstalled;
      waiterInstalled := false;
    }

    /** One invocation of `resolve` or `reject`. */
    method Deliver(ev: Event<T, E>, fuel: nat) returns (completed: bool)
      modifies this
      ensures AfterStep(old(Snapshot()), ev, fuel) == if completed then Some(Snapshot()) else None
      decreases fuel, 1
    {
      match ev
      case Resolved(v) =>
        completed := Resolve(v, fuel);
      case Rejected(e) =>
        Reject(e);
        completed := true;
    }

    /** `execution(resolve, reject)`, or `newPromise.execution(resolve, reject)`:
        an executor's synchronous invocations, in order, on this promise. */
    method Execute(es: Executor<T, E>, fuel: nat) returns (completed: bool)
      modifies this
      ensures AfterRun(old(Snapshot()), es, fuel) == if completed then Some(Snapshot()) else None
      decreases fuel, 2
    {
      var i := 0;
      while i < |es|
        invariant 0 <= i <= |es|
        invariant AfterRun(Snapshot(), es[i..], fuel) == AfterRun(old(Snapshot()), es, fuel)
      {
        assert es[i..][1..] == es[i + 1..];
        completed := Deliver(es[i], fuel);
        if !completed {
          return;
        }
        i := i + 1;
      }
      completed := true;
    }
  }
}
