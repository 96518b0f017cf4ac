/** `SyncPromise` (Sources/SwiftPromise/Sync/SyncPromise.swift): each `then`
    creates a fresh next promise and returns it. `resolve` passes the closure's
    output to that next promise as its `externalInput`, and the next promise's
    own `then` resolves at once with that input instead of running its (no-op)
    executor. With executors that call back synchronously, a chain
    `p.then(f1).then(f2)...` therefore passes each closure's output to the next
    closure. */
module SyncPromiseDraft {
  import opened Callbacks

  /** `SyncPromise.allPromisesSuccessString`. */
  const AllPromisesSuccessString := "Succeed to execute all promises."

  /** What `resolve(input)` hands to the next promise: the stored closure
      applied to `externalInput ?? input`, or nil when no closure is stored. */
  function Forward<V>(f: Option<Transform<V>>, externalInput: Option<V>, input: Option<V>): (r: Option<V>)
    ensures f.None? ==> r == None
    ensures f.Some? && externalInput.Some? ==> r == f.value(externalInput)
    ensures f.Some? && externalInput.None? ==> r == f.value(input)
  {
    match f
    case None => None
    case Some(g) => g(OrElse(externalInput, input))
  }

  /** The next promise's input after the invocations `es`, starting from
      `current`: each `resolve` overwrites it, so the last one wins. */
  function Forwarded<V, E>(f: Option<Transform<V>>, externalInput: Option<V>, es: Executor<V, E>, current: Option<V>): (r: Option<V>)
    ensures (forall i :: 0 <= i < |es| ==> es[i].Rejected?) ==> r == current
    ensures es != [] && es[|es| - 1].Resolved? ==> r == Forward(f, externalInput, es[|es| - 1].value)
    decreases |es|
  {
    if es == [] then current
    else if es[|es| - 1].Resolved? then Forward(f, externalInput, es[|es| - 1].value)
    else Forwarded(f, externalInput, es[..|es| - 1], current)
  }

  /** The arguments the stored closure receives during the invocations `es`. */
  function ClosureArguments<V, E>(f: Option<Transform<V>>, externalInput: Option<V>, es: Executor<V, E>): (r: seq<Option<V>>)
    ensures f.None? ==> r == []
    ensures externalInput.Some? && f.Some? ==> forall i :: 0 <= i < |r| ==> r[i] == externalInput
    decreases |es|
  {
    if es == [] || f.None? then []
    else
      var last := es[|es| - 1];
      ClosureArguments(f, externalInput, es[..|es| - 1]) + (if last.Resolved? then [OrElse(externalInput, last.value)] else [])
  }

  /** The invocations of the stored catch closure during the invocations `es`. */
  function CatchInvocations<V, E>(h: Option<HandlerId>, es: Executor<V, E>): (r: seq<CatchCall<E>>)
    ensures h.None? ==> r == []
    ensures |r| <= |es|
    decreases |es|
  {
    if es == [] || h.None? then []
    else
      var last := es[|es| - 1];
      CatchInvocations(h, es[..|es| - 1]) + (if last.Rejected? then [CatchCall(h.value, last.error)] else [])
  }

  /** What `then` starts: an immediate `resolve` with the external input when
      there is one, and the executor otherwise. */
  function StartEvents<V, E>(externalInput: Option<V>, execution: Executor<V, E>): Executor<V, E>
  {
    if externalInput.Some? then [Resolved(externalInput)] else execution
  }

  /** One link of a chain of promises created by `then`, whose executor does
      nothing: with an input it forwards the closure's image of it, without
      one it forwards nothing and never calls the closure. */
  function Link<V>(f: Transform<V>, input: Option<V>): Option<V>
  {
    if input.Some? then f(input) else None
  }

  /** The input reaching the end of a chain of such links. */
  function Pipe<V>(fs: seq<Transform<V>>, input: Option<V>): Option<V>
    decreases |fs|
  {
    if fs == [] then input else Pipe(fs[1..], Link(fs[0], input))
  }

  /** The closures applied one after the other: `fs[|fs|-1](...(fs[0](x)))`. */
  function Compose<V>(fs: seq<Transform<V>>, x: Option<V>): Option<V>
    decreases |fs|
  {
    if fs == [] then x else fs[|fs| - 1](Compose(fs[..|fs| - 1], x))
  }

  /** Appending a link to a chain feeds it the chain's output. */
  lemma {:induction false} PipeSnoc<V>(fs: seq<Transform<V>>, f: Transform<V>, input: Option<V>)
    ensures Pipe(fs + [f], input) == Link(f, Pipe(fs, input))
    decreases |fs|
  {
    if fs != [] {
      assert (fs + [f])[1..] == fs[1..] + [f];
      PipeSnoc(fs[1..], f, Link(fs[0], input));
    }
  }

  /** Once a closure returns nil, nothing further is forwarded along the chain. */
  lemma {:induction false} PipeStopsAtNil<V>(fs: seq<Transform<V>>)
    ensures Pipe(fs, None) == None
    decreases |fs|
  {
    if fs != [] {
      PipeStopsAtNil(fs[1..]);
    }
  }

  /** While no closure returns nil, an n-link chain computes the composition of its closures. */
  lemma {:induction false} PipeIsComposition<V>(fs: seq<Transform<V>>, x: Option<V>)
    requires x.Some?
    requires forall i, y: Option<V> :: 0 <= i < |fs| && y.Some? ==> fs[i](y).Some?
    ensures Pipe(fs, x) == Compose(fs, x) && Compose(fs, x).Some?
    decreases |fs|
  {
    if fs != [] {
      var init := fs[..|fs| - 1];
      PipeIsComposition(init, x);
      assert init + [fs[|fs| - 1]] == fs;
      PipeSnoc(init, fs[|fs| - 1], x);
    }
  }

  /** `then` on a promise that has an external input resolves with that input
      and ignores the executor: the closure is called once, with the input,
      the next promise receives its output, and no catch closure runs. */
  lemma ExternalInputBypassesExecutor<V, E>(f: Transform<V>, h: HandlerId, input: Option<V>, execution: Executor<V, E>)
    requires input.Some?
    ensures Forwarded(Some(f), input, StartEvents(input, execution), None) == f(input)
    ensures ClosureArguments(Some(f), input, StartEvents(input, execution)) == [input]
    ensures CatchInvocations(Some(h), StartEvents(input, execution)) == []
  {
    var es := StartEvents(input, execution);
    assert es[..0] == [];
  }

  /** The first closure of a chain receives the value the executor resolved with. */
  lemma FirstClosureReceivesExecutorValue<V, E>(f: Transform<V>, v: Option<V>)
    ensures ClosureArguments<V, E>(Some(f), None, StartEvents(None, [Resolved(v)])) == [v]
    ensures Forwarded<V, E>(Some(f), None, StartEvents(None, [Resolved(v)]), None) == f(v)
  {
    var es: Executor<V, E> := [Resolved(v)];
    assert es[..0] == [];
  }

  /** A `SyncPromise` object. The executor is a constant; `resolve` and `reject`
      are the closures handed to it, called by the executor when started or
      later by the caller on its behalf. `thenCalls` lists the arguments the
      stored success closure received, `catchCalls` the invocations of the
      stored catch closure. */
  class SyncPromise<V, E> {
    const execution: Executor<V, E>
    var thenClosure: Option<Transform<V>>
    var catchClosure: Option<HandlerId>
    var externalInput: Option<V>
    var nextPromise: SyncPromise?<V, E>
    ghost var thenCalls: seq<Option<V>>
    ghost var catchCalls: seq<CatchCall<E>>

    /** A promise is never its own next promise. */
    ghost predicate Valid()
      reads this
    {
      nextPromise != this
    }

    /** `init(execution)`: stores the executor and does not run it; there is
        no external input and no next promise yet. */
    constructor (execution: Executor<V, E>)
      ensures Valid() && this.execution == execution
      ensures thenClosure == None && catchClosure == None
      ensures externalInput == None && nextPromise == null
      ensures thenCalls == [] && catchCalls == []
    {
      this.execution := execution;
      thenClosure := None;
      catchClosure := None;
      externalInput := None;
      nextPromise := null;
      thenCalls := [];
      catchCalls := [];
    }

    /** `then(f)`: stores the closure, creates a next promise whose executor
        does nothing, then resolves at once with the external input if there
        is one and starts the executor otherwise; returns the next promise. */
    method Then(f: Transform<V>) returns (r: SyncPromise<V, E>)
      requires Valid()
      modifies this
      ensures Valid() && r == nextPromise && fresh(r) && r != this
      ensures thenClosure == Some(f) && catchClosure == old(catchClosure) && externalInput == old(externalInput)
      ensures r.execution == [] && r.Valid()
      ensures r.thenClosure == None && r.catchClosure == None && r.nextPromise == null
      ensures r.thenCalls == [] && r.catchCalls == []
      ensures r.externalInput == Forwarded(Some(f), externalInput, StartEvents(externalInput, execution), None)
      ensures thenCalls == old(thenCalls) + ClosureArguments(Some(f), externalInput, StartEvents(externalInput, execution))
      ensures catchCalls == old(catchCalls) + CatchInvocations(catchClosure, StartEvents(externalInput, execution))
    {
      thenClosure := Some(f);
      nextPromise := new SyncPromise([]);
      if externalInput.Some? {
        Resolve(externalInput);
      } else {
        Execute(execution);
      }
      r := nextPromise;
    }

    /** `catch(h)`: stores the catch closure and returns this promise, not the next one. */
    method Catch(h: HandlerId) returns (r: SyncPromise<V, E>)
      modifies this`catchClosure
      ensures r == this && catchClosure == Some(h)
    {
      catchClosure := Some(h);
      r := this;
    }

    /** `resolve(input)`: hands `Forward` of the input to the next promise as
        its external input; nothing else changes. */
    method Resolve(input: Option<V>)
      requires Valid()
      modifies this`thenCalls, (if nextPromise != null then {nextPromise} else {})`externalInput
      ensures nextPromise != null ==> nextPromise.externalInput == Forward(thenClosure, externalInput, input)
      ensures thenCalls == old(thenCalls) + ClosureArguments<V, E>(thenClosure, externalInput, [Resolved(input)])
    {
      var nextInput := None;
      match thenClosure {
        case None =>
        case Some(f) =>
          thenCalls := thenCalls + [OrElse(externalInput, input)];
          nextInput := f(OrElse(externalInput, input));
      }
      if nextPromise != null {
        nextPromise.externalInput := nextInput;
      }
    }

    /** `reject(e)`: calls the stored catch closure, if any, with `e`. */
    method Reject(e: Option<E>)
      modifies this`catchCalls
      ensures catchCalls == old(catchCalls) + CatchInvocations<V, E>(catchClosure, [Rejected(e)])
    {
      match catchClosure
      case None =>
      case Some(h) =>
        catchCalls := catchCalls + [CatchCall(h, e)];
    }

    /** `execution(resolve, reject)`: the executor's synchronous invocations, in order. */
    method Execute(es: Executor<V, E>)
      requires Valid()
      modifies this`thenCalls, this`catchCalls, (if nextPromise != null then {nextPromise} else {})`externalInput
      ensures nextPromise != null ==>
        nextPromise.externalInput == Forwarded(thenClosure, externalInput, es, old(nextPromise.externalInput))
      ensures thenCalls == old(thenCalls) + ClosureArguments(thenClosure, externalInput, es)
      ensures catchCalls == old(catchCalls) + CatchInvocations(catchClosure, es)
    {
      var i := 0;
      while i < |es|
        invariant 0 <= i <= |es|
        invariant nextPromise != null ==>
          nextPromise.externalInput == Forwarded(thenClosure, externalInput, es[..i], old(nextPromise.externalInput))
        invariant thenCalls == old(thenCalls) + ClosureArguments(thenClosure, externalInput, es[..i])
        invariant catchCalls == old(catchCalls) + CatchInvocations(catchClosure, es[..i])
      {
        assert es[..i + 1][..i] == es[..i];
        match es[i] {
          case Resolved(v) => Resolve(v);
          case Rejected(e) => Reject(e);
        }
        i := i + 1;
      }
      assert es[..|es|] == es;
    }
  }

  /** A chain `p.then(fs[0]).then(fs[1])...` on a promise with no external
      input: the first closure sees what `p`'s executor resolves with, and
      every later link passes its closure's output on to the next one. */
  method ThenChain<V, E>(p: SyncPromise<V, E>, fs: seq<Transform<V>>) returns (last: SyncPromise<V, E>)
    requires p.Valid() && p.externalInput.None?
    modifies p
    ensures |fs| == 0 ==> last == p
    ensures |fs| > 0 ==> fresh(last)
    ensures |fs| > 0 ==> last.externalInput == Pipe(fs[1..], Forwarded(Some(fs[0]), None, p.execution, None))
  {
    last := p;
    if |fs| == 0 {
      return;
    }
    last := p.Then(fs[0]);
    ghost var first := last.externalInput;
    var i := 1;
    while i < |fs|
      invariant 1 <= i <= |fs|
      invariant fresh(last) && last.Valid() && last.execution == []
      invariant last.externalInput == Pipe(fs[1..i], first)
    {
      last := last.Then(fs[i]);
      PipeSnoc(fs[1..i], fs[i], first);
      assert fs[1..i + 1] == fs[1..i] + [fs[i]];
      i := i + 1;
    }
    assert fs[1..i] == fs[1..];
  }

  /** The chaining test: `p.then(f1).then(f2)` on a promise whose executor
      resolves synchronously with `v`. `f1` receives `v`; `f2` receives `f1`'s
      output and never `v`, and is not called at all when that output is nil. */
  method ChainTwo<V, E>(v: Option<V>, f1: Transform<V>, f2: Transform<V>)
    returns (p: SyncPromise<V, E>, n1: SyncPromise<V, E>, n2: SyncPromise<V, E>)
    ensures p.thenCalls == [v]
    ensures n1.thenCalls == if f1(v).Some? then [f1(v)] else []
    ensures n2.externalInput == Link(f2, f1(v))
  {
    p := new SyncPromise([Resolved(v)]);
    n1 := p.Then(f1);
    n2 := n1.Then(f2);
  }

  /** `p.then(f).catch(h)` stores `h` on the next promise, which nothing ever
      rejects: a later `reject(e)` from `p`'s executor reaches no handler. */
  method CatchAfterThen<V, E>(f: Transform<V>, h: HandlerId, e: Option<E>)
    returns (p: SyncPromise<V, E>, n: SyncPromise<V, E>)
    ensures p.catchClosure == None && n.catchClosure == Some(h)
    ensures p.catchCalls == [] && n.catchCalls == []
  {
    p := new SyncPromise([]);
    n := p.Then(f);
    n := n.Catch(h);
    p.Reject(e);
  }
}
