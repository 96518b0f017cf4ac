/** Values shared by the four promise drafts of the library: Swift optionals,
    the callbacks an executor makes on the `resolve`/`reject` closures it is
    handed, and the record of a catch-closure invocation. */
module Callbacks {

  /** Swift's `T?`. */
  datatype Option<T> = None | Some(value: T)

  /** Swift's `a ?? b`. */
  function OrElse<T>(a: Option<T>, b: Option<T>): (r: Option<T>)
    ensures a.Some? ==> r == a
    ensures a.None? ==> r == b
  {
    if a.Some? then a else b
  }

  /** A catch closure is observable only through its invocations, so it is
      represented by a handle chosen by the caller. */
  type HandlerId = nat

  /** One invocation of the `resolve` or `reject` closure handed to an executor. */
  datatype Event<T, E> = Resolved(value: Option<T>) | Rejected(error: Option<E>)

  /** An executor, described by the invocations it makes synchronously when it
      is started, in order. Invocations it schedules for later are delivered by
      the caller as separate calls of `Resolve`/`Reject` on the promise. */
  type Executor<T, E> = seq<Event<T, E>>

  /** One invocation of a stored catch closure, with the error it received. */
  datatype CatchCall<E> = CatchCall(handler: HandlerId, error: Option<E>)

  /** A success closure that maps an optional value to an optional value, `(T?) -> T?`. */
  type Transform<!T> = Option<T> -> Option<T>

  /** `f` applied `n` times. */
  function Iterate<T>(f: Transform<T>, n: nat, x: Option<T>): Option<T>
  {
    if n == 0 then x else Iterate(f, n - 1, f(x))
  }

  /** Invocations of `resolve`, one per value. */
  function Resolves<T, E>(vs: seq<Option<T>>): (es: Executor<T, E>)
    ensures |es| == |vs|
    ensures forall i :: 0 <= i < |es| ==> es[i] == Resolved(vs[i])
  {
    if vs == [] then [] else [Resolved(vs[0])] + Resolves(vs[1..])
  }

  /** An executor's invocations with every resolve argument erased to nil. */
  function Blank<T, E>(es: Executor<T, E>): (r: Executor<T, E>)
    ensures |r| == |es|
    ensures forall i :: 0 <= i < |es| ==> r[i] == (if es[i].Resolved? then Resolved(None) else es[i])
  {
    if es == [] then [] else [if es[0].Resolved? then Resolved(None) else es[0]] + Blank(es[1..])
  }
}
