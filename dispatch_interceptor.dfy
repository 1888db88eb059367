/**
 * MessageDispatchInterceptor's default methods, all defined through
 * intercept. A blocking await is observed as its outcome: the item, or the
 * failure rethrown.
 */
module MessageDispatchInterceptors {
  import opened Lang
  import opened Streams

  /** await().indefinitely(): the Uni's item, or its failure thrown. */
  function Await<M>(u: Uni<M>): (r: Call<Nullable<M>>)
    ensures u.Resolved? ==> r == Returns(u.item)
    ensures u.Failed? ==> r == Throws(u.error)
  {
    match u
    case Resolved(x) => Returns(x)
    case Failed(e) => Throws(e)
  }

  /** handle(messages): a function of a position and a message that intercepts a Uni of that message and awaits it. */
  function HandleList<M>(intercept: Uni<M> -> Uni<M>, messages: seq<Nullable<M>>): (int, Nullable<M>) -> Call<Nullable<M>> {
    (position: int, message: Nullable<M>) => Await(intercept(Resolved(message)))
  }

  /** handle(message): handle of the singleton list, applied at position 0 to the message. */
  function Handle<M>(intercept: Uni<M> -> Uni<M>, message: Nullable<M>): Call<Nullable<M>> {
    HandleList(intercept, [message])(0, message)
  }

  /** handle(m) is the awaited outcome of intercepting a Uni of m. */
  lemma HandleIsAwaitedIntercept<M>(intercept: Uni<M> -> Uni<M>, m: Nullable<M>)
    ensures Handle(intercept, m) == Await(intercept(Resolved(m)))
  {
  }

  /** The function handle(list) returns ignores the position and the list. */
  lemma HandleListIgnoresPositionAndList<M>(intercept: Uni<M> -> Uni<M>, l1: seq<Nullable<M>>, l2: seq<Nullable<M>>,
                                           p1: int, p2: int, m: Nullable<M>)
    ensures HandleList(intercept, l1)(p1, m) == HandleList(intercept, l2)(p2, m)
  {
  }

  /** A failure of intercept is thrown by handle; an item is returned by it. */
  lemma HandleSurfacesIntercept<M>(intercept: Uni<M> -> Uni<M>, m: Nullable<M>)
    ensures intercept(Resolved(m)).Failed? ==> Handle(intercept, m) == Throws(intercept(Resolved(m)).error)
    ensures intercept(Resolved(m)).Resolved? ==> Handle(intercept, m) == Returns(intercept(Resolved(m)).item)
  {
  }
}
