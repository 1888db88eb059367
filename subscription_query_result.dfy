/**
 * DefaultSubscriptionQueryResult: an immutable holder of the initial result,
 * the updates and the registration a cancel is forwarded to. Each of the
 * three may be null.
 */
module SubscriptionQueryResults {
  import opened Lang
  import opened Streams

  /** A registration, known by what its cancel yields: whether it removed something, or the exception it throws. */
  datatype Registration = Registration(onCancel: Call<bool>)

  datatype DefaultSubscriptionQueryResult<+I, +U> = DefaultSubscriptionQueryResult(
    initialResult: Nullable<Uni<I>>,
    updates: Nullable<Multi<U>>,
    registrationDelegate: Nullable<Registration>)

  /** initialResult(): the constructor's initial result. */
  function InitialResult<I, U>(r: DefaultSubscriptionQueryResult<I, U>): Nullable<Uni<I>> {
    r.initialResult
  }

  /** updates(): the constructor's updates. */
  function Updates<I, U>(r: DefaultSubscriptionQueryResult<I, U>): Nullable<Multi<U>> {
    r.updates
  }

  /** cancel(): forwarded to the registration; a null registration is dereferenced. */
  function Cancel<I, U>(r: DefaultSubscriptionQueryResult<I, U>): (c: Call<bool>)
    ensures r.registrationDelegate.Null? ==> c == Throws(NullPointerException)
    ensures r.registrationDelegate.NonNull? ==> c == r.registrationDelegate.value.onCancel
  {
    match r.registrationDelegate
    case Null => Throws(NullPointerException)
    case NonNull(registration) => registration.onCancel
  }

  /** The accessors give back exactly what the constructor was given, and cancel is what the delegate's cancel is. */
  lemma AccessorsReturnConstructorArguments<I, U>(i: Nullable<Uni<I>>, u: Nullable<Multi<U>>, g: Registration)
    ensures InitialResult(DefaultSubscriptionQueryResult(i, u, NonNull(g))) == i
    ensures Updates(DefaultSubscriptionQueryResult(i, u, NonNull(g))) == u
    ensures Cancel(DefaultSubscriptionQueryResult(i, u, NonNull(g))) == g.onCancel
  {
  }

  /** The result built with three nulls: both accessors yield null and cancel fails with a NullPointerException. */
  lemma AllNullResult<I, U>(r: DefaultSubscriptionQueryResult<I, U>)
    requires r == DefaultSubscriptionQueryResult(Null, Null, Null)
    ensures InitialResult(r).Null? && Updates(r).Null?
    ensures Cancel(r) == Throws(NullPointerException)
  {
  }
}
