/**
 * Precondition checks. Each check either passes or throws; the message is
 * produced by a supplier that the check calls only when it throws.
 */
module Assert {
  import opened Lang

  /** The outcome of a void Java call: it returns normally or throws. */
  datatype Outcome = Pass | Thrown(error: Throwable)

  /** Assert.state: throws IllegalStateException with the supplied message when the state is false. */
  function State(state: bool, messageSupplier: () -> string): (r: Outcome)
    ensures r.Pass? <==> state
    ensures !state ==> r.error == IllegalStateException(messageSupplier())
  {
    if !state then Thrown(IllegalStateException(messageSupplier())) else Pass
  }

  /** Assert.isTrue: throws IllegalArgumentException with the supplied message when the expression is false. */
  function IsTrue(expression: bool, messageSupplier: () -> string): (r: Outcome)
    ensures r.Pass? <==> expression
    ensures !expression ==> r.error == IllegalArgumentException(messageSupplier())
  {
    if !expression then Thrown(IllegalArgumentException(messageSupplier())) else Pass
  }

  /** Assert.isFalse: isTrue of the negation. */
  function IsFalse(expression: bool, messageSupplier: () -> string): (r: Outcome)
    ensures r.Thrown? <==> expression
    ensures expression ==> r.error == IllegalArgumentException(messageSupplier())
  {
    IsTrue(!expression, messageSupplier)
  }

  /** Assert.notNull: isTrue of "the object is not null". */
  function NotNull<T>(obj: Nullable<T>, supplier: () -> string): (r: Outcome)
    ensures r.Thrown? <==> obj.Null?
    ensures obj.Null? ==> r.error == IllegalArgumentException(supplier())
  {
    IsTrue(obj.NonNull?, supplier)
  }

  /**
   * A passing check does not consult its supplier: whatever the supplier, the
   * outcome is the same.
   */
  lemma PassingChecksIgnoreSupplier<T>(b: bool, o: Nullable<T>, s1: () -> string, s2: () -> string)
    ensures b ==> State(b, s1) == State(b, s2) == Pass
    ensures b ==> IsTrue(b, s1) == IsTrue(b, s2) == Pass
    ensures !b ==> IsFalse(b, s1) == IsFalse(b, s2) == Pass
    ensures o.NonNull? ==> NotNull(o, s1) == NotNull(o, s2) == Pass
  {
  }
}
