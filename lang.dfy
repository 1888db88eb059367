/**
 * The fragment of the Java runtime the model needs: nullable references, the
 * exceptions the core raises or passes along, classes and objects.
 */
module Lang {

  /** Absence in the model's own bookkeeping (not a Java null). */
  datatype Option<+T> = None | Some(value: T)

  /** A Java reference that may be null. */
  datatype Nullable<+T> = Null | NonNull(value: T)

  /** The exceptions that occur in the modelled code. */
  datatype Throwable =
    | IllegalStateException(message: string)
    | IllegalArgumentException(message: string)
    | NullPointerException
    | ClassCastException
    /** an exception raised by a collaborator: a handler, an interceptor, the query bus */
    | Raised(description: string)

  /** A java.lang.Class, with what Class.toString needs to know about it. */
  datatype JClass = JClass(name: string, isInterface: bool, isPrimitive: bool)

  /** java.lang.Class.toString */
  function ClassToString(c: JClass): string {
    (if c.isInterface then "interface " else if c.isPrimitive then "" else "class ") + c.name
  }

  const StringClass := JClass("java.lang.String", false, false)
  const VoidClass := JClass("java.lang.Void", false, false)

  /** Message metadata: a map from keys to values. */
  type MetaData = map<string, string>

  /**
   * A Java object as the core sees it: a String, a message object (the core
   * passes messages where it expects plain payloads), or any other instance,
   * known by its runtime class and an opaque state.
   */
  datatype Object =
    | Str(chars: string)
    | MessageObject(message: Message)
    | Collection(elements: seq<Object>)
    | Instance(cls: JClass, state: string)

  /**
   * A message: its runtime class, its payload and its metadata. Messages are
   * immutable values; metadata changes make copies.
   */
  datatype Message = Message(cls: JClass, payload: Object, metaData: MetaData)

  const ListClass := JClass("java.util.List", true, false)

  /** Object.getClass() */
  function ClassOf(o: Object): JClass {
    match o
    case Str(_) => StringClass
    case MessageObject(m) => m.cls
    case Collection(_) => ListClass
    case Instance(c, _) => c
  }

  /** The outcome of a Java call that returns a value: the value, or the exception it throws. */
  datatype Call<+T> = Returns(value: T) | Throws(error: Throwable)

  datatype DurationParts = DurationParts(seconds: int, nanos: int)

  /** A java.time.Duration: whole seconds (possibly negative) and a nanosecond adjustment below one second. */
  type Duration = d: DurationParts | 0 <= d.nanos < 1_000_000_000 witness DurationParts(0, 0)

  /** Division rounded toward zero, as Java's integer division. */
  function TruncDiv(a: int, b: int): int
    requires b > 0
  {
    if a >= 0 then a / b else -((-a) / b)
  }

  /** Duration.toMillis (without the overflow check of multiplyExact/addExact). */
  function ToMillis(d: Duration): int {
    var s := if d.seconds < 0 then d.seconds + 1 else d.seconds;
    var n := if d.seconds < 0 then d.nanos - 1_000_000_000 else d.nanos;
    s * 1000 + TruncDiv(n, 1_000_000)
  }

  lemma DivPlusMultiple(k: int, c: int)
    requires c >= 0
    ensures (k * 1_000_000 + c) / 1_000_000 == k + c / 1_000_000
  {
  }

  /** toMillis is the whole duration in nanoseconds, divided by a million and rounded toward zero. */
  lemma ToMillisTruncates(d: Duration)
    ensures ToMillis(d) == TruncDiv(d.seconds * 1_000_000_000 + d.nanos, 1_000_000)
  {
    var total := d.seconds * 1_000_000_000 + d.nanos;
    if d.seconds >= 0 {
      assert total == (d.seconds * 1000) * 1_000_000 + d.nanos;
      DivPlusMultiple(d.seconds * 1000, d.nanos);
    } else {
      var k := -(d.seconds + 1) * 1000;
      var c := 1_000_000_000 - d.nanos;
      assert -total == k * 1_000_000 + c;
      DivPlusMultiple(k, c);
    }
  }
}
