/**
 * Response types: what a query expects back, and how a handler's declared
 * return type is matched against it.
 */
module ResponseTypes {
  import opened Lang

  /** A java.lang.reflect.Type: a class, or a parameterized type such as Future<X>. */
  datatype JavaType = ClassType(cls: JClass) | Parameterized(raw: JClass, args: seq<JavaType>)

  const FutureClass := JClass("java.util.concurrent.Future", true, false)
  const OptionalClass := JClass("java.util.Optional", false, false)

  /**
   * A response type. InstanceResponseType expects one instance of its class;
   * the other implementations (built by ResponseTypes, not part of this model)
   * are known only by their expected class and a tag.
   */
  datatype ResponseType =
    | InstanceResponseType(expectedResponseType: JClass)
    | OtherResponseType(expectedResponseType: JClass, kind: string)

  /** The two AbstractResponseType assignability tests, each of an expected class and a handler's type. */
  datatype Assignability = Assignability(
    genericAssignable: (JClass, JavaType) -> bool,
    rawAssignable: (JClass, JavaType) -> bool)

  /** A Future<X> or Optional<X>: the wrappers that matching looks through. */
  predicate IsWrapper(t: JavaType) {
    t.Parameterized? && (t.raw == FutureClass || t.raw == OptionalClass) && |t.args| == 1
  }

  /** unwrapIfType(t, Future.class, Optional.class): one wrapper layer stripped; any other type as it is. */
  function Unwrap(t: JavaType): (r: JavaType)
    ensures IsWrapper(t) ==> r == t.args[0]
    ensures !IsWrapper(t) ==> r == t
  {
    if IsWrapper(t) then t.args[0] else t
  }

  /** InstanceResponseType.matches */
  predicate Matches(expected: JClass, responseType: JavaType, a: Assignability) {
    var unwrapped := Unwrap(responseType);
    a.genericAssignable(expected, unwrapped) || a.rawAssignable(expected, unwrapped)
  }

  /** A handler type matches iff one of the two tests accepts it after one wrapper layer is stripped. */
  lemma MatchesUnwrapped(expected: JClass, t: JavaType, a: Assignability)
    ensures Matches(expected, t, a) <==>
      (if IsWrapper(t) then a.genericAssignable(expected, t.args[0]) || a.rawAssignable(expected, t.args[0])
       else a.genericAssignable(expected, t) || a.rawAssignable(expected, t))
  {
  }

  /** Future<X> and Optional<X> match exactly when X does, for an X that is not itself a wrapper. */
  lemma WrapperMatchesLikeContent(expected: JClass, x: JavaType, a: Assignability)
    requires !IsWrapper(x)
    ensures Matches(expected, Parameterized(FutureClass, [x]), a) <==> Matches(expected, x, a)
    ensures Matches(expected, Parameterized(OptionalClass, [x]), a) <==> Matches(expected, x, a)
  {
  }

  /** Only one layer is stripped: Future<Optional<X>> is tested as Optional<X>. */
  lemma OneLayerOnly(expected: JClass, x: JavaType, a: Assignability)
    ensures Matches(expected, Parameterized(FutureClass, [Parameterized(OptionalClass, [x])]), a) <==>
      (a.genericAssignable(expected, Parameterized(OptionalClass, [x])) ||
       a.rawAssignable(expected, Parameterized(OptionalClass, [x])))
  {
  }

  /** Any other generic type, a List<X> say, is tested as it is. */
  lemma OtherGenericsTestedAsIs(expected: JClass, raw: JClass, args: seq<JavaType>, a: Assignability)
    requires raw != FutureClass && raw != OptionalClass
    ensures Matches(expected, Parameterized(raw, args), a) <==>
      (a.genericAssignable(expected, Parameterized(raw, args)) || a.rawAssignable(expected, Parameterized(raw, args)))
  {
  }

  /** The default ResponseType.convert: an unchecked cast, so the response itself. */
  function Convert(rt: ResponseType, response: Nullable<Object>): (r: Nullable<Object>)
    ensures r == response
  {
    response
  }

  /** The default ResponseType.forSerialization: the receiver itself. */
  function ForSerialization(rt: ResponseType): (r: ResponseType)
    ensures r == rt
  {
    rt
  }

  /** InstanceResponseType.responseMessagePayloadType: the class given at construction. */
  function ResponseMessagePayloadType(rt: ResponseType): (r: JClass)
    requires rt.InstanceResponseType?
  {
    rt.expectedResponseType
  }

  lemma PayloadTypeIsConstructorArgument(expected: JClass)
    ensures ResponseMessagePayloadType(InstanceResponseType(expected)) == expected
  {
  }

  const ToStringPrefix := "InstanceResponseType{"

  /** InstanceResponseType.toString */
  function ToString(expected: JClass): (r: string)
    ensures |r| == |ToStringPrefix| + |ClassToString(expected)| + 1
    ensures r[..|ToStringPrefix|] == ToStringPrefix && r[|r| - 1] == '}'
    ensures r[|ToStringPrefix|..|r| - 1] == ClassToString(expected)
  {
    ToStringPrefix + ClassToString(expected) + "}"
  }

  /** The class's text can be read back out of toString, and so two text-distinct classes print differently. */
  lemma ToStringInjective(c1: JClass, c2: JClass)
    requires ToString(c1) == ToString(c2)
    ensures ClassToString(c1) == ClassToString(c2)
  {
    var r := ToString(c1);
    assert ClassToString(c1) == r[|ToStringPrefix|..|r| - 1];
  }
}
