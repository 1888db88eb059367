/**
 * QueryGateway's default methods: every overload delegates, in the end, to one
 * of three core methods that an implementation provides. The subscription
 * variants that return a single stream flatten a subscription result into its
 * updates and close it when that stream terminates.
 */
module QueryGatewayDefaults {
  import opened Lang
  import opened Streams
  import opened ResponseTypes
  import opened QueryMessages
  import opened SubscriptionQueryResults

  type SubscriptionQueryResult = DefaultSubscriptionQueryResult<Object, Object>

  /** The three methods an implementation provides: query, scatterGather and subscriptionQuery with every argument. */
  datatype Core = Core(
    query: (string, Nullable<Object>, ResponseType) -> Uni<Object>,
    scatterGather: (string, Nullable<Object>, ResponseType, Nullable<Duration>) -> Multi<Object>,
    subscriptionQuery: (string, Nullable<Object>, ResponseType, ResponseType, int) -> Uni<SubscriptionQueryResult>)

  /**
   * The static helpers the defaults call, none of which is part of this model:
   * QueryMessage.queryName, ResponseTypes.instanceOf and multipleInstancesOf,
   * and Queues.BUFFER_XS.
   */
  datatype Naming = Naming(
    queryNameOf: Nullable<Object> -> string,
    instanceOf: JClass -> ResponseType,
    multipleInstancesOf: JClass -> ResponseType,
    bufferXs: int)

  // ---------------------------------------------------------------------------
  // query

  /** query(queryName, query, Class): the class wrapped in instanceOf. */
  function QueryNamedForClass(n: Naming, core: Core, queryName: string, query: Nullable<Object>, responseType: JClass)
    : (r: Uni<Object>)
    ensures r == core.query(queryName, query, n.instanceOf(responseType))
  {
    core.query(queryName, query, n.instanceOf(responseType))
  }

  /** query(query, Class): named by QueryMessage.queryName, then as above. */
  function QueryForClass(n: Naming, core: Core, query: Nullable<Object>, responseType: JClass): (r: Uni<Object>)
    ensures r == core.query(n.queryNameOf(query), query, n.instanceOf(responseType))
  {
    QueryNamedForClass(n, core, n.queryNameOf(query), query, responseType)
  }

  /** query(query, ResponseType): named by QueryMessage.queryName. */
  function QueryFor(n: Naming, core: Core, query: Nullable<Object>, responseType: ResponseType): (r: Uni<Object>)
    ensures r == core.query(n.queryNameOf(query), query, responseType)
  {
    core.query(n.queryNameOf(query), query, responseType)
  }

  /** Each query of the stream dispatched with its own name, payload and response type. */
  function QueryOne(core: Core): QueryMessage -> Multi<Object> {
    (q: QueryMessage) => UniToMulti(core.query(q.queryName, NonNull(PayloadOf(q)), q.responseType))
  }

  /** query(Publisher): the queries dispatched one after another, their results concatenated in order. */
  function QueryAll(core: Core, queries: Multi<QueryMessage>): Multi<Object> {
    ConcatMap(queries, QueryOne(core))
  }

  /** When every query and the publisher complete, the results are those of each query in publisher order. */
  lemma QueryAllInOrder(core: Core, queries: Multi<QueryMessage>)
    requires queries.failure.None?
    requires forall i :: 0 <= i < |queries.items| ==> QueryOne(core)(queries.items[i]).failure.None?
    ensures QueryAll(core, queries) == Multi(Flatten(MapSeq(queries.items, QueryOne(core))), None)
  {
    ConcatMapInOrder(queries, QueryOne(core));
  }

  /** The first query that fails ends the stream: queries after it are not dispatched into the output. */
  lemma QueryAllStopsAtFailure(core: Core, queries: Multi<QueryMessage>, k: nat)
    requires k < |queries.items| && QueryOne(core)(queries.items[k]).failure.Some?
    requires forall i :: 0 <= i < k ==> QueryOne(core)(queries.items[i]).failure.None?
    ensures QueryAll(core, queries).failure == QueryOne(core)(queries.items[k]).failure
    ensures QueryAll(core, queries).items == Flatten(MapSeq(queries.items, QueryOne(core))[..k])
  {
    ConcatMapStopsAtFailure(queries, QueryOne(core), k);
    var q := queries.items[k];
    var u := core.query(q.queryName, NonNull(PayloadOf(q)), q.responseType);
    assert QueryOne(core)(q) == UniToMulti(u);
    assert u.Failed?;
  }

  // ---------------------------------------------------------------------------
  // scatterGather

  /** scatterGather(query, ResponseType, timeout): the derived name, the timeout unchanged. */
  function ScatterGatherFor(n: Naming, core: Core, query: Nullable<Object>, responseType: ResponseType, timeout: Nullable<Duration>)
    : (r: Multi<Object>)
    ensures r == core.scatterGather(n.queryNameOf(query), query, responseType, timeout)
  {
    core.scatterGather(n.queryNameOf(query), query, responseType, timeout)
  }

  function ScatterGatherOne(core: Core, timeout: Nullable<Duration>): QueryMessage -> Multi<Object> {
    (q: QueryMessage) => core.scatterGather(q.queryName, NonNull(PayloadOf(q)), q.responseType, timeout)
  }

  /** scatterGather(Publisher, timeout): each query scattered in turn with the same timeout, results concatenated. */
  function ScatterGatherAll(core: Core, queries: Multi<QueryMessage>, timeout: Nullable<Duration>): Multi<Object> {
    ConcatMap(queries, ScatterGatherOne(core, timeout))
  }

  lemma ScatterGatherAllInOrder(core: Core, queries: Multi<QueryMessage>, timeout: Nullable<Duration>)
    requires queries.failure.None?
    requires forall i :: 0 <= i < |queries.items| ==> ScatterGatherOne(core, timeout)(queries.items[i]).failure.None?
    ensures ScatterGatherAll(core, queries, timeout) == Multi(Flatten(MapSeq(queries.items, ScatterGatherOne(core, timeout))), None)
  {
    ConcatMapInOrder(queries, ScatterGatherOne(core, timeout));
  }

  // ---------------------------------------------------------------------------
  // subscriptionQuery returning a subscription result

  /** subscriptionQuery(queryName, query, ResponseType, ResponseType): the default buffer size Queues.BUFFER_XS. */
  function SubscriptionQueryNamed(n: Naming, core: Core, queryName: string, query: Nullable<Object>,
                                  initialResponseType: ResponseType, updateResponseType: ResponseType)
    : (r: Uni<SubscriptionQueryResult>)
    ensures r == core.subscriptionQuery(queryName, query, initialResponseType, updateResponseType, n.bufferXs)
  {
    core.subscriptionQuery(queryName, query, initialResponseType, updateResponseType, n.bufferXs)
  }

  /** subscriptionQuery(query, ResponseType, ResponseType): named by QueryMessage.queryName. */
  function SubscriptionQueryFor(n: Naming, core: Core, query: Nullable<Object>,
                                initialResponseType: ResponseType, updateResponseType: ResponseType)
    : (r: Uni<SubscriptionQueryResult>)
    ensures r == core.subscriptionQuery(n.queryNameOf(query), query, initialResponseType, updateResponseType, n.bufferXs)
  {
    SubscriptionQueryNamed(n, core, n.queryNameOf(query), query, initialResponseType, updateResponseType)
  }

  /** subscriptionQuery(queryName, query, Class, Class): both classes wrapped in instanceOf. */
  function SubscriptionQueryNamedForClasses(n: Naming, core: Core, queryName: string, query: Nullable<Object>,
                                            initialResponseType: JClass, updateResponseType: JClass)
    : (r: Uni<SubscriptionQueryResult>)
    ensures r == core.subscriptionQuery(queryName, query, n.instanceOf(initialResponseType),
                                        n.instanceOf(updateResponseType), n.bufferXs)
  {
    SubscriptionQueryNamed(n, core, queryName, query, n.instanceOf(initialResponseType), n.instanceOf(updateResponseType))
  }

  /** subscriptionQuery(query, Class, Class): named by QueryMessage.queryName, then as above. */
  function SubscriptionQueryForClasses(n: Naming, core: Core, query: Nullable<Object>,
                                       initialResponseType: JClass, updateResponseType: JClass)
    : (r: Uni<SubscriptionQueryResult>)
    ensures r == core.subscriptionQuery(n.queryNameOf(query), query, n.instanceOf(initialResponseType),
                                        n.instanceOf(updateResponseType), n.bufferXs)
  {
    SubscriptionQueryNamedForClasses(n, core, n.queryNameOf(query), query, initialResponseType, updateResponseType)
  }

  predicate AllSubscriptionQueries(queries: Multi<QueryMessage>) {
    forall i :: 0 <= i < |queries.items| ==> queries.items[i].GenericSubscriptionQueryMessage?
  }

  function SubscriptionQueryOne(core: Core, updateBufferSize: int): QueryMessage -> Multi<SubscriptionQueryResult> {
    (q: QueryMessage) => if q.GenericSubscriptionQueryMessage? then
           UniToMulti(core.subscriptionQuery(q.queryName, NonNull(PayloadOf(q)), q.responseType,
                                             GetUpdateResponseType(q), updateBufferSize))
         else Failure(ClassCastException)
  }

  /** subscriptionQuery(Publisher, updateBufferSize): one subscription per query, in order, with the given buffer size. */
  function SubscriptionQueryAll(core: Core, queries: Multi<QueryMessage>, updateBufferSize: int)
    : Multi<SubscriptionQueryResult>
    requires AllSubscriptionQueries(queries)
  {
    ConcatMap(queries, SubscriptionQueryOne(core, updateBufferSize))
  }

  lemma SubscriptionQueryAllInOrder(core: Core, queries: Multi<QueryMessage>, updateBufferSize: int)
    requires AllSubscriptionQueries(queries) && queries.failure.None?
    requires forall i :: 0 <= i < |queries.items| ==>
      SubscriptionQueryOne(core, updateBufferSize)(queries.items[i]).failure.None?
    ensures SubscriptionQueryAll(core, queries, updateBufferSize)
         == Multi(Flatten(MapSeq(queries.items, SubscriptionQueryOne(core, updateBufferSize))), None)
  {
    ConcatMapInOrder(queries, SubscriptionQueryOne(core, updateBufferSize));
  }

  /**
   * subscriptionQuery(Publisher) calls itself with the same argument. The
   * model unfolds the call fuel times and yields None when the fuel runs out.
   */
  function SubscriptionQueryUnbounded(fuel: nat, queries: Multi<QueryMessage>): Option<Multi<SubscriptionQueryResult>> {
    if fuel == 0 then None else SubscriptionQueryUnbounded(fuel - 1, queries)
  }

  /** No number of unfoldings produces a stream; this records the self-call and follows from the unfolding's definition. */
  lemma {:induction false} SubscriptionQueryUnboundedNeverReturns(fuel: nat, queries: Multi<QueryMessage>)
    ensures SubscriptionQueryUnbounded(fuel, queries).None?
  {
    if fuel > 0 {
      SubscriptionQueryUnboundedNeverReturns(fuel - 1, queries);
    }
  }

  // ---------------------------------------------------------------------------
  // Subscription queries flattened into a single stream

  /** A flattened stream and how many times close() was called on the subscription result. */
  datatype Flattened<+T> = Flattened(stream: Multi<T>, closes: nat)

  /**
   * toMulti().flatMap(result -> result.initialResult().onItem()
   *   .transformToMulti(res -> result.updates()).onTermination().invoke(close)):
   * once the initial result arrives, the updates; the initial item itself is
   * not emitted; close runs once the inner stream terminates.
   */
  function FlattenSingle(u: Uni<SubscriptionQueryResult>): (f: Flattened<Object>)
    ensures f.closes <= 1
    ensures u.Failed? ==> f == Flattened(Failure(u.error), 0)
  {
    match u
    case Failed(e) => Flattened(Failure(e), 0)
    case Resolved(Null) => Flattened(Multi([], None), 0)
    case Resolved(NonNull(result)) =>
      match result.initialResult
      case Null => Flattened(Failure(NullPointerException), 0)
      case NonNull(Failed(e)) => Flattened(Failure(e), 1)
      case NonNull(Resolved(_)) =>
        match result.updates
        case Null => Flattened(Failure(NullPointerException), 1)
        case NonNull(updates) => Flattened(updates, 1)
  }

  /**
   * onItem().transformToMulti(result -> result.initialResult().onItem()
   *   .transformToMulti(iterable).onItem().transformToMultiAndConcatenate(s -> result.updates())
   *   .onTermination().invoke(close)):
   * each element of the initial collection replaced by the updates stream, the
   * copies concatenated, then close.
   */
  function FlattenMany(u: Uni<SubscriptionQueryResult>): (f: Flattened<Object>)
    ensures f.closes <= 1
    ensures u.Failed? ==> f == Flattened(Failure(u.error), 0)
  {
    match u
    case Failed(e) => Flattened(Failure(e), 0)
    case Resolved(Null) => Flattened(Failure(NullPointerException), 0)
    case Resolved(NonNull(result)) =>
      match result.initialResult
      case Null => Flattened(Failure(NullPointerException), 0)
      case NonNull(Failed(e)) => Flattened(Failure(e), 1)
      case NonNull(Resolved(Null)) => Flattened(Failure(IllegalArgumentException("`iterable` must not be `null`")), 1)
      case NonNull(Resolved(NonNull(Collection(elements)))) =>
        if |elements| == 0 then Flattened(Multi([], None), 1)
        else (
          match result.updates
          case Null => Flattened(Failure(NullPointerException), 1)
          case NonNull(updates) => Flattened(Concat(Repeat(updates, |elements|)), 1))
      case NonNull(Resolved(NonNull(_))) => Flattened(Failure(ClassCastException), 1)
  }

  /**
   * onItem().transformToMulti(result -> result.updates().onTermination().invoke(close)):
   * only the updates, then close.
   */
  function FlattenUpdates(u: Uni<SubscriptionQueryResult>): (f: Flattened<Object>)
    ensures f.closes <= 1
    ensures u.Failed? ==> f == Flattened(Failure(u.error), 0)
  {
    match u
    case Failed(e) => Flattened(Failure(e), 0)
    case Resolved(Null) => Flattened(Failure(NullPointerException), 0)
    case Resolved(NonNull(result)) =>
      match result.updates
      case Null => Flattened(Failure(NullPointerException), 0)
      case NonNull(updates) => Flattened(updates, 1)
  }

  /** subscriptionQuery(query, ResponseType): the same type for the initial result and the updates, then flattened. */
  function SubscriptionQueryUpdates(n: Naming, core: Core, query: Nullable<Object>, resultType: ResponseType)
    : (f: Flattened<Object>)
    ensures f == FlattenSingle(core.subscriptionQuery(n.queryNameOf(query), query, resultType, resultType, n.bufferXs))
  {
    FlattenSingle(SubscriptionQueryFor(n, core, query, resultType, resultType))
  }

  /** subscriptionQuery(query, Class): the class wrapped in instanceOf, then as above. */
  function SubscriptionQueryUpdatesForClass(n: Naming, core: Core, query: Nullable<Object>, resultType: JClass)
    : (f: Flattened<Object>)
    ensures f == FlattenSingle(core.subscriptionQuery(n.queryNameOf(query), query, n.instanceOf(resultType),
                                                      n.instanceOf(resultType), n.bufferXs))
  {
    SubscriptionQueryUpdates(n, core, query, n.instanceOf(resultType))
  }

  /** subscriptionQueryMany: multipleInstancesOf for the initial result, instanceOf for the updates. */
  function SubscriptionQueryMany(n: Naming, core: Core, query: Nullable<Object>, resultType: JClass)
    : (f: Flattened<Object>)
    ensures f == FlattenMany(core.subscriptionQuery(n.queryNameOf(query), query, n.multipleInstancesOf(resultType),
                                                    n.instanceOf(resultType), n.bufferXs))
  {
    FlattenMany(SubscriptionQueryFor(n, core, query, n.multipleInstancesOf(resultType), n.instanceOf(resultType)))
  }

  /** queryUpdates(query, ResponseType): instanceOf(Void) as the initial type; only the updates. */
  function QueryUpdates(n: Naming, core: Core, query: Nullable<Object>, resultType: ResponseType)
    : (f: Flattened<Object>)
    ensures f == FlattenUpdates(core.subscriptionQuery(n.queryNameOf(query), query, n.instanceOf(VoidClass),
                                                       resultType, n.bufferXs))
  {
    FlattenUpdates(SubscriptionQueryFor(n, core, query, n.instanceOf(VoidClass), resultType))
  }

  /** queryUpdates(query, Class): the class wrapped in instanceOf, then as above. */
  function QueryUpdatesForClass(n: Naming, core: Core, query: Nullable<Object>, resultType: JClass)
    : (f: Flattened<Object>)
    ensures f == FlattenUpdates(core.subscriptionQuery(n.queryNameOf(query), query, n.instanceOf(VoidClass),
                                                       n.instanceOf(resultType), n.bufferXs))
  {
    QueryUpdates(n, core, query, n.instanceOf(resultType))
  }

  /** A result with an initial result and updates: the single flatten emits exactly the updates, whatever the initial item, and closes once. */
  lemma FlattenSingleEmitsUpdates(i: Nullable<Object>, updates: Multi<Object>, g: Nullable<Registration>)
    ensures FlattenSingle(Resolved(NonNull(DefaultSubscriptionQueryResult(NonNull(Resolved(i)), NonNull(updates), g))))
         == Flattened(updates, 1)
  {
  }

  /** The many flatten emits the updates once per element of a non-empty initial collection, then closes. */
  lemma {:induction false} FlattenManyRepeatsUpdates(elements: seq<Object>, updates: Multi<Object>, g: Nullable<Registration>)
    requires |elements| > 0 && updates.failure.None?
    ensures FlattenMany(Resolved(NonNull(DefaultSubscriptionQueryResult(
              NonNull(Resolved(NonNull(Collection(elements)))), NonNull(updates), g))))
         == Flattened(Multi(Flatten(Repeat(updates, |elements|)), None), 1)
  {
    ConcatComplete(Repeat(updates, |elements|));
  }

  /** close runs exactly when the inner stream was built: a subscription result with a non-null initial result. */
  lemma FlattenSingleClosesIffBuilt(u: Uni<SubscriptionQueryResult>)
    ensures FlattenSingle(u).closes == 1 <==> (u.Resolved? && u.item.NonNull? && u.item.value.initialResult.NonNull?)
  {
  }

  /** queryUpdates closes exactly when there was an updates stream to subscribe to. */
  lemma FlattenUpdatesClosesIffBuilt(u: Uni<SubscriptionQueryResult>)
    ensures FlattenUpdates(u).closes == 1 <==> (u.Resolved? && u.item.NonNull? && u.item.value.updates.NonNull?)
    ensures FlattenUpdates(u).closes == 1 ==> FlattenUpdates(u).stream == u.item.value.updates.value
  {
  }
}
