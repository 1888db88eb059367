/**
 * DefaultQueryGateway: a query is wrapped in a query message, passed through
 * the dispatch interceptors, sent on the query bus, and its result passed
 * through the result interceptors before the payloads are handed back.
 */
module Gateway {
  import opened Lang
  import opened Streams
  import Assert
  import opened ResponseTypes
  import opened QueryMessages
  import opened SubscriptionQueryResults
  import opened QueryGatewayDefaults

  /** What the bus hands back for a subscription query (only its presence matters here). */
  type BusSubscription = DefaultSubscriptionQueryResult<ResultMessage, ResultMessage>

  /**
   * The query bus, known by what each call yields: query by the outcome of
   * the future it returns, scatterGather by the results it streams (given the
   * timeout in milliseconds), subscriptionQuery by what it returns or throws.
   */
  datatype QueryBus = QueryBus(
    query: Nullable<QueryMessage> -> Uni<ResultMessage>,
    scatterGather: (Nullable<QueryMessage>, int) -> Multi<ResultMessage>,
    subscriptionQuery: (Nullable<QueryMessage>, int) -> Uni<BusSubscription>)

  /**
   * What the gateway takes from outside this model: GenericMessage.asMessage,
   * and whether Mutiny's scan emits its seed before the accumulated states.
   */
  datatype Library = Library(asMessage: Nullable<Object> -> Message, scanEmitsSeed: bool)

  /** What each registered interceptor does: a dispatch interceptor's intercept, a result interceptor's intercept. */
  datatype Behaviour<!D, !R> = Behaviour(
    dispatch: (D, Uni<QueryMessage>) -> Uni<QueryMessage>,
    result: (R, Nullable<QueryMessage>, Multi<ResultMessage>) -> Multi<ResultMessage>)

  /** Tuple2 of Uni.combine().all().unis(..).asTuple() */
  datatype Pair<+A, +B> = Pair(item1: Nullable<A>, item2: Nullable<B>)

  /** Uni.combine().all().unis(Uni.createFrom().item(a), u).asTuple(): the pair, or the failure of u. */
  function Combine<A, B>(a: Nullable<A>, u: Uni<B>): (r: Uni<Pair<A, B>>)
    ensures u.Failed? ==> r == Failed(u.error)
    ensures u.Resolved? ==> r == Resolved(NonNull(Pair(a, u.item)))
  {
    match u
    case Failed(e) => Failed(e)
    case Resolved(b) => Resolved(NonNull(Pair(a, b)))
  }

  // ---------------------------------------------------------------------------
  // The interceptor chains

  /**
   * processDispatchInterceptors: scan over the interceptors starting from the
   * message, each stage intercepting the previous one, then concatenate the
   * stages and take the first item (toUni).
   */
  function InterceptDispatch<D, R>(beh: Behaviour<D, R>, ds: seq<D>, emitsSeed: bool, message: Uni<QueryMessage>)
    : Uni<QueryMessage>
  {
    ToUni(ConcatUnis(Scan(message, ds, (u: Uni<QueryMessage>, d: D) => beh.dispatch(d, u), emitsSeed)))
  }

  /** The stages the dispatch scan passes through. */
  function DispatchStages<D, R>(beh: Behaviour<D, R>, ds: seq<D>, emitsSeed: bool, message: Uni<QueryMessage>)
    : seq<Uni<QueryMessage>>
  {
    Scan(message, ds, (u: Uni<QueryMessage>, d: D) => beh.dispatch(d, u), emitsSeed)
  }

  /** The message dispatched is the first stage of the scan that is not a null item. */
  lemma DispatchIsFirstStage<D, R>(beh: Behaviour<D, R>, ds: seq<D>, emitsSeed: bool, message: Uni<QueryMessage>)
    ensures InterceptDispatch(beh, ds, emitsSeed, message) == FirstSignal(DispatchStages(beh, ds, emitsSeed, message))
  {
    ToUniOfConcatUnis(DispatchStages(beh, ds, emitsSeed, message));
  }

  /**
   * When the scan emits its seed, a message that is there is dispatched as it
   * is: no dispatch interceptor changes it.
   */
  lemma SeededDispatchIgnoresInterceptors<D, R>(beh: Behaviour<D, R>, ds: seq<D>, message: Uni<QueryMessage>)
    requires message != Resolved(Null)
    ensures InterceptDispatch(beh, ds, true, message) == message
  {
    DispatchIsFirstStage(beh, ds, true, message);
  }

  /**
   * When it does not, only the first interceptor's output counts: it is
   * dispatched whenever it is not a null item, whatever the later interceptors do.
   */
  lemma UnseededDispatchUsesFirstInterceptor<D, R>(beh: Behaviour<D, R>, ds: seq<D>, message: Uni<QueryMessage>)
    requires |ds| > 0 && beh.dispatch(ds[0], message) != Resolved(Null)
    ensures InterceptDispatch(beh, ds, false, message) == beh.dispatch(ds[0], message)
  {
    DispatchIsFirstStage(beh, ds, false, message);
  }

  /** Without interceptors and without the seed, nothing is dispatched but a null item. */
  lemma UnseededDispatchWithoutInterceptors<D, R>(beh: Behaviour<D, R>, message: Uni<QueryMessage>)
    ensures InterceptDispatch(beh, [], false, message) == Resolved(Null)
  {
    DispatchIsFirstStage(beh, [], false, message);
  }

  /**
   * The chained interception is the left fold, reached at the scan's last
   * stage; what is dispatched is the first non-null stage.
   */
  lemma FoldIsLastStage<D, R>(beh: Behaviour<D, R>, ds: seq<D>, emitsSeed: bool, message: Uni<QueryMessage>)
    requires |ds| > 0
    ensures DispatchStages(beh, ds, emitsSeed, message)[|DispatchStages(beh, ds, emitsSeed, message)| - 1]
         == FoldLeft(message, ds, (u: Uni<QueryMessage>, d: D) => beh.dispatch(d, u))
  {
    var acc := (u: Uni<QueryMessage>, d: D) => beh.dispatch(d, u);
    AccumulateEndsInFold(message, ds, acc);
    var pre: seq<Uni<QueryMessage>> := if emitsSeed then [message] else [];
    var stages := DispatchStages(beh, ds, emitsSeed, message);
    assert stages == pre + Accumulate(message, ds, acc);
    assert stages[|stages| - 1] == Accumulate(message, ds, acc)[|ds| - 1];
  }

  /** mapExceptionalResult: a failure carrying the exception of an exceptional result, else the result alone. */
  function MapExceptionalResult(r: ResultMessage): (m: Multi<ResultMessage>)
    ensures IsExceptional(r) ==> m == Failure(r.exceptionResult.value)
    ensures !IsExceptional(r) ==> m == Multi([r], None)
  {
    if IsExceptional(r) then Failure(r.exceptionResult.value) else Multi([r], None)
  }

  /** Multi.createFrom().item(result).flatMap(mapExceptionalResult) */
  function ResultSeed(result: Nullable<ResultMessage>): (m: Multi<ResultMessage>)
    ensures result.Null? ==> m == Multi([], None)
    ensures result.NonNull? ==> m == MapExceptionalResult(result.value)
  {
    if result.NonNull? then
      assert MapSeq([result.value], MapExceptionalResult) == [MapExceptionalResult(result.value)];
      ConcatSingle(MapExceptionalResult(result.value));
      ConcatMap(MultiOfItem(result), MapExceptionalResult)
    else
      ConcatMap(MultiOfItem(result), MapExceptionalResult)
  }

  /**
   * processResultsInterceptors: scan over the result interceptors starting
   * from the result's stream, each stage intercepting the previous one, then
   * concatenate every stage.
   */
  function InterceptResults<D, R>(beh: Behaviour<D, R>, rs: seq<R>, emitsSeed: bool,
                                  query: Nullable<QueryMessage>, result: Nullable<ResultMessage>)
    : Multi<ResultMessage>
  {
    Concat(Scan(ResultSeed(result), rs, (m: Multi<ResultMessage>, r: R) => beh.result(r, query, m), emitsSeed))
  }

  /** Without result interceptors the result's stream comes through when the seed is emitted, and vanishes when it is not. */
  lemma ResultsWithoutInterceptors<D, R>(beh: Behaviour<D, R>, emitsSeed: bool,
                                         query: Nullable<QueryMessage>, result: Nullable<ResultMessage>)
    ensures emitsSeed ==> InterceptResults(beh, [], emitsSeed, query, result) == ResultSeed(result)
    ensures !emitsSeed ==> InterceptResults(beh, [], emitsSeed, query, result) == Multi([], None)
  {
    var s := Scan(ResultSeed(result), [], (m: Multi<ResultMessage>, r: R) => beh.result(r, query, m), emitsSeed);
    if emitsSeed {
      assert s == [ResultSeed(result)];
      assert Concat(s[1..]) == Multi([], None);
      assert ResultSeed(result).items + [] == ResultSeed(result).items;
    }
  }

  /**
   * Interceptors that pass the stream through unchanged do not leave it as it
   * is: the result stream is emitted once per stage, so once per interceptor,
   * plus once more when the seed is emitted.
   */
  lemma PassThroughInterceptorsRepeatResult<D, R>(beh: Behaviour<D, R>, rs: seq<R>, emitsSeed: bool,
                                                  query: Nullable<QueryMessage>, result: Nullable<ResultMessage>)
    requires ResultSeed(result).failure.None?
    requires forall i :: 0 <= i < |rs| ==> beh.result(rs[i], query, ResultSeed(result)) == ResultSeed(result)
    ensures InterceptResults(beh, rs, emitsSeed, query, result)
         == Multi(Flatten(Repeat(ResultSeed(result), |rs| + (if emitsSeed then 1 else 0))), None)
  {
    var seed := ResultSeed(result);
    var acc := (m: Multi<ResultMessage>, r: R) => beh.result(r, query, m);
    ScanUnchanged(seed, rs, acc, emitsSeed);
    var stages := Scan(seed, rs, acc, emitsSeed);
    assert stages == Repeat(seed, |rs| + (if emitsSeed then 1 else 0));
    ConcatComplete(stages);
  }

  /** The payloads of the results, in order, the null ones dropped. */
  function Payloads(rs: seq<ResultMessage>): (ps: seq<Object>)
    ensures |ps| <= |rs|
  {
    if rs == [] then []
    else (if rs[0].payload.NonNull? then [rs[0].payload.value] else []) + Payloads(rs[1..])
  }

  /** getPayload: the results filtered to those with a payload, mapped to the payload. */
  function GetPayload(m: Multi<ResultMessage>): (r: Multi<Object>)
    ensures r.failure == m.failure
  {
    Multi(Payloads(m.items), m.failure)
  }

  lemma {:induction false} PayloadsAppend(xs: seq<ResultMessage>, ys: seq<ResultMessage>)
    ensures Payloads(xs + ys) == Payloads(xs) + Payloads(ys)
  {
    if xs != [] {
      assert (xs + ys)[1..] == xs[1..] + ys;
      PayloadsAppend(xs[1..], ys);
    } else {
      assert xs + ys == ys;
    }
  }

  /** A payload is emitted iff some result carries it. */
  lemma {:induction false} PayloadsMembership(rs: seq<ResultMessage>, p: Object)
    ensures p in Payloads(rs) <==> exists i :: 0 <= i < |rs| && rs[i].payload == NonNull(p)
  {
    if rs != [] {
      PayloadsMembership(rs[1..], p);
      if p in Payloads(rs[1..]) {
        var i :| 0 <= i < |rs[1..]| && rs[1..][i].payload == NonNull(p);
        assert rs[i + 1].payload == NonNull(p);
      }
      if exists i :: 0 <= i < |rs| && rs[i].payload == NonNull(p) {
        var i :| 0 <= i < |rs| && rs[i].payload == NonNull(p);
        if i > 0 {
          assert rs[1..][i - 1].payload == NonNull(p);
        }
      }
    }
  }

  /** When no payload is null, every result's payload is emitted, in order. */
  lemma {:induction false} PayloadsAllPresent(rs: seq<ResultMessage>)
    requires forall i :: 0 <= i < |rs| ==> rs[i].payload.NonNull?
    ensures |Payloads(rs)| == |rs|
    ensures forall i :: 0 <= i < |rs| ==> Payloads(rs)[i] == rs[i].payload.value
  {
    if rs != [] {
      PayloadsAllPresent(rs[1..]);
      assert Payloads(rs) == [rs[0].payload.value] + Payloads(rs[1..]);
    }
  }

  /** The result pipeline over a combined (query, result) pair. */
  function ProcessResults<D, R>(beh: Behaviour<D, R>, rs: seq<R>, emitsSeed: bool,
                                t: Nullable<Pair<QueryMessage, ResultMessage>>)
    : Multi<ResultMessage>
  {
    match t
    case Null => Failure(NullPointerException)
    case NonNull(p) => InterceptResults(beh, rs, emitsSeed, p.item1, p.item2)
  }

  // ---------------------------------------------------------------------------
  // The three operations

  /** new GenericQueryMessage(asMessage(query), queryName, responseType) */
  function QueryMessageFor(lib: Library, queryName: string, query: Nullable<Object>, responseType: ResponseType)
    : (m: QueryMessage)
    ensures m.GenericQueryMessage? && m.delegate == lib.asMessage(query)
    ensures m.queryName == queryName && m.responseType == responseType
  {
    GenericQueryMessage(lib.asMessage(query), queryName, responseType)
  }

  /** query: dispatch interceptors, the bus, result interceptors, the payloads, the first of them. */
  function Query<D, R>(lib: Library, beh: Behaviour<D, R>, ds: seq<D>, rs: seq<R>, bus: QueryBus,
                       queryName: string, query: Nullable<Object>, responseType: ResponseType)
    : Uni<Object>
  {
    var message := Resolved(NonNull(QueryMessageFor(lib, queryName, query, responseType)));
    var intercepted := InterceptDispatch(beh, ds, lib.scanEmitsSeed, message);
    var dispatched := UniFlatMap(intercepted, (q: Nullable<QueryMessage>) => Combine(q, bus.query(q)));
    var results := TransformToMulti(dispatched,
      (t: Nullable<Pair<QueryMessage, ResultMessage>>) => ProcessResults(beh, rs, lib.scanEmitsSeed, t));
    ToUni(GetPayload(results))
  }

  /**
   * With the seed emitted and no interceptors, a query yields: the bus's
   * failure; the exception of an exceptional result; null for a missing
   * result or payload; otherwise the payload.
   */
  lemma QueryWithoutInterceptors<D, R>(lib: Library, beh: Behaviour<D, R>, bus: QueryBus,
                                       queryName: string, query: Nullable<Object>, responseType: ResponseType)
    requires lib.scanEmitsSeed
    ensures var sent := NonNull(QueryMessageFor(lib, queryName, query, responseType));
      var answer := bus.query(sent);
      Query(lib, beh, [], [], bus, queryName, query, responseType) ==
        if answer.Failed? then Failed(answer.error)
        else if answer.item.Null? then Resolved(Null)
        else if IsExceptional(answer.item.value) then Failed(answer.item.value.exceptionResult.value)
        else Resolved(answer.item.value.payload)
  {
    var message := Resolved(NonNull(QueryMessageFor(lib, queryName, query, responseType)));
    SeededDispatchIgnoresInterceptors(beh, [], message);
    var answer := bus.query(NonNull(QueryMessageFor(lib, queryName, query, responseType)));
    if answer.Resolved? {
      ResultsWithoutInterceptors(beh, true, NonNull(QueryMessageFor(lib, queryName, query, responseType)), answer.item);
    }
  }

  /**
   * The scatter-gather dispatch of one intercepted message: timeout.toMillis()
   * is evaluated inside the flatMap, so a null timeout fails there.
   */
  function DispatchScatterGather(bus: QueryBus, timeout: Nullable<Duration>): Nullable<QueryMessage> -> Uni<Pair<QueryMessage, ResultMessage>> {
    (q: Nullable<QueryMessage>) =>
      match timeout
      case Null => Failed(NullPointerException)
      case NonNull(t) => Combine(q, ToUni(bus.scatterGather(q, ToMillis(t))))
  }

  /** scatterGather: as query, but only the first result of the bus's stream enters the result pipeline. */
  function ScatterGather<D, R>(lib: Library, beh: Behaviour<D, R>, ds: seq<D>, rs: seq<R>, bus: QueryBus,
                               queryName: string, query: Nullable<Object>, responseType: ResponseType,
                               timeout: Nullable<Duration>)
    : Multi<Object>
  {
    var message := Resolved(NonNull(QueryMessageFor(lib, queryName, query, responseType)));
    var intercepted := InterceptDispatch(beh, ds, lib.scanEmitsSeed, message);
    var dispatched := UniFlatMap(intercepted, DispatchScatterGather(bus, timeout));
    var results := TransformToMulti(dispatched,
      (t: Nullable<Pair<QueryMessage, ResultMessage>>) => ProcessResults(beh, rs, lib.scanEmitsSeed, t));
    GetPayload(results)
  }

  /** Two buses whose scatter-gather streams start alike give the same outcome: results after the first are never seen. */
  lemma ScatterGatherSeesFirstResultOnly<D, R>(lib: Library, beh: Behaviour<D, R>, ds: seq<D>, rs: seq<R>,
                                               bus1: QueryBus, bus2: QueryBus, queryName: string,
                                               query: Nullable<Object>, responseType: ResponseType,
                                               timeout: Nullable<Duration>)
    requires timeout.NonNull? ==>
      forall q :: ToUni(bus1.scatterGather(q, ToMillis(timeout.value))) == ToUni(bus2.scatterGather(q, ToMillis(timeout.value)))
    ensures ScatterGather(lib, beh, ds, rs, bus1, queryName, query, responseType, timeout)
         == ScatterGather(lib, beh, ds, rs, bus2, queryName, query, responseType, timeout)
  {
    var message := Resolved(NonNull(QueryMessageFor(lib, queryName, query, responseType)));
    var intercepted := InterceptDispatch(beh, ds, lib.scanEmitsSeed, message);
    var f1 := DispatchScatterGather(bus1, timeout);
    var f2 := DispatchScatterGather(bus2, timeout);
    assert UniFlatMap(intercepted, f1) == UniFlatMap(intercepted, f2) by {
      if intercepted.Resolved? {
        assert f1(intercepted.item) == f2(intercepted.item);
      }
    }
  }

  /**
   * A null timeout: the scatter-gather fails with no payloads, with the
   * dispatch interceptors' failure if they failed and a NullPointerException
   * otherwise; the bus is never asked.
   */
  lemma ScatterGatherNullTimeoutFails<D, R>(lib: Library, beh: Behaviour<D, R>, ds: seq<D>, rs: seq<R>, bus: QueryBus,
                                            queryName: string, query: Nullable<Object>, responseType: ResponseType)
    ensures var message := Resolved(NonNull(QueryMessageFor(lib, queryName, query, responseType)));
      var intercepted := InterceptDispatch(beh, ds, lib.scanEmitsSeed, message);
      ScatterGather(lib, beh, ds, rs, bus, queryName, query, responseType, Null)
        == Failure(if intercepted.Failed? then intercepted.error else NullPointerException)
  {
  }

  /** With the seed emitted and no interceptors, scatter-gather emits at most one payload, the first result's. */
  lemma ScatterGatherAtMostOne<D, R>(lib: Library, beh: Behaviour<D, R>, bus: QueryBus, queryName: string,
                                     query: Nullable<Object>, responseType: ResponseType, timeout: Nullable<Duration>)
    requires lib.scanEmitsSeed
    ensures |ScatterGather(lib, beh, [], [], bus, queryName, query, responseType, timeout).items| <= 1
  {
    var message := Resolved(NonNull(QueryMessageFor(lib, queryName, query, responseType)));
    SeededDispatchIgnoresInterceptors(beh, [], message);
    var sent := NonNull(QueryMessageFor(lib, queryName, query, responseType));
    if timeout.NonNull? {
      var answer := ToUni(bus.scatterGather(sent, ToMillis(timeout.value)));
      if answer.Resolved? {
        ResultsWithoutInterceptors(beh, true, sent, answer.item);
      }
    }
  }

  /** new GenericSubscriptionQueryMessage(asMessage(query), initialResponseType, updateResponseType) */
  function SubscriptionMessageFor(lib: Library, query: Nullable<Object>,
                                  initialResponseType: ResponseType, updateResponseType: ResponseType)
    : (m: QueryMessage)
    ensures m.GenericSubscriptionQueryMessage?
    ensures PayloadOf(m) == MessageObject(lib.asMessage(query))
    ensures m.queryName == lib.asMessage(query).cls.name
    ensures m.responseType == initialResponseType && GetUpdateResponseType(m) == updateResponseType
  {
    Subscription(NonNull(MessageObject(lib.asMessage(query))), initialResponseType, updateResponseType).value
  }

  /** The cast to SubscriptionQueryMessage: null passes, a plain query message fails. */
  function CastToSubscription(q: Nullable<QueryMessage>): (r: Uni<QueryMessage>)
    ensures q.Null? ==> r == Resolved(Null)
    ensures q.NonNull? && q.value.GenericSubscriptionQueryMessage? ==> r == Resolved(q)
    ensures q.NonNull? && q.value.GenericQueryMessage? ==> r == Failed(ClassCastException)
  {
    match q
    case Null => Resolved(Null)
    case NonNull(m) => if m.GenericSubscriptionQueryMessage? then Resolved(q) else Failed(ClassCastException)
  }

  /** processSubscriptionQueryResult: whatever the bus returned, a result of three nulls. */
  function ProcessSubscriptionQueryResult(u: Uni<Pair<QueryMessage, BusSubscription>>)
    : (r: Uni<SubscriptionQueryResult>)
    ensures u.Failed? ==> r == Failed(u.error)
    ensures u.Resolved? ==> r == Resolved(NonNull(DefaultSubscriptionQueryResult(Null, Null, Null)))
  {
    UniFlatMap(u, (t: Nullable<Pair<QueryMessage, BusSubscription>>) =>
      Resolved(NonNull(DefaultSubscriptionQueryResult(Null, Null, Null))))
  }

  /** subscriptionQuery: dispatch interceptors, the cast, the bus, then the result of nulls. queryName is not used. */
  function SubscriptionQuery<D, R>(lib: Library, beh: Behaviour<D, R>, ds: seq<D>, bus: QueryBus,
                                   queryName: string, query: Nullable<Object>,
                                   initialResponseType: ResponseType, updateResponseType: ResponseType,
                                   updateBufferSize: int)
    : Uni<SubscriptionQueryResult>
  {
    var message := Resolved(NonNull(SubscriptionMessageFor(lib, query, initialResponseType, updateResponseType)));
    var intercepted := InterceptDispatch(beh, ds, lib.scanEmitsSeed, message);
    var cast := UniFlatMap(intercepted, CastToSubscription);
    var dispatched := UniFlatMap(cast,
      (q: Nullable<QueryMessage>) => Combine(q, bus.subscriptionQuery(q, updateBufferSize)));
    ProcessSubscriptionQueryResult(dispatched)
  }

  /** Whatever happens, a subscription query either fails or yields the result of three nulls. */
  lemma SubscriptionQueryYieldsNullResult<D, R>(lib: Library, beh: Behaviour<D, R>, ds: seq<D>, bus: QueryBus,
                                                queryName: string, query: Nullable<Object>,
                                                initialResponseType: ResponseType, updateResponseType: ResponseType,
                                                updateBufferSize: int)
    ensures var r := SubscriptionQuery(lib, beh, ds, bus, queryName, query, initialResponseType, updateResponseType, updateBufferSize);
      r.Failed? || r == Resolved(NonNull(DefaultSubscriptionQueryResult(Null, Null, Null)))
  {
  }

  /** The query name passed in makes no difference. */
  lemma SubscriptionQueryIgnoresQueryName<D, R>(lib: Library, beh: Behaviour<D, R>, ds: seq<D>, bus: QueryBus,
                                                name1: string, name2: string, query: Nullable<Object>,
                                                initialResponseType: ResponseType, updateResponseType: ResponseType,
                                                updateBufferSize: int)
    ensures SubscriptionQuery(lib, beh, ds, bus, name1, query, initialResponseType, updateResponseType, updateBufferSize)
         == SubscriptionQuery(lib, beh, ds, bus, name2, query, initialResponseType, updateResponseType, updateBufferSize)
  {
  }

  /**
   * With the seed emitted and no interceptors, the bus receives the
   * subscription message named after the message class, and the outcome is
   * the bus's failure or the result of three nulls.
   */
  lemma SubscriptionQueryWithoutInterceptors<D, R>(lib: Library, beh: Behaviour<D, R>, bus: QueryBus,
                                                   queryName: string, query: Nullable<Object>,
                                                   initialResponseType: ResponseType, updateResponseType: ResponseType,
                                                   updateBufferSize: int)
    requires lib.scanEmitsSeed
    ensures var sent := NonNull(SubscriptionMessageFor(lib, query, initialResponseType, updateResponseType));
      var answer := bus.subscriptionQuery(sent, updateBufferSize);
      SubscriptionQuery(lib, beh, [], bus, queryName, query, initialResponseType, updateResponseType, updateBufferSize) ==
        if answer.Failed? then Failed(answer.error)
        else Resolved(NonNull(DefaultSubscriptionQueryResult(Null, Null, Null)))
  {
    var message := Resolved(NonNull(SubscriptionMessageFor(lib, query, initialResponseType, updateResponseType)));
    SeededDispatchIgnoresInterceptors(beh, [], message);
  }

  /** A dispatch interceptor that turns the message into a plain query message makes the subscription fail with a ClassCastException. */
  lemma PlainMessageFailsCast<D, R>(lib: Library, beh: Behaviour<D, R>, ds: seq<D>, bus: QueryBus,
                                    queryName: string, query: Nullable<Object>,
                                    initialResponseType: ResponseType, updateResponseType: ResponseType,
                                    updateBufferSize: int, plain: QueryMessage)
    requires plain.GenericQueryMessage?
    requires InterceptDispatch(beh, ds, lib.scanEmitsSeed,
               Resolved(NonNull(SubscriptionMessageFor(lib, query, initialResponseType, updateResponseType))))
             == Resolved(NonNull(plain))
    ensures SubscriptionQuery(lib, beh, ds, bus, queryName, query, initialResponseType, updateResponseType, updateBufferSize)
         == Failed(ClassCastException)
  {
  }

  /** The gateway's three operations, as the core the QueryGateway defaults delegate to. */
  function CoreOf<D, R>(lib: Library, beh: Behaviour<D, R>, ds: seq<D>, rs: seq<R>, bus: QueryBus): Core {
    Core(
      (queryName: string, query: Nullable<Object>, responseType: ResponseType) =>
        Query(lib, beh, ds, rs, bus, queryName, query, responseType),
      (queryName: string, query: Nullable<Object>, responseType: ResponseType, timeout: Nullable<Duration>) =>
        ScatterGather(lib, beh, ds, rs, bus, queryName, query, responseType, timeout),
      (queryName: string, query: Nullable<Object>, i: ResponseType, u: ResponseType, size: int) =>
        SubscriptionQuery(lib, beh, ds, bus, queryName, query, i, u, size))
  }

  /**
   * Through this gateway, every flattened subscription variant ends in a
   * failure with no items and never closes: the result of nulls has no
   * initial result and no updates to subscribe to.
   */
  lemma FlattenedSubscriptionsFail<D, R>(lib: Library, beh: Behaviour<D, R>, ds: seq<D>, rs: seq<R>, bus: QueryBus,
                                         n: Naming, query: Nullable<Object>, resultType: ResponseType, resultClass: JClass)
    ensures var core := CoreOf(lib, beh, ds, rs, bus);
      var single := SubscriptionQueryUpdates(n, core, query, resultType);
      var many := SubscriptionQueryMany(n, core, query, resultClass);
      var updates := QueryUpdates(n, core, query, resultType);
      single.stream.items == [] && single.stream.failure.Some? && single.closes == 0 &&
      many.stream.items == [] && many.stream.failure.Some? && many.closes == 0 &&
      updates.stream.items == [] && updates.stream.failure.Some? && updates.closes == 0
  {
    var core := CoreOf(lib, beh, ds, rs, bus);
    SubscriptionQueryYieldsNullResult(lib, beh, ds, bus, n.queryNameOf(query), query, resultType, resultType, n.bufferXs);
    SubscriptionQueryYieldsNullResult(lib, beh, ds, bus, n.queryNameOf(query), query,
                                      n.multipleInstancesOf(resultClass), n.instanceOf(resultClass), n.bufferXs);
    SubscriptionQueryYieldsNullResult(lib, beh, ds, bus, n.queryNameOf(query), query,
                                      n.instanceOf(VoidClass), resultType, n.bufferXs);
  }

  // ---------------------------------------------------------------------------
  // Registration

  /** List.remove(Object): the first equal entry removed, if there is one. */
  function RemoveFirst<T(==)>(s: seq<T>, x: T): (r: seq<T>)
    ensures x !in s ==> r == s
    ensures x in s ==> |r| == |s| - 1
    ensures multiset(r) == multiset(s) - multiset{x}
  {
    if s == [] then []
    else
      assert s == [s[0]] + s[1..];
      if s[0] == x then s[1..] else [s[0]] + RemoveFirst(s[1..], x)
  }

  /** RemoveFirst removes the first occurrence and keeps everything else in order. */
  lemma {:induction false} RemoveFirstAt<T>(s: seq<T>, x: T, k: nat)
    requires k < |s| && s[k] == x && x !in s[..k]
    ensures RemoveFirst(s, x) == s[..k] + s[k + 1..]
  {
    if k > 0 {
      assert s[0] in s[..k];
      assert s[1..][..k - 1] == s[1..k];
      RemoveFirstAt(s[1..], x, k - 1);
      assert s[..k] == [s[0]] + s[1..k];
    }
  }

  /** Registering an interceptor not yet present and cancelling it restores the list. */
  lemma RegisterThenCancelRestores<T>(s: seq<T>, x: T)
    requires x !in s
    ensures RemoveFirst(s + [x], x) == s
  {
    assert (s + [x])[..|s|] == s;
    RemoveFirstAt(s + [x], x, |s|);
    assert (s + [x])[|s| + 1..] == [];
  }

  /** When an equal interceptor was registered earlier, cancelling removes that earlier one, not the newest. */
  lemma {:induction false} CancelRemovesEarlierEqual<T>(s: seq<T>, x: T)
    requires x in s
    ensures RemoveFirst(s + [x], x) == RemoveFirst(s, x) + [x]
  {
    if s[0] == x {
      assert (s + [x])[1..] == s[1..] + [x];
    } else {
      assert (s + [x])[1..] == s[1..] + [x];
      CancelRemovesEarlierEqual(s[1..], x);
    }
  }

  /** What a Registration returned by the gateway removes when cancelled. */
  datatype InterceptorRegistration<D, R> = DispatchRegistration(dispatchInterceptor: D) | ResultRegistration(resultInterceptor: R)

  // ---------------------------------------------------------------------------
  // The gateway and its builder

  class DefaultQueryGateway<D(==), R(==)> {
    var dispatchInterceptors: seq<D>
    var resultInterceptors: seq<R>
    const queryBus: QueryBus

    /** The constructor for a builder that has passed validate: the bus and copies of both lists. */
    constructor(builder: Builder<D, R>)
      requires builder.queryBus.NonNull?
      ensures queryBus == builder.queryBus.value
      ensures dispatchInterceptors == builder.dispatchInterceptors
      ensures resultInterceptors == builder.resultInterceptors
    {
      queryBus := builder.queryBus.value;
      dispatchInterceptors := builder.dispatchInterceptors;
      resultInterceptors := builder.resultInterceptors;
    }

    /** registerDispatchInterceptor: appended to the dispatch list; the result list is untouched. */
    method RegisterDispatchInterceptor(d: D) returns (registration: InterceptorRegistration<D, R>)
      modifies this
      ensures dispatchInterceptors == old(dispatchInterceptors) + [d]
      ensures resultInterceptors == old(resultInterceptors)
      ensures registration == DispatchRegistration(d)
    {
      dispatchInterceptors := dispatchInterceptors + [d];
      registration := DispatchRegistration(d);
    }

    /** registerResultHandlerInterceptor: appended to the result list; the dispatch list is untouched. */
    method RegisterResultHandlerInterceptor(r: R) returns (registration: InterceptorRegistration<D, R>)
      modifies this
      ensures resultInterceptors == old(resultInterceptors) + [r]
      ensures dispatchInterceptors == old(dispatchInterceptors)
      ensures registration == ResultRegistration(r)
    {
      resultInterceptors := resultInterceptors + [r];
      registration := ResultRegistration(r);
    }

    /** Registration.cancel: remove the first equal entry of that registration's list; true iff there was one. */
    method Cancel(registration: InterceptorRegistration<D, R>) returns (removed: bool)
      modifies this
      ensures registration.DispatchRegistration? ==>
        removed == (registration.dispatchInterceptor in old(dispatchInterceptors)) &&
        dispatchInterceptors == RemoveFirst(old(dispatchInterceptors), registration.dispatchInterceptor) &&
        resultInterceptors == old(resultInterceptors)
      ensures registration.ResultRegistration? ==>
        removed == (registration.resultInterceptor in old(resultInterceptors)) &&
        resultInterceptors == RemoveFirst(old(resultInterceptors), registration.resultInterceptor) &&
        dispatchInterceptors == old(dispatchInterceptors)
    {
      match registration
      case DispatchRegistration(d) =>
        removed := d in dispatchInterceptors;
        dispatchInterceptors := RemoveFirst(dispatchInterceptors, d);
      case ResultRegistration(r) =>
        removed := r in resultInterceptors;
        resultInterceptors := RemoveFirst(resultInterceptors, r);
    }

    /** The gateway's query, scatterGather and subscriptionQuery over its current lists. */
    function AsCore(lib: Library, beh: Behaviour<D, R>): Core
      reads this
    {
      CoreOf(lib, beh, dispatchInterceptors, resultInterceptors, queryBus)
    }
  }

  /** Registering a new dispatch interceptor and cancelling twice: the first cancel removes it, the second finds nothing. */
  method RegisterAndCancelTwice<D(==), R(==)>(gateway: DefaultQueryGateway<D, R>, d: D)
    returns (first: bool, second: bool)
    requires d !in gateway.dispatchInterceptors
    modifies gateway
    ensures first && !second
    ensures gateway.dispatchInterceptors == old(gateway.dispatchInterceptors)
    ensures gateway.resultInterceptors == old(gateway.resultInterceptors)
  {
    var before := gateway.dispatchInterceptors;
    var registration := gateway.RegisterDispatchInterceptor(d);
    RegisterThenCancelRestores(before, d);
    first := gateway.Cancel(registration);
    second := gateway.Cancel(registration);
  }

  datatype BuildResult<D, R> = Built(gateway: DefaultQueryGateway<D, R>) | BuildFailed(error: Throwable)

  const QueryBusNullMessage := "QueryBus may not be null"
  const QueryBusRequiredMessage := "The QueryBus is a hard requirement and should be provided"

  class Builder<D(==), R(==)> {
    var queryBus: Nullable<QueryBus>
    var dispatchInterceptors: seq<D>
    var resultInterceptors: seq<R>

    constructor()
      ensures queryBus.Null? && dispatchInterceptors == [] && resultInterceptors == []
    {
      queryBus := Null;
      dispatchInterceptors := [];
      resultInterceptors := [];
    }

    /** queryBus(bus): a null bus is rejected by the non-null check and nothing changes. */
    method SetQueryBus(bus: Nullable<QueryBus>) returns (outcome: Assert.Outcome)
      modifies this`queryBus
      ensures outcome == Assert.NotNull(bus, () => QueryBusNullMessage)
      ensures bus.Null? ==> outcome == Assert.Thrown(IllegalArgumentException(QueryBusNullMessage)) && queryBus == old(queryBus)
      ensures bus.NonNull? ==> outcome == Assert.Pass && queryBus == bus
    {
      outcome := Assert.NotNull(bus, () => QueryBusNullMessage);
      if outcome.Pass? {
        queryBus := bus;
      }
    }

    /** dispatchInterceptors(list): a copy is kept only for an empty list, so the list always ends up empty. */
    method SetDispatchInterceptors(list: Nullable<seq<D>>)
      modifies this`dispatchInterceptors
      ensures dispatchInterceptors == (if list.NonNull? && |list.value| == 0 then list.value else [])
      ensures dispatchInterceptors == []
    {
      if list.NonNull? && |list.value| == 0 {
        dispatchInterceptors := list.value;
      } else {
        dispatchInterceptors := [];
      }
    }

    /** dispatchInterceptors(array...): asList of the array; a null array is dereferenced. */
    method SetDispatchInterceptorsArray(arguments: Nullable<seq<D>>) returns (outcome: Assert.Outcome)
      modifies this`dispatchInterceptors
      ensures arguments.Null? ==> outcome == Assert.Thrown(NullPointerException) && dispatchInterceptors == old(dispatchInterceptors)
      ensures arguments.NonNull? ==> outcome == Assert.Pass && dispatchInterceptors == []
    {
      if arguments.Null? {
        outcome := Assert.Thrown(NullPointerException);
      } else {
        SetDispatchInterceptors(arguments);
        outcome := Assert.Pass;
      }
    }

    /** resultInterceptors(list): a copy of a non-empty list, else an empty list. */
    method SetResultInterceptors(list: Nullable<seq<R>>)
      modifies this`resultInterceptors
      ensures resultInterceptors == (if list.NonNull? && |list.value| > 0 then list.value else [])
      ensures list.NonNull? ==> resultInterceptors == list.value
      ensures list.Null? ==> resultInterceptors == []
    {
      if list.NonNull? && |list.value| > 0 {
        resultInterceptors := list.value;
      } else {
        resultInterceptors := [];
      }
    }

    /** resultInterceptors(array...): asList of the array; a null array is dereferenced. */
    method SetResultInterceptorsArray(arguments: Nullable<seq<R>>) returns (outcome: Assert.Outcome)
      modifies this`resultInterceptors
      ensures arguments.Null? ==> outcome == Assert.Thrown(NullPointerException) && resultInterceptors == old(resultInterceptors)
      ensures arguments.NonNull? ==> outcome == Assert.Pass && resultInterceptors == arguments.value
    {
      if arguments.Null? {
        outcome := Assert.Thrown(NullPointerException);
      } else {
        SetResultInterceptors(arguments);
        outcome := Assert.Pass;
      }
    }

    /** validate: the query bus must have been set. */
    function Validate(): (outcome: Assert.Outcome)
      reads this
      ensures outcome.Thrown? <==> queryBus.Null?
      ensures queryBus.Null? ==> outcome.error == IllegalArgumentException(QueryBusRequiredMessage)
    {
      Assert.NotNull(queryBus, () => QueryBusRequiredMessage)
    }

    /** build: a gateway over the bus and the lists, or the validation failure. */
    method Build() returns (r: BuildResult<D, R>)
      ensures r.Built? <==> queryBus.NonNull?
      ensures r.BuildFailed? ==> r.error == IllegalArgumentException(QueryBusRequiredMessage)
      ensures r.Built? ==> fresh(r.gateway) && r.gateway.queryBus == queryBus.value
      ensures r.Built? ==> r.gateway.dispatchInterceptors == dispatchInterceptors
      ensures r.Built? ==> r.gateway.resultInterceptors == resultInterceptors
    {
      var v := Validate();
      if v.Thrown? {
        r := BuildFailed(v.error);
      } else {
        var gateway := new DefaultQueryGateway(this);
        r := Built(gateway);
      }
    }
  }

  /** A fresh builder cannot build: the bus is missing. */
  method BuildWithoutBus<D(==), R(==)>() returns (r: BuildResult<D, R>)
    ensures r == BuildFailed(IllegalArgumentException(QueryBusRequiredMessage))
  {
    var builder := new Builder<D, R>();
    r := builder.Build();
  }
}
