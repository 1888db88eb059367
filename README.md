# Query gateway and utilities, modelled in Dafny

This project models the query-dispatch layer of a Java framework built on
Mutiny, together with the small utilities around it:

- **DefaultQueryGateway**. It wraps a query in a query message and passes it
  through the registered dispatch interceptors. It sends the message on the
  query bus and passes the result through the result interceptors. Then it
  hands back the non-null payloads. Its registries of interceptors are a class
  with two ordered lists, and its Builder is a class with the validation and
  the list-copy rules as written.
- **The QueryGateway default methods**: delegation rules over an abstract core
  (query, scatterGather, subscriptionQuery). The subscription "flatten"
  combinators are functions from the core's result to the emitted stream and
  the number of `close` calls.
- **Other messaging pieces**: MessageDispatchInterceptor.handle,
  DefaultSubscriptionQueryResult, GenericSubscriptionQueryMessage, and the
  ResponseType defaults with InstanceResponseType.
- **String utilities**: CommonUtils.arrayFormat and toString, I18nUtils.load
  and args, and the Assert checks.
- **Reference-table entities**: the two-bit style word of ReferenceTable, and
  the YES/NO flag columns of ReferenceField and ReferenceTab.

Streams are finite values. A `Uni` is the one signal it ends with: an item,
possibly null, or a failure. A `Multi` is its items plus an optional terminal
failure. Java's null is `Nullable`, and exceptions are `Throwable` values.
Whether Mutiny's `scan(seed, acc)` emits its seed before the accumulated states is not fixed here;
it is a parameter of the model (`Library.scanEmitsSeed`).

The lemmas show what the code does as written:
- `processDispatchInterceptors` takes the first item of the concatenated scan,
  so with the seed emitted the interceptors never change the dispatched message.
- Scatter-gather keeps only the first result.
- The subscription message ignores the query name and is named after the
  message class.
- The subscription result is always made of three nulls.
- `Builder.dispatchInterceptors(list)` drops every non-empty list.
- `subscriptionQuery(Publisher)` calls itself without end.
- `Builder.queryBus` and `validate` call `Assert.nonNull`, which the Assert
  class in this repository does not define (it has `notNull`). The model uses
  `notNull`.
- ReferenceField has fourteen YES/NO flag pairs (display, basic, main,
  readonly, editable, allLine, required, upper, fromParent, query,
  queryRequire, negative, queryLike, key), and each is modelled.

Files:
- `lang.dfy`: the Java basics.
- `streams.dfy`: Uni, Multi and the Mutiny combinators used.
- `assert.dfy`
- `common_utils.dfy`
- `string_pool.dfy`
- `i18n_utils.dfy`
- `response_types.dfy`
- `query_messages.dfy`
- `subscription_query_result.dfy`
- `dispatch_interceptor.dfy`
- `query_gateway.dfy`: the QueryGateway defaults.
- `gateway.dfy`: DefaultQueryGateway and its Builder.
- `reference_table.dfy`, `reference_field.dfy`, `reference_tab.dfy`

## Model

| member | source | states |
|---|---|---|
| Assert.State | common/utils/src/main/java/io/cyw/framework/utils/Assert.java:9-13 | fails with IllegalStateException carrying the supplied message iff the state is false |
| Assert.IsTrue | common/utils/src/main/java/io/cyw/framework/utils/Assert.java:19-23 | fails with IllegalArgumentException carrying the supplied message iff the expression is false |
| Assert.IsFalse | common/utils/src/main/java/io/cyw/framework/utils/Assert.java:15-17 | fails with IllegalArgumentException iff the expression is true |
| Assert.NotNull | common/utils/src/main/java/io/cyw/framework/utils/Assert.java:25-27 | fails with IllegalArgumentException carrying the supplied message iff the object is null |
| Assert.PassingChecksIgnoreSupplier | common/utils/src/main/java/io/cyw/framework/utils/Assert.java:9-27 | a passing check gives the same outcome whatever the message supplier |
| CommonUtils.IndexFrom | common/utils/src/main/java/io/cyw/framework/utils/CommonUtils.java:20 | the search replaceOnce performs: the first occurrence at or after the start, or none at all |
| CommonUtils.ArrayFormat | common/utils/src/main/java/io/cyw/framework/utils/CommonUtils.java:17-24 | a null or empty argument array returns the pattern; otherwise the loop's result is the left-to-right fill of the renderings, each replacing the first remaining `{}` |
| CommonUtils.FillAppend | common/utils/src/main/java/io/cyw/framework/utils/CommonUtils.java:19-21 | filling with xs then ys is filling with xs + ys: arguments apply one after another |
| CommonUtils.NullReplacementSkipped | common/utils/src/main/java/io/cyw/framework/utils/CommonUtils.java:20 | a null rendering leaves the string as it is |
| CommonUtils.FillWithoutPlaceholder | common/utils/src/main/java/io/cyw/framework/utils/CommonUtils.java:20 | a pattern without `{}` is returned unchanged whatever the arguments |
| CommonUtils.ReplaceFirstPlaceholder | common/utils/src/main/java/io/cyw/framework/utils/CommonUtils.java:20 | one replaceOnce replaces exactly the first `{}` |
| CommonUtils.FillInOrder | common/utils/src/main/java/io/cyw/framework/utils/CommonUtils.java:17-24 | for a pattern made of placeholder-free segments and non-empty brace-free renderings, the k-th rendering lands in the k-th placeholder and placeholders beyond the arguments remain |
| CommonUtils.FillSegments | common/utils/src/main/java/io/cyw/framework/utils/CommonUtils.java:19-21 | the same, after any prefix that cannot combine with what follows into a placeholder |
| CommonUtils.PlaceholderInArgumentIsFilledNext | common/utils/src/main/java/io/cyw/framework/utils/CommonUtils.java:19-21 | each search restarts at the start: a rendering holding `{}` is filled by the next argument |
| CommonUtils.EmptyRenderingMakesPlaceholder | common/utils/src/main/java/io/cyw/framework/utils/CommonUtils.java:19-21 | an empty rendering can join a `{` and a `}` into a new placeholder |
| CommonUtils.ToString | common/utils/src/main/java/io/cyw/framework/utils/CommonUtils.java:26-36 | null for null, a String as it is, anything else by its toString |
| CommonUtils.Rendered | common/utils/src/main/java/io/cyw/framework/utils/CommonUtils.java:19-20 | one rendering per argument, in argument order |
| I18nUtils.LoadIsIdentity | common/core/src/main/java/io/cyw/framework/core/i18n/I18nUtils.java:17-20 | load() returns each supplier unchanged |
| I18nUtils.Load | common/core/src/main/java/io/cyw/framework/core/i18n/I18nUtils.java:17-20 | definition, no ensures of its own: load() as the identity on suppliers; LoadIsIdentity states it |
| I18nUtils.GetArgs | common/core/src/main/java/io/cyw/framework/core/i18n/I18nUtils.java:23-31 | the loop's message equals the fill of the supplier's message; with null or no arguments it is the supplier's message |
| I18nUtils.Args | common/core/src/main/java/io/cyw/framework/core/i18n/I18nUtils.java:22-33 | definition, no ensures of its own: args(...) as a function from suppliers to suppliers whose read reads the wrapped supplier, then fills {} with the CommonUtils.toString renderings when there are arguments; GetArgs, NoArgumentsKeepMessage, NullArgumentSkipped, StringArgumentsFillInOrder and ReadAtGet state what a read yields |
| I18nUtils.NoArgumentsKeepMessage | common/core/src/main/java/io/cyw/framework/core/i18n/I18nUtils.java:22-33 | with null or zero arguments the new supplier gives the original supplier's message |
| I18nUtils.NullArgumentSkipped | common/core/src/main/java/io/cyw/framework/core/i18n/I18nUtils.java:26-29 | a null argument, rendered as null, changes nothing |
| I18nUtils.StringArgumentsFillInOrder | common/core/src/main/java/io/cyw/framework/core/i18n/I18nUtils.java:26-29 | with `{` and `}` as braces, string arguments fill the placeholders in order |
| I18nUtils.ReadAtGet | common/core/src/main/java/io/cyw/framework/core/i18n/I18nUtils.java:23-24 | the new supplier's message depends only on what the wrapped supplier gives when it is read |
| I18nUtils.Renderings | common/core/src/main/java/io/cyw/framework/core/i18n/I18nUtils.java:27-28 | each argument rendered by CommonUtils.toString, in order |
| MessageDispatchInterceptors.Await | common/messaging/src/main/java/io/cyw/framework/messaging/MessageDispatchInterceptor.java:46-48 | await().indefinitely() returns the item or rethrows the failure |
| MessageDispatchInterceptors.HandleIsAwaitedIntercept | common/messaging/src/main/java/io/cyw/framework/messaging/MessageDispatchInterceptor.java:34-51 | handle(m) is the awaited intercept of a one-item Uni of m |
| MessageDispatchInterceptors.Handle | common/messaging/src/main/java/io/cyw/framework/messaging/MessageDispatchInterceptor.java:34-36 | definition, no ensures of its own: handle(m) as handle of the singleton list applied at position 0; HandleIsAwaitedIntercept and HandleSurfacesIntercept state its outcome |
| MessageDispatchInterceptors.HandleList | common/messaging/src/main/java/io/cyw/framework/messaging/MessageDispatchInterceptor.java:45-49 | definition, no ensures of its own: handle(list) as the function that awaits intercept of a one-item Uni; HandleListIgnoresPositionAndList states that position and list are unused |
| MessageDispatchInterceptors.HandleListIgnoresPositionAndList | common/messaging/src/main/java/io/cyw/framework/messaging/MessageDispatchInterceptor.java:45-49 | the function from handle(list) ignores the position and the list |
| MessageDispatchInterceptors.HandleSurfacesIntercept | common/messaging/src/main/java/io/cyw/framework/messaging/MessageDispatchInterceptor.java:46-48 | a failure of intercept is thrown by handle; an item is returned |
| SubscriptionQueryResults.Cancel | common/messaging/src/main/java/io/cyw/framework/queryhandling/DefaultSubscriptionQueryResult.java:36-39 | a null delegate throws NullPointerException, otherwise the delegate's cancel outcome |
| SubscriptionQueryResults.AccessorsReturnConstructorArguments | common/messaging/src/main/java/io/cyw/framework/queryhandling/DefaultSubscriptionQueryResult.java:20-39 | initialResult, updates and cancel give back what the constructor received |
| SubscriptionQueryResults.InitialResult | common/messaging/src/main/java/io/cyw/framework/queryhandling/DefaultSubscriptionQueryResult.java:26-29 | definition, no ensures of its own: initialResult() as the stored field; AccessorsReturnConstructorArguments states it returns the constructor's argument |
| SubscriptionQueryResults.Updates | common/messaging/src/main/java/io/cyw/framework/queryhandling/DefaultSubscriptionQueryResult.java:31-34 | definition, no ensures of its own: updates() as the stored field; AccessorsReturnConstructorArguments states it returns the constructor's argument |
| SubscriptionQueryResults.AllNullResult | common/messaging/src/main/java/io/cyw/framework/queryhandling/DefaultSubscriptionQueryResult.java:26-39 | the result of nulls has no initial result, no updates, and cancel throws NullPointerException |
| QueryMessages.Subscription | common/messaging/src/main/java/io/cyw/framework/queryhandling/GenericSubscriptionQueryMessage.java:23-26 | a null payload throws NullPointerException; otherwise the message is named after the payload's class, carries the payload and keeps both response types |
| QueryMessages.SubscriptionFromPayload | common/messaging/src/main/java/io/cyw/framework/queryhandling/GenericSubscriptionQueryMessage.java:37-41 | the payload constructor keeps payload, name and both response types; its empty metadata rests on the GenericMessageOf assumption listed under Left out |
| QueryMessages.SubscriptionFromDelegate | common/messaging/src/main/java/io/cyw/framework/queryhandling/GenericSubscriptionQueryMessage.java:52-61 | the delegate constructor keeps delegate, name and both response types; getUpdateResponseType returns the update type |
| QueryMessages.GetUpdateResponseType | common/messaging/src/main/java/io/cyw/framework/queryhandling/GenericSubscriptionQueryMessage.java:58-61 | definition, no ensures of its own: the stored update response type; the constructors' ensures state it is the one they were given |
| QueryMessages.WithMetaData | common/messaging/src/main/java/io/cyw/framework/queryhandling/GenericSubscriptionQueryMessage.java:63-69 | a copy with the same name, response types and payload, whose metadata is exactly the given map |
| QueryMessages.AndMetaData | common/messaging/src/main/java/io/cyw/framework/queryhandling/GenericSubscriptionQueryMessage.java:71-77 | a copy with the same name, response types and payload, whose metadata is the old map overridden by the given one |
| QueryMessages.WithMetaDataLastWins | common/messaging/src/main/java/io/cyw/framework/queryhandling/GenericSubscriptionQueryMessage.java:63-69 | of two withMetaData calls the later wins |
| QueryMessages.AndNoMetaData | common/messaging/src/main/java/io/cyw/framework/queryhandling/GenericSubscriptionQueryMessage.java:71-77 | andMetaData of an empty map gives an equal message |
| QueryMessages.WithOwnMetaData | common/messaging/src/main/java/io/cyw/framework/queryhandling/GenericSubscriptionQueryMessage.java:63-69 | withMetaData of the message's own metadata gives an equal message |
| QueryMessages.GenericMessageOf | common/messaging/src/main/java/io/cyw/framework/queryhandling/GenericSubscriptionQueryMessage.java:37-41 | assumed: the payload that line 39 hands to the superclass is wrapped in a message that keeps the payload and has empty metadata |
| ResponseTypes.Unwrap | common/messaging/src/main/java/io/cyw/framework/messaging/responsetypes/InstanceResponseType.java:61 | strips one Future or Optional layer and leaves any other type as it is |
| ResponseTypes.MatchesUnwrapped | common/messaging/src/main/java/io/cyw/framework/messaging/responsetypes/InstanceResponseType.java:59-63 | matches holds iff the unwrapped type is generic-assignable or raw-assignable |
| ResponseTypes.Matches | common/messaging/src/main/java/io/cyw/framework/messaging/responsetypes/InstanceResponseType.java:59-63 | definition, no ensures of its own: matches as the generic or raw assignability test on the unwrapped type; MatchesUnwrapped, WrapperMatchesLikeContent, OneLayerOnly and OtherGenericsTestedAsIs state it case by case |
| ResponseTypes.WrapperMatchesLikeContent | common/messaging/src/main/java/io/cyw/framework/messaging/responsetypes/InstanceResponseType.java:59-63 | Future<X> and Optional<X> match exactly when X does |
| ResponseTypes.OneLayerOnly | common/messaging/src/main/java/io/cyw/framework/messaging/responsetypes/InstanceResponseType.java:61 | Future<Optional<X>> is tested as Optional<X>, not as X |
| ResponseTypes.OtherGenericsTestedAsIs | common/messaging/src/main/java/io/cyw/framework/messaging/responsetypes/InstanceResponseType.java:61-62 | any other parameterized type is tested unchanged |
| ResponseTypes.Convert | common/messaging/src/main/java/io/cyw/framework/messaging/responsetypes/ResponseType.java:54-57 | convert returns its argument |
| ResponseTypes.ForSerialization | common/messaging/src/main/java/io/cyw/framework/messaging/responsetypes/ResponseType.java:81-83 | forSerialization returns the receiver |
| ResponseTypes.PayloadTypeIsConstructorArgument | common/messaging/src/main/java/io/cyw/framework/messaging/responsetypes/InstanceResponseType.java:47-49 | responseMessagePayloadType returns the constructor's class |
| ResponseTypes.ResponseMessagePayloadType | common/messaging/src/main/java/io/cyw/framework/messaging/responsetypes/InstanceResponseType.java:47-49 | definition, no ensures of its own: the class stored by the constructor, which passes it to the superclass at line 48; PayloadTypeIsConstructorArgument states it |
| ResponseTypes.ToString | common/messaging/src/main/java/io/cyw/framework/messaging/responsetypes/InstanceResponseType.java:71-74 | the prefix `InstanceResponseType{`, the class's own toString, then `}` |
| ResponseTypes.ToStringInjective | common/messaging/src/main/java/io/cyw/framework/messaging/responsetypes/InstanceResponseType.java:71-74 | equal toString texts mean equal class texts |
| QueryGatewayDefaults.QueryForClass | common/messaging/src/main/java/io/cyw/framework/queryhandling/QueryGateway.java:57-59 | the derived name and instanceOf(class), on the 3-argument query |
| QueryGatewayDefaults.QueryNamedForClass | common/messaging/src/main/java/io/cyw/framework/queryhandling/QueryGateway.java:74-76 | the given name and instanceOf(class), on the 3-argument query |
| QueryGatewayDefaults.QueryFor | common/messaging/src/main/java/io/cyw/framework/queryhandling/QueryGateway.java:91-93 | the derived name and the response type, on the 3-argument query |
| QueryGatewayDefaults.QueryAllInOrder | common/messaging/src/main/java/io/cyw/framework/queryhandling/QueryGateway.java:120-123 | queries from a publisher give the concatenation of their results in query order |
| QueryGatewayDefaults.QueryAll | common/messaging/src/main/java/io/cyw/framework/queryhandling/QueryGateway.java:120-123 | definition, no ensures of its own: concatMap over the publisher of each query's toMulti, with the query's name, payload and response type; QueryAllInOrder and QueryAllStopsAtFailure state the output |
| QueryGatewayDefaults.QueryAllStopsAtFailure | common/messaging/src/main/java/io/cyw/framework/queryhandling/QueryGateway.java:120-123 | the first failing query ends the output with its failure; later queries contribute nothing |
| QueryGatewayDefaults.ScatterGatherFor | common/messaging/src/main/java/io/cyw/framework/queryhandling/QueryGateway.java:141-143 | the derived name and the unchanged timeout, on the 4-argument scatterGather |
| QueryGatewayDefaults.ScatterGatherAllInOrder | common/messaging/src/main/java/io/cyw/framework/queryhandling/QueryGateway.java:174-177 | scatter-gather over a publisher concatenates each query's results in order |
| QueryGatewayDefaults.ScatterGatherAll | common/messaging/src/main/java/io/cyw/framework/queryhandling/QueryGateway.java:174-177 | definition, no ensures of its own: concatMap over the publisher of each query's scatterGather with the one timeout; ScatterGatherAllInOrder states the output |
| QueryGatewayDefaults.SubscriptionQueryFor | common/messaging/src/main/java/io/cyw/framework/queryhandling/QueryGateway.java:359-361 | the derived name and BUFFER_XS, on the core subscriptionQuery |
| QueryGatewayDefaults.SubscriptionQueryNamed | common/messaging/src/main/java/io/cyw/framework/queryhandling/QueryGateway.java:383-385 | the given name and BUFFER_XS, on the core subscriptionQuery |
| QueryGatewayDefaults.SubscriptionQueryForClasses | common/messaging/src/main/java/io/cyw/framework/queryhandling/QueryGateway.java:311-313 | both classes wrapped in instanceOf, the derived name and BUFFER_XS |
| QueryGatewayDefaults.SubscriptionQueryNamedForClasses | common/messaging/src/main/java/io/cyw/framework/queryhandling/QueryGateway.java:335-338 | both classes wrapped in instanceOf, the given name and BUFFER_XS |
| QueryGatewayDefaults.SubscriptionQueryAllInOrder | common/messaging/src/main/java/io/cyw/framework/queryhandling/QueryGateway.java:457-462 | subscription queries from a publisher, each with the given buffer, concatenated in order |
| QueryGatewayDefaults.SubscriptionQueryAll | common/messaging/src/main/java/io/cyw/framework/queryhandling/QueryGateway.java:457-462 | definition, no ensures of its own: concatMap over the publisher of each subscription query with the given buffer size; SubscriptionQueryAllInOrder states the output |
| QueryGatewayDefaults.SubscriptionQueryUnboundedNeverReturns | common/messaging/src/main/java/io/cyw/framework/queryhandling/QueryGateway.java:421-424 | records that the publisher overload without a buffer only calls itself: the unfolding never yields a stream, which holds by the definition of the unfolding rather than by a proof about the source |
| QueryGatewayDefaults.SubscriptionQueryUnbounded | common/messaging/src/main/java/io/cyw/framework/queryhandling/QueryGateway.java:421-424 | definition, no ensures of its own: the self-call unfolded a given number of times, yielding no stream when the unfoldings run out |
| QueryGatewayDefaults.FlattenSingle | common/messaging/src/main/java/io/cyw/framework/queryhandling/QueryGateway.java:196-200 | at most one close; an upstream failure passes through with no close |
| QueryGatewayDefaults.FlattenMany | common/messaging/src/main/java/io/cyw/framework/queryhandling/QueryGateway.java:241-247 | at most one close; an upstream failure passes through with no close |
| QueryGatewayDefaults.FlattenUpdates | common/messaging/src/main/java/io/cyw/framework/queryhandling/QueryGateway.java:266-269 | at most one close; an upstream failure passes through with no close |
| QueryGatewayDefaults.SubscriptionQueryUpdates | common/messaging/src/main/java/io/cyw/framework/queryhandling/QueryGateway.java:196-200 | the same response type for initial result and updates, flattened to the updates |
| QueryGatewayDefaults.SubscriptionQueryUpdatesForClass | common/messaging/src/main/java/io/cyw/framework/queryhandling/QueryGateway.java:219-221 | instanceOf(class) for both types, then as the ResponseType version |
| QueryGatewayDefaults.SubscriptionQueryMany | common/messaging/src/main/java/io/cyw/framework/queryhandling/QueryGateway.java:241-247 | multipleInstancesOf for the initial result and instanceOf for updates, flattened per element |
| QueryGatewayDefaults.QueryUpdates | common/messaging/src/main/java/io/cyw/framework/queryhandling/QueryGateway.java:266-269 | instanceOf(Void) as the initial type; only the updates |
| QueryGatewayDefaults.QueryUpdatesForClass | common/messaging/src/main/java/io/cyw/framework/queryhandling/QueryGateway.java:288-290 | instanceOf(Void) and instanceOf(class); only the updates |
| QueryGatewayDefaults.FlattenSingleEmitsUpdates | common/messaging/src/main/java/io/cyw/framework/queryhandling/QueryGateway.java:196-200 | with an initial item and updates, exactly the updates are emitted, whatever the initial item, and close runs once |
| QueryGatewayDefaults.FlattenManyRepeatsUpdates | common/messaging/src/main/java/io/cyw/framework/queryhandling/QueryGateway.java:241-247 | each element of a non-empty initial collection is replaced by the whole updates stream, concatenated, then one close |
| QueryGatewayDefaults.FlattenSingleClosesIffBuilt | common/messaging/src/main/java/io/cyw/framework/queryhandling/QueryGateway.java:196-200 | close runs iff a result with an initial result arrived |
| QueryGatewayDefaults.FlattenUpdatesClosesIffBuilt | common/messaging/src/main/java/io/cyw/framework/queryhandling/QueryGateway.java:266-269 | close runs iff a result with updates arrived, and then the stream is the updates |
| Gateway.Combine | common/messaging/src/main/java/io/cyw/framework/queryhandling/DefaultQueryGateway.java:99-102 | the pair of the query and the bus's item, or the bus's failure |
| Gateway.DispatchIsFirstStage | common/messaging/src/main/java/io/cyw/framework/queryhandling/DefaultQueryGateway.java:154-163 | the dispatched message is the first non-null stage of the interceptor scan |
| Gateway.InterceptDispatch | common/messaging/src/main/java/io/cyw/framework/queryhandling/DefaultQueryGateway.java:154-162 | definition, no ensures of its own: processDispatchInterceptors as toUni of the concatenated scan over the dispatch interceptors; DispatchIsFirstStage, SeededDispatchIgnoresInterceptors, UnseededDispatchUsesFirstInterceptor and FoldIsLastStage state what it yields |
| Gateway.SeededDispatchIgnoresInterceptors | common/messaging/src/main/java/io/cyw/framework/queryhandling/DefaultQueryGateway.java:154-163 | when the scan emits its seed, the message is dispatched unchanged whatever the interceptors |
| Gateway.UnseededDispatchUsesFirstInterceptor | common/messaging/src/main/java/io/cyw/framework/queryhandling/DefaultQueryGateway.java:154-163 | when it does not, the first interceptor's output is dispatched |
| Gateway.UnseededDispatchWithoutInterceptors | common/messaging/src/main/java/io/cyw/framework/queryhandling/DefaultQueryGateway.java:154-163 | with no seed and no interceptors, only a null item comes out |
| Gateway.FoldIsLastStage | common/messaging/src/main/java/io/cyw/framework/queryhandling/DefaultQueryGateway.java:158 | the scan's last stage is the left fold of the interceptors over the message |
| Gateway.MapExceptionalResult | common/messaging/src/main/java/io/cyw/framework/queryhandling/DefaultQueryGateway.java:137-141 | an exceptional result becomes a failure with its exception; any other result a one-item stream of itself |
| Gateway.ResultSeed | common/messaging/src/main/java/io/cyw/framework/queryhandling/DefaultQueryGateway.java:124-126 | the result's stream: empty for a null result, else the exceptional-result mapping |
| Gateway.ResultsWithoutInterceptors | common/messaging/src/main/java/io/cyw/framework/queryhandling/DefaultQueryGateway.java:122-135 | no interceptors: the result stream itself when the seed is emitted, else nothing |
| Gateway.InterceptResults | common/messaging/src/main/java/io/cyw/framework/queryhandling/DefaultQueryGateway.java:128-134 | definition, no ensures of its own: the scan over the result interceptors seeded with the result's stream, every stage concatenated; ResultsWithoutInterceptors and PassThroughInterceptorsRepeatResult state what it yields |
| Gateway.ProcessResults | common/messaging/src/main/java/io/cyw/framework/queryhandling/DefaultQueryGateway.java:122-135 | definition, no ensures of its own: processResultsInterceptors on the combined pair, a null pair failing with NullPointerException at getItem1; otherwise InterceptResults of its message and result |
| Gateway.PassThroughInterceptorsRepeatResult | common/messaging/src/main/java/io/cyw/framework/queryhandling/DefaultQueryGateway.java:128-134 | interceptors that pass the stream through make it appear once per stage |
| Gateway.Payloads | common/messaging/src/main/java/io/cyw/framework/queryhandling/DefaultQueryGateway.java:117-120 | never more payloads than results |
| Gateway.GetPayload | common/messaging/src/main/java/io/cyw/framework/queryhandling/DefaultQueryGateway.java:117-120 | the stream ends as its source does |
| Gateway.PayloadsAppend | common/messaging/src/main/java/io/cyw/framework/queryhandling/DefaultQueryGateway.java:117-120 | the filter works item by item, keeping order |
| Gateway.PayloadsMembership | common/messaging/src/main/java/io/cyw/framework/queryhandling/DefaultQueryGateway.java:117-120 | a payload is emitted iff some result carries it |
| Gateway.PayloadsAllPresent | common/messaging/src/main/java/io/cyw/framework/queryhandling/DefaultQueryGateway.java:117-120 | with no null payloads, exactly one payload per result is emitted, the i-th being the i-th result's payload |
| Gateway.QueryMessageFor | common/messaging/src/main/java/io/cyw/framework/queryhandling/DefaultQueryGateway.java:46-47 | the query message wraps asMessage(query) with the given name and response type |
| Gateway.QueryWithoutInterceptors | common/messaging/src/main/java/io/cyw/framework/queryhandling/DefaultQueryGateway.java:45-52 | with no interceptors: the bus's failure, the exception of an exceptional result, null, or the payload |
| Gateway.Query | common/messaging/src/main/java/io/cyw/framework/queryhandling/DefaultQueryGateway.java:44-52 | definition, no ensures of its own: query as the message, dispatch interception, the bus's query combined with the message, result interception, getPayload and toUni; QueryWithoutInterceptors gives its closed form |
| Gateway.ScatterGatherSeesFirstResultOnly | common/messaging/src/main/java/io/cyw/framework/queryhandling/DefaultQueryGateway.java:55-62 | buses whose result streams start alike give the same output |
| Gateway.DispatchScatterGather | common/messaging/src/main/java/io/cyw/framework/queryhandling/DefaultQueryGateway.java:59 | definition, no ensures of its own: the flatMap mapper, which fails with NullPointerException for a null timeout before the bus is asked, and otherwise combines the message with the first result of the bus's scatterGather at timeout.toMillis(); ScatterGatherNullTimeoutFails states the failure |
| Gateway.ScatterGather | common/messaging/src/main/java/io/cyw/framework/queryhandling/DefaultQueryGateway.java:54-62 | definition, no ensures of its own: scatterGather as the message, dispatch interception, DispatchScatterGather, result interception and getPayload; ScatterGatherSeesFirstResultOnly, ScatterGatherNullTimeoutFails and ScatterGatherAtMostOne state its properties |
| Gateway.ScatterGatherNullTimeoutFails | common/messaging/src/main/java/io/cyw/framework/queryhandling/DefaultQueryGateway.java:59 | a null timeout fails inside the flatMap: no payloads, with the dispatch interceptors' failure if they failed and NullPointerException otherwise |
| Gateway.ScatterGatherAtMostOne | common/messaging/src/main/java/io/cyw/framework/queryhandling/DefaultQueryGateway.java:105-115 | with no interceptors at most one payload is emitted |
| Gateway.SubscriptionMessageFor | common/messaging/src/main/java/io/cyw/framework/queryhandling/DefaultQueryGateway.java:66-68 | the subscription message is built with the 3-argument constructor from asMessage(query) |
| Gateway.CastToSubscription | common/messaging/src/main/java/io/cyw/framework/queryhandling/DefaultQueryGateway.java:69 | null passes the cast, a subscription message passes, a plain query message gives ClassCastException |
| Gateway.ProcessSubscriptionQueryResult | common/messaging/src/main/java/io/cyw/framework/queryhandling/DefaultQueryGateway.java:74-93 | whatever the bus returned, a result of three nulls; a failure passes through |
| Gateway.SubscriptionQueryYieldsNullResult | common/messaging/src/main/java/io/cyw/framework/queryhandling/DefaultQueryGateway.java:64-93 | every subscription query either fails or yields the result of three nulls |
| Gateway.SubscriptionQuery | common/messaging/src/main/java/io/cyw/framework/queryhandling/DefaultQueryGateway.java:64-72 | definition, no ensures of its own: subscriptionQuery as the class-named subscription message, dispatch interception, the cast, the bus's subscriptionQuery and processSubscriptionQueryResult; SubscriptionQueryYieldsNullResult, SubscriptionQueryIgnoresQueryName, SubscriptionQueryWithoutInterceptors and PlainMessageFailsCast state its properties |
| Gateway.SubscriptionQueryIgnoresQueryName | common/messaging/src/main/java/io/cyw/framework/queryhandling/DefaultQueryGateway.java:65-68 | the query name argument makes no difference |
| Gateway.SubscriptionQueryWithoutInterceptors | common/messaging/src/main/java/io/cyw/framework/queryhandling/DefaultQueryGateway.java:64-103 | with no interceptors the bus gets the subscription message; its failure or the result of nulls comes back |
| Gateway.PlainMessageFailsCast | common/messaging/src/main/java/io/cyw/framework/queryhandling/DefaultQueryGateway.java:69 | an interceptor that yields a plain query message makes the subscription fail with ClassCastException |
| Gateway.FlattenedSubscriptionsFail | common/messaging/src/main/java/io/cyw/framework/queryhandling/QueryGateway.java:196-290 | through this gateway all flattened subscription variants fail with no items and never close |
| Gateway.RemoveFirst | common/messaging/src/main/java/io/cyw/framework/queryhandling/DefaultQueryGateway.java:41 | List.remove: no change when absent; else one fewer element, exactly one copy of it gone |
| Gateway.RemoveFirstAt | common/messaging/src/main/java/io/cyw/framework/queryhandling/DefaultQueryGateway.java:41 | List.remove removes the first occurrence and keeps the rest in order |
| Gateway.RegisterThenCancelRestores | common/messaging/src/main/java/io/cyw/framework/queryhandling/DefaultQueryGateway.java:166-169 | registering a new interceptor and cancelling it restores the list |
| Gateway.CancelRemovesEarlierEqual | common/messaging/src/main/java/io/cyw/framework/queryhandling/DefaultQueryGateway.java:166-169 | with an equal interceptor registered earlier, cancel removes the earlier one |
| Gateway.DefaultQueryGateway.constructor | common/messaging/src/main/java/io/cyw/framework/queryhandling/DefaultQueryGateway.java:31-36 | the gateway takes the builder's bus and copies of its lists |
| Gateway.DefaultQueryGateway.RegisterDispatchInterceptor | common/messaging/src/main/java/io/cyw/framework/queryhandling/DefaultQueryGateway.java:166-169 | appends to the dispatch list; the result list is untouched |
| Gateway.DefaultQueryGateway.RegisterResultHandlerInterceptor | common/messaging/src/main/java/io/cyw/framework/queryhandling/DefaultQueryGateway.java:39-42 | appends to the result list; the dispatch list is untouched |
| Gateway.DefaultQueryGateway.Cancel | common/messaging/src/main/java/io/cyw/framework/queryhandling/DefaultQueryGateway.java:41-168 | the registrations' remove at line 41 (result interceptors) and line 168 (dispatch interceptors): removes the first equal entry of its own list, true iff there was one; the other list is untouched |
| Gateway.RegisterAndCancelTwice | common/messaging/src/main/java/io/cyw/framework/queryhandling/DefaultQueryGateway.java:166-169 | the first cancel returns true, the second false, and both lists end as they began |
| Gateway.Builder.constructor | common/messaging/src/main/java/io/cyw/framework/queryhandling/DefaultQueryGateway.java:173-177 | no bus, two empty lists |
| Gateway.Builder.SetQueryBus | common/messaging/src/main/java/io/cyw/framework/queryhandling/DefaultQueryGateway.java:185-189 | a null bus is rejected with `QueryBus may not be null` and nothing changes; otherwise the bus is set |
| Gateway.Builder.SetDispatchInterceptors | common/messaging/src/main/java/io/cyw/framework/queryhandling/DefaultQueryGateway.java:210-214 | the list is kept only when empty, so the dispatch list always ends up empty |
| Gateway.Builder.SetDispatchInterceptorsArray | common/messaging/src/main/java/io/cyw/framework/queryhandling/DefaultQueryGateway.java:198-201 | a null array throws NullPointerException; otherwise the list rule |
| Gateway.Builder.SetResultInterceptors | common/messaging/src/main/java/io/cyw/framework/queryhandling/DefaultQueryGateway.java:235-239 | a copy of a non-empty list, else an empty list |
| Gateway.Builder.SetResultInterceptorsArray | common/messaging/src/main/java/io/cyw/framework/queryhandling/DefaultQueryGateway.java:223-226 | a null array throws NullPointerException; otherwise the list rule |
| Gateway.Builder.Validate | common/messaging/src/main/java/io/cyw/framework/queryhandling/DefaultQueryGateway.java:245-247 | fails with IllegalArgumentException `The QueryBus is a hard requirement and should be provided` iff no bus is set |
| Gateway.Builder.Build | common/messaging/src/main/java/io/cyw/framework/queryhandling/DefaultQueryGateway.java:249-251 | a fresh gateway over the bus and the lists iff a bus is set, else the validation failure |
| Gateway.BuildWithoutBus | common/messaging/src/main/java/io/cyw/framework/queryhandling/DefaultQueryGateway.java:31-32 | a builder never given a bus fails to build |
| ReferenceTables.WithView | common/reference-table/reference-table-daemon/src/main/java/io/cyw/framework/ui/entity/ReferenceTable.java:123-129 | the view bit becomes the argument; every other bit is kept |
| ReferenceTables.WithVertical | common/reference-table/reference-table-daemon/src/main/java/io/cyw/framework/ui/entity/ReferenceTable.java:135-141 | the vertical bit becomes the argument; every other bit is kept |
| ReferenceTables.SettersAreIndependent | common/reference-table/reference-table-daemon/src/main/java/io/cyw/framework/ui/entity/ReferenceTable.java:119-141 | setView leaves getVertical alone and setVertical leaves getView alone |
| ReferenceTables.LastSetterWins | common/reference-table/reference-table-daemon/src/main/java/io/cyw/framework/ui/entity/ReferenceTable.java:123-141 | of two calls of one setter the later wins |
| ReferenceTables.SettersIdempotent | common/reference-table/reference-table-daemon/src/main/java/io/cyw/framework/ui/entity/ReferenceTable.java:123-141 | each setter twice with one value is the setter once |
| ReferenceTables.DefaultStyle | common/reference-table/reference-table-daemon/src/main/java/io/cyw/framework/ui/entity/ReferenceTable.java:18-23 | the default style word reads vertical and not a view |
| ReferenceTables.ReferenceTable.constructor | common/reference-table/reference-table-daemon/src/main/java/io/cyw/framework/ui/entity/ReferenceTable.java:50 | a new table has style STYLE_VERTICAL: vertical, not a view |
| ReferenceTables.ReferenceTable.SetView | common/reference-table/reference-table-daemon/src/main/java/io/cyw/framework/ui/entity/ReferenceTable.java:119-129 | getView then reads the argument; getVertical is unchanged |
| ReferenceTables.ReferenceTable.GetView | common/reference-table/reference-table-daemon/src/main/java/io/cyw/framework/ui/entity/ReferenceTable.java:119-121 | definition, no ensures of its own: getView as the STYLE_VIEW bit of the style; SetView's ensures and SettersAreIndependent state its readings |
| ReferenceTables.ReferenceTable.SetVertical | common/reference-table/reference-table-daemon/src/main/java/io/cyw/framework/ui/entity/ReferenceTable.java:131-141 | getVertical then reads the argument; getView is unchanged |
| ReferenceTables.ReferenceTable.GetVertical | common/reference-table/reference-table-daemon/src/main/java/io/cyw/framework/ui/entity/ReferenceTable.java:131-133 | definition, no ensures of its own: getVertical as the STYLE_VERTICAL bit of the style; SetVertical's ensures and DefaultStyle state its readings |
| StringPools.EncodeFlag | common/reference-table/reference-table-daemon/src/main/java/io/cyw/framework/ui/entity/ReferenceField.java:201 | a setter stores exactly YES or NO |
| StringPools.FlagRoundTrip | common/reference-table/reference-table-daemon/src/main/java/io/cyw/framework/ui/entity/ReferenceField.java:196-202 | the getter reads back what the setter stored |
| StringPools.UnsetFlagIsFalse | common/reference-table/reference-table-daemon/src/main/java/io/cyw/framework/ui/entity/ReferenceField.java:197 | a flag never set reads false |
| StringPools.CaseVariantReadsTrue | common/reference-table/reference-table-daemon/src/main/java/io/cyw/framework/ui/entity/ReferenceField.java:197 | a stored value equal to YES ignoring case reads true |
| StringPools.NoReadsFalse | common/reference-table/reference-table-daemon/src/main/java/io/cyw/framework/ui/entity/ReferenceField.java:197 | a stored NO reads false |
| ReferenceFields.ReferenceField.constructor | common/reference-table/reference-table-daemon/src/main/java/io/cyw/framework/ui/entity/ReferenceField.java:18-194 | displayLength defaults to 200; every flag column is empty and reads false |
| ReferenceFields.ReferenceField.SetDisplayFlag | common/reference-table/reference-table-daemon/src/main/java/io/cyw/framework/ui/entity/ReferenceField.java:196-202 | stores YES or NO; getDisplayFlag then reads the argument; no other column changes |
| ReferenceFields.ReferenceField.GetDisplayFlag | common/reference-table/reference-table-daemon/src/main/java/io/cyw/framework/ui/entity/ReferenceField.java:196-198 | definition, no ensures of its own: YES compared ignoring case with the stored displayFlag; SetDisplayFlag's ensures and the constructor state its readings |
| ReferenceFields.ReferenceField.SetBasicFlag | common/reference-table/reference-table-daemon/src/main/java/io/cyw/framework/ui/entity/ReferenceField.java:204-210 | stores YES or NO; getBasicFlag then reads the argument; no other column changes |
| ReferenceFields.ReferenceField.GetBasicFlag | common/reference-table/reference-table-daemon/src/main/java/io/cyw/framework/ui/entity/ReferenceField.java:204-206 | definition, no ensures of its own: YES compared ignoring case with the stored basicFlag; SetBasicFlag's ensures and the constructor state its readings |
| ReferenceFields.ReferenceField.SetMainFlag | common/reference-table/reference-table-daemon/src/main/java/io/cyw/framework/ui/entity/ReferenceField.java:212-218 | stores YES or NO; getMainFlag then reads the argument; no other column changes |
| ReferenceFields.ReferenceField.GetMainFlag | common/reference-table/reference-table-daemon/src/main/java/io/cyw/framework/ui/entity/ReferenceField.java:212-214 | definition, no ensures of its own: YES compared ignoring case with the stored mainFlag; SetMainFlag's ensures and the constructor state its readings |
| ReferenceFields.ReferenceField.SetReadonlyFlag | common/reference-table/reference-table-daemon/src/main/java/io/cyw/framework/ui/entity/ReferenceField.java:220-226 | stores YES or NO; getReadonlyFlag then reads the argument; no other column changes |
| ReferenceFields.ReferenceField.GetReadonlyFlag | common/reference-table/reference-table-daemon/src/main/java/io/cyw/framework/ui/entity/ReferenceField.java:220-222 | definition, no ensures of its own: YES compared ignoring case with the stored readonlyFlag; SetReadonlyFlag's ensures and the constructor state its readings |
| ReferenceFields.ReferenceField.SetEditable | common/reference-table/reference-table-daemon/src/main/java/io/cyw/framework/ui/entity/ReferenceField.java:228-234 | stores YES or NO; getEditable then reads the argument; no other column changes |
| ReferenceFields.ReferenceField.GetEditable | common/reference-table/reference-table-daemon/src/main/java/io/cyw/framework/ui/entity/ReferenceField.java:228-230 | definition, no ensures of its own: YES compared ignoring case with the stored editable; SetEditable's ensures and the constructor state its readings |
| ReferenceFields.ReferenceField.SetAllLine | common/reference-table/reference-table-daemon/src/main/java/io/cyw/framework/ui/entity/ReferenceField.java:236-242 | stores YES or NO; getAllLine then reads the argument; no other column changes |
| ReferenceFields.ReferenceField.GetAllLine | common/reference-table/reference-table-daemon/src/main/java/io/cyw/framework/ui/entity/ReferenceField.java:236-238 | definition, no ensures of its own: YES compared ignoring case with the stored allLine; SetAllLine's ensures and the constructor state its readings |
| ReferenceFields.ReferenceField.SetRequiredFlag | common/reference-table/reference-table-daemon/src/main/java/io/cyw/framework/ui/entity/ReferenceField.java:244-250 | stores YES or NO; getRequiredFlag then reads the argument; no other column changes |
| ReferenceFields.ReferenceField.GetRequiredFlag | common/reference-table/reference-table-daemon/src/main/java/io/cyw/framework/ui/entity/ReferenceField.java:244-246 | definition, no ensures of its own: YES compared ignoring case with the stored requiredFlag; SetRequiredFlag's ensures and the constructor state its readings |
| ReferenceFields.ReferenceField.SetUpperFlag | common/reference-table/reference-table-daemon/src/main/java/io/cyw/framework/ui/entity/ReferenceField.java:252-258 | stores YES or NO; getUpperFlag then reads the argument; no other column changes |
| ReferenceFields.ReferenceField.GetUpperFlag | common/reference-table/reference-table-daemon/src/main/java/io/cyw/framework/ui/entity/ReferenceField.java:252-254 | definition, no ensures of its own: YES compared ignoring case with the stored upperFlag; SetUpperFlag's ensures and the constructor state its readings |
| ReferenceFields.ReferenceField.SetFromParent | common/reference-table/reference-table-daemon/src/main/java/io/cyw/framework/ui/entity/ReferenceField.java:260-266 | stores YES or NO; getFromParent then reads the argument; no other column changes |
| ReferenceFields.ReferenceField.GetFromParent | common/reference-table/reference-table-daemon/src/main/java/io/cyw/framework/ui/entity/ReferenceField.java:260-262 | definition, no ensures of its own: YES compared ignoring case with the stored fromParent; SetFromParent's ensures and the constructor state its readings |
| ReferenceFields.ReferenceField.SetQueryFlag | common/reference-table/reference-table-daemon/src/main/java/io/cyw/framework/ui/entity/ReferenceField.java:268-274 | stores YES or NO; getQueryFlag then reads the argument; no other column changes |
| ReferenceFields.ReferenceField.GetQueryFlag | common/reference-table/reference-table-daemon/src/main/java/io/cyw/framework/ui/entity/ReferenceField.java:268-270 | definition, no ensures of its own: YES compared ignoring case with the stored queryFlag; SetQueryFlag's ensures and the constructor state its readings |
| ReferenceFields.ReferenceField.SetQueryRequireFlag | common/reference-table/reference-table-daemon/src/main/java/io/cyw/framework/ui/entity/ReferenceField.java:276-282 | stores YES or NO; getQueryRequireFlag then reads the argument; no other column changes |
| ReferenceFields.ReferenceField.GetQueryRequireFlag | common/reference-table/reference-table-daemon/src/main/java/io/cyw/framework/ui/entity/ReferenceField.java:276-278 | definition, no ensures of its own: YES compared ignoring case with the stored queryRequireFlag; SetQueryRequireFlag's ensures and the constructor state its readings |
| ReferenceFields.ReferenceField.SetNegativeFlag | common/reference-table/reference-table-daemon/src/main/java/io/cyw/framework/ui/entity/ReferenceField.java:284-290 | stores YES or NO; getNegativeFlag then reads the argument; no other column changes |
| ReferenceFields.ReferenceField.GetNegativeFlag | common/reference-table/reference-table-daemon/src/main/java/io/cyw/framework/ui/entity/ReferenceField.java:284-286 | definition, no ensures of its own: YES compared ignoring case with the stored negativeFlag; SetNegativeFlag's ensures and the constructor state its readings |
| ReferenceFields.ReferenceField.SetQueryLikeFlag | common/reference-table/reference-table-daemon/src/main/java/io/cyw/framework/ui/entity/ReferenceField.java:292-298 | stores YES or NO; getQueryLikeFlag then reads the argument; no other column changes |
| ReferenceFields.ReferenceField.GetQueryLikeFlag | common/reference-table/reference-table-daemon/src/main/java/io/cyw/framework/ui/entity/ReferenceField.java:292-294 | definition, no ensures of its own: YES compared ignoring case with the stored queryLikeFlag; SetQueryLikeFlag's ensures and the constructor state its readings |
| ReferenceFields.ReferenceField.SetKeyFlag | common/reference-table/reference-table-daemon/src/main/java/io/cyw/framework/ui/entity/ReferenceField.java:300-306 | stores YES or NO; getKeyFlag then reads the argument; no other column changes |
| ReferenceFields.ReferenceField.GetKeyFlag | common/reference-table/reference-table-daemon/src/main/java/io/cyw/framework/ui/entity/ReferenceField.java:300-302 | definition, no ensures of its own: YES compared ignoring case with the stored keyFlag; SetKeyFlag's ensures and the constructor state its readings |
| ReferenceFields.SetKeyFlagKeepsOthers | common/reference-table/reference-table-daemon/src/main/java/io/cyw/framework/ui/entity/ReferenceField.java:196-306 | setting the key flag reads back the argument and leaves each of the 13 other flags' readings and the display length as they were |
| ReferenceTabs.ReferenceTab.constructor | common/reference-table/reference-table-daemon/src/main/java/io/cyw/framework/ui/entity/ReferenceTab.java:22-61 | a new tab has tabType `Field` and reads as not editable |
| ReferenceTabs.ReferenceTab.SetEditFlag | common/reference-table/reference-table-daemon/src/main/java/io/cyw/framework/ui/entity/ReferenceTab.java:88-94 | stores YES or NO; getEditFlag then reads the argument |
| ReferenceTabs.ReferenceTab.GetEditFlag | common/reference-table/reference-table-daemon/src/main/java/io/cyw/framework/ui/entity/ReferenceTab.java:88-90 | definition, no ensures of its own: YES compared ignoring case with the stored flag; SetEditFlag's ensures and the constructor state its readings |
| Lang.ToMillisTruncates | common/messaging/src/main/java/io/cyw/framework/queryhandling/DefaultQueryGateway.java:59 | Duration.toMillis, used for the scatter-gather timeout, is the duration in nanoseconds divided by a million rounded toward zero |
| Lang.ToMillis | common/messaging/src/main/java/io/cyw/framework/queryhandling/DefaultQueryGateway.java:59 | definition, no ensures of its own: Duration.toMillis on the seconds and nanoseconds; ToMillisTruncates states it as total nanoseconds divided by a million toward zero |

## Left out

- Mutiny timing: laziness, subscription timing, scheduling, backpressure and the update buffer are not modelled. Streams are finite values, and the buffer size is passed through untouched.
- Scan seed: whether Mutiny's `scan` emits its seed is a parameter rather than a fixed choice.
- Concurrency: the thread-safety and snapshot iteration of `CopyOnWriteArrayList`. The lists are plain sequences, updated one call at a time.
- The query bus: none of its three calls has a body here; each is a function supplied by the caller. The same holds for every interceptor's `intercept`.
- Collaborators not part of this model: `GenericMessage.asMessage`, `QueryMessage.queryName`, `ResponseTypes.instanceOf`/`multipleInstancesOf`, `Queues.BUFFER_XS`, `AbstractResponseType.isGenericAssignableFrom`/`isAssignableFrom`, and the Object.toString and ArrayUtils.toString renderings are each a parameter. The `StringPool` constants are parameters too, with one assumption: YES and NO differ ignoring case.
- `ReflectionUtils.unwrapIfType`: modelled as stripping one `Future` or `Optional` layer from a parameterized type. Raw wrapper classes and subtypes of the wrappers are not distinguished.
- `Message.withMetaData`/`andMetaData`: their semantics (replace the map, and merge with the new entries winning) are assumed from their names. GenericMessage and GenericQueryMessage are not part of this model; the one GenericMessage constructor used is assumed, see the next line.
- QueryMessages.GenericMessageOf: `new GenericMessage(payload)`, reached from GenericSubscriptionQueryMessage.java:39 through GenericQueryMessage, is assumed to keep the payload and start with empty metadata. Neither class is part of this model, and a GenericMessage that copies correlation data from a surrounding unit of work would start with non-empty metadata. QueryMessages.SubscriptionFromPayload's metadata clause depends on this assumption.
- `Assert.nonNull`: it is called by the Builder but the repository's Assert class defines only `notNull`, so it is modelled as `Assert.notNull`.
- `StringUtils.replaceOnce`: modelled by its documented commons-lang behaviour (null text gives null; a null replacement changes nothing; the first occurrence is replaced). `String.equalsIgnoreCase` folds ASCII letters only.
- Null Boolean arguments: the entity setters and `setView`/`setVertical` take `bool`. The NullPointerException from unboxing a null `Boolean` is not modelled, and neither is a null `style`.
- Duration: `Duration.toMillis` is modelled without the arithmetic overflow exception of `multiplyExact`.
- `QueryGatewayDefaults.SubscriptionQueryUnbounded`: the self-call of `subscriptionQuery(Publisher)` is modelled by a recursion depth (fuel) that is never enough. Its lemma follows from that definition and is a record of the self-call, not a proof about it; the stack overflow is not modelled.
- SubscriptionQueryResult.close: only counted (how often the flatten combinators call it), not performed.
- Gateway.QueryMessageFor and Gateway.SubscriptionMessageFor: a null query reaches `asMessage` as null; what that does is left to the `asMessage` parameter.
- Gateway.DefaultQueryGateway.constructor: requires a builder whose bus is set. The constructor's own `validate` call is modelled in `Builder.Build`, which checks before constructing.
- JPA annotations and relations, the GraphQL resource, the query holder and exception classes, and the interceptor-support interfaces: outside the modelled core.
