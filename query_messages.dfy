/**
 * Query messages and result messages. A query message wraps a delegate
 * message (payload and metadata) with a query name and the expected response
 * type; a subscription query message adds the response type of its updates.
 */
module QueryMessages {
  import opened Lang
  import opened ResponseTypes

  const GenericMessageClass := JClass("io.cyw.framework.messaging.GenericMessage", false, false)

  datatype QueryMessage =
    | GenericQueryMessage(delegate: Message, queryName: string, responseType: ResponseType)
    | GenericSubscriptionQueryMessage(delegate: Message, queryName: string, responseType: ResponseType,
                                      updateResponseType: ResponseType)

  /** QueryMessage.getPayload: the delegate's payload. */
  function PayloadOf(m: QueryMessage): Object {
    m.delegate.payload
  }

  /** A result message: a payload (possibly null), or the exception it carries when exceptional. */
  datatype ResultMessage = ResultMessage(payload: Nullable<Object>, exceptionResult: Option<Throwable>)

  predicate IsExceptional(r: ResultMessage) {
    r.exceptionResult.Some?
  }

  /** new GenericMessage(payload), assumed: a message of the payload with empty metadata (GenericMessage is not part of this model). */
  function GenericMessageOf(payload: Object): (m: Message)
    ensures m.payload == payload && m.metaData == map[]
  {
    Message(GenericMessageClass, payload, map[])
  }

  /** Message.withMetaData: a copy whose metadata is replaced. */
  function MessageWithMetaData(m: Message, metaData: MetaData): Message {
    m.(metaData := metaData)
  }

  /** Message.andMetaData: a copy whose metadata is merged with the given entries, the new ones winning. */
  function MessageAndMetaData(m: Message, metaData: MetaData): Message {
    m.(metaData := m.metaData + metaData)
  }

  /** GenericSubscriptionQueryMessage(delegate, queryName, responseType, updateResponseType) */
  function SubscriptionFromDelegate(delegate: Message, queryName: string, responseType: ResponseType,
                                    updateResponseType: ResponseType): (r: QueryMessage)
    ensures r.GenericSubscriptionQueryMessage?
    ensures r.delegate == delegate && r.queryName == queryName && r.responseType == responseType
    ensures GetUpdateResponseType(r) == updateResponseType
  {
    GenericSubscriptionQueryMessage(delegate, queryName, responseType, updateResponseType)
  }

  /** GenericSubscriptionQueryMessage(payload, queryName, responseType, updateResponseType): the payload is wrapped in a GenericMessage. */
  function SubscriptionFromPayload(payload: Object, queryName: string, responseType: ResponseType,
                                   updateResponseType: ResponseType): (r: QueryMessage)
    ensures r.GenericSubscriptionQueryMessage?
    ensures PayloadOf(r) == payload && r.delegate.metaData == map[]
    ensures r.queryName == queryName && r.responseType == responseType
    ensures GetUpdateResponseType(r) == updateResponseType
  {
    SubscriptionFromDelegate(GenericMessageOf(payload), queryName, responseType, updateResponseType)
  }

  /**
   * GenericSubscriptionQueryMessage(payload, responseType, updateResponseType):
   * named after the payload's class, so a null payload throws a
   * NullPointerException before any message exists.
   */
  function Subscription(payload: Nullable<Object>, responseType: ResponseType, updateResponseType: ResponseType)
    : (r: Call<QueryMessage>)
    ensures r.Throws? <==> payload.Null?
    ensures r.Throws? ==> r.error == NullPointerException
    ensures r.Returns? ==> r.value.GenericSubscriptionQueryMessage?
    ensures r.Returns? ==> PayloadOf(r.value) == payload.value && r.value.queryName == ClassOf(payload.value).name
    ensures r.Returns? ==> r.value.responseType == responseType && GetUpdateResponseType(r.value) == updateResponseType
  {
    match payload
    case Null => Throws(NullPointerException)
    case NonNull(p) => Returns(SubscriptionFromPayload(p, ClassOf(p).name, responseType, updateResponseType))
  }

  /** getUpdateResponseType */
  function GetUpdateResponseType(m: QueryMessage): ResponseType
    requires m.GenericSubscriptionQueryMessage?
  {
    m.updateResponseType
  }

  /** withMetaData: a new message over the delegate's withMetaData copy; name and both response types carried over. */
  function WithMetaData(m: QueryMessage, metaData: MetaData): (r: QueryMessage)
    requires m.GenericSubscriptionQueryMessage?
    ensures r.GenericSubscriptionQueryMessage?
    ensures r.queryName == m.queryName && r.responseType == m.responseType
    ensures GetUpdateResponseType(r) == GetUpdateResponseType(m)
    ensures PayloadOf(r) == PayloadOf(m) && r.delegate.cls == m.delegate.cls
    ensures r.delegate.metaData == metaData
  {
    SubscriptionFromDelegate(MessageWithMetaData(m.delegate, metaData), m.queryName, m.responseType, m.updateResponseType)
  }

  /** andMetaData: as withMetaData, through the delegate's andMetaData copy. */
  function AndMetaData(m: QueryMessage, metaData: MetaData): (r: QueryMessage)
    requires m.GenericSubscriptionQueryMessage?
    ensures r.GenericSubscriptionQueryMessage?
    ensures r.queryName == m.queryName && r.responseType == m.responseType
    ensures GetUpdateResponseType(r) == GetUpdateResponseType(m)
    ensures PayloadOf(r) == PayloadOf(m) && r.delegate.cls == m.delegate.cls
    ensures forall k :: k in metaData ==> k in r.delegate.metaData && r.delegate.metaData[k] == metaData[k]
    ensures forall k :: k in m.delegate.metaData && k !in metaData ==>
      k in r.delegate.metaData && r.delegate.metaData[k] == m.delegate.metaData[k]
    ensures r.delegate.metaData.Keys == m.delegate.metaData.Keys + metaData.Keys
  {
    SubscriptionFromDelegate(MessageAndMetaData(m.delegate, metaData), m.queryName, m.responseType, m.updateResponseType)
  }

  /** Replacing the metadata twice keeps only the second replacement. */
  lemma WithMetaDataLastWins(m: QueryMessage, a: MetaData, b: MetaData)
    requires m.GenericSubscriptionQueryMessage?
    ensures WithMetaData(WithMetaData(m, a), b) == WithMetaData(m, b)
  {
  }

  /** Merging no metadata gives back an equal message. */
  lemma AndNoMetaData(m: QueryMessage)
    requires m.GenericSubscriptionQueryMessage?
    ensures AndMetaData(m, map[]) == m
  {
    assert m.delegate.metaData + map[] == m.delegate.metaData;
  }

  /** Replacing the metadata with its own metadata gives back an equal message. */
  lemma WithOwnMetaData(m: QueryMessage)
    requires m.GenericSubscriptionQueryMessage?
    ensures WithMetaData(m, m.delegate.metaData) == m
  {
  }
}
