/**
 * The records the proto server generator builds from a schema: methods and
 * their streaming kind, services, and the models extracted from marked
 * messages, with the classifier of streaming kinds.
 */
module Domain {

  /** Rendered file contents. */
  type Bytes = seq<bv8>

  /** The four streaming shapes of an RPC method. */
  datatype MethodType = Unary | TwoWayStreams | RequestStreams | ReturnsStreams
  {
    /** The client streams its requests. */
    predicate StreamsRequest()
    {
      TwoWayStreams? || RequestStreams?
    }

    /** The server streams its replies. */
    predicate StreamsReturns()
    {
      TwoWayStreams? || ReturnsStreams?
    }
  }

  /** `getMethodType`: classify a method by its two streaming flags. The
      final fall-through of the source can never be taken. */
  function GetMethodType(streamsRequest: bool, streamsReturns: bool): (t: MethodType)
    ensures t.StreamsRequest() == streamsRequest
    ensures t.StreamsReturns() == streamsReturns
  {
    if !streamsRequest && !streamsReturns then Unary
    else if streamsRequest && streamsReturns then TwoWayStreams
    else if streamsRequest then RequestStreams
    else if streamsReturns then ReturnsStreams
    else assert false; Unary
  }

  /** The kind records exactly the two flags: classifying a kind's own flags
      gives it back, so the classifier is a bijection. */
  lemma GetMethodTypeInverse(t: MethodType)
    ensures GetMethodType(t.StreamsRequest(), t.StreamsReturns()) == t
  {
  }

  /** The classifier's table. */
  lemma GetMethodTypeTable()
    ensures GetMethodType(false, false) == Unary
    ensures GetMethodType(true, true) == TwoWayStreams
    ensures GetMethodType(true, false) == RequestStreams
    ensures GetMethodType(false, true) == ReturnsStreams
  {
  }

  /** One RPC method of a service. */
  datatype Method = Method(service: string, name: string, request: string, reply: string, methodType: MethodType)

  /** One field of a model. */
  datatype Field = Field(name: string, fieldType: string, repeated: bool)

  /** A message marked for extraction. */
  datatype Model = Model(name: string, fields: seq<Field>)

  /** The models of one schema, rendered into one file. */
  datatype Models = Models(models: seq<Model>)

  /** The value of a service record: its identity, its methods in declaration
      order, and the three flags the business-logic template reads. */
  datatype ServiceView = ServiceView(
    project: string,
    package: string,
    service: string,
    methods: seq<Method>,
    googleEmpty: bool,
    useIO: bool,
    useContext: bool)
}
