/** The transaction wire messages the facade builds and reads, as tagged unions.
    Encoded sub-messages the facade never looks inside (method requests and
    method results) are opaque `Payload`s. The `...Of` accessors follow the
    protobuf getter rule: reading a sub-message of a case that is not the one
    set yields that sub-message's default instance, never an error. */
module Protocol {
  import opened Concepts

  /** Cross-cutting key/value attachments of a request (tracing data). */
  type Metadata = map<string, string>

  /** An encoded sub-message whose contents are opaque to the facade. */
  datatype Payload = Payload(bytes: seq<bv8>)

  /** The default instance of an opaque sub-message. */
  const EmptyPayload := Payload([])

  /** The concept kind a type message declares; `Unrecognised` stands for an
      encoding the decoder has no case for. */
  datatype Encoding = Known(kind: Kind) | Unrecognised

  /** A type as sent by the server. */
  datatype TypeProto = TypeProto(name: string, encoding: Encoding)

  /** The default instance of the type message: no label, no usable encoding. */
  const DefaultTypeProto := TypeProto("", Unrecognised)

  /** The thing kind a thing message declares; `ThingUnrecognised` stands for
      an encoding the decoder has no case for. */
  datatype ThingEncoding = ThingKnown(kind: ThingKind) | ThingUnrecognised

  /** A thing as sent by the server. */
  datatype ThingProto = ThingProto(iid: string, encoding: ThingEncoding)

  /** The operation a unary request asks for, with its operands. */
  datatype RequestBody =
    | PutEntityTypeReq(name: string)
    | PutRelationTypeReq(name: string)
    | PutAttributeTypeReq(name: string, valueType: ValueType)
    | GetTypeReq(name: string)
    | GetThingReq(iid: string)
    | ThingMethodReq(iid: string, thingMethod: Payload)
    | TypeMethodReq(name: string, typeMethod: Payload)

  /** Whether a request of this operation is sent with the tracing metadata:
      the puts and gets are, the method calls on a thing or type are not. */
  predicate Traced(body: RequestBody)
  {
    match body
    case PutEntityTypeReq(_) => true
    case PutRelationTypeReq(_) => true
    case PutAttributeTypeReq(_, _) => true
    case GetTypeReq(_) => true
    case GetThingReq(_) => true
    case ThingMethodReq(_, _) => false
    case TypeMethodReq(_, _) => false
  }

  /** A unary transaction request: metadata plus exactly one operation. */
  datatype Request = Request(metadata: Metadata, body: RequestBody)

  /** A request that opens a server-side iterator over a method's results. */
  datatype IterRequest =
    | ThingMethodIterReq(iid: string, thingIterMethod: Payload)
    | TypeMethodIterReq(name: string, typeIterMethod: Payload)

  /** The inner union of a get-type response. */
  datatype GetTypeCase = TypeCase(typeProto: TypeProto) | TypeNotSet

  /** The inner union of a get-thing response. */
  datatype GetThingCase = ThingCase(thingProto: ThingProto) | ThingNotSet

  /** A unary transaction response; `ResNotSet` is the envelope with no case set. */
  datatype Response =
    | PutEntityTypeRes(entityType: TypeProto)
    | PutRelationTypeRes(relationType: TypeProto)
    | PutAttributeTypeRes(attributeType: TypeProto)
    | GetTypeRes(getType: GetTypeCase)
    | GetThingRes(getThing: GetThingCase)
    | ConceptMethodThingRes(thingResult: Payload)
    | ConceptMethodTypeRes(typeResult: Payload)
    | ResNotSet

  /** One fragment of an iterator's results. */
  datatype IterResponse =
    | ConceptMethodThingIterRes(thingIterResult: Payload)
    | ConceptMethodTypeIterRes(typeIterResult: Payload)
    | IterResNotSet

  /** The get-type sub-message of a response; any other case reads as not set. */
  function GetTypeResOf(res: Response): (c: GetTypeCase)
    ensures c.TypeCase? <==> res.GetTypeRes? && res.getType.TypeCase?
    ensures c.TypeCase? ==> res == GetTypeRes(c)
  {
    if res.GetTypeRes? then res.getType else TypeNotSet
  }

  /** The get-thing sub-message of a response; any other case reads as not set. */
  function GetThingResOf(res: Response): (c: GetThingCase)
    ensures c.ThingCase? <==> res.GetThingRes? && res.getThing.ThingCase?
    ensures c.ThingCase? ==> res == GetThingRes(c)
  {
    if res.GetThingRes? then res.getThing else ThingNotSet
  }

  /** The entity type carried by a put-entity-type response, else the default. */
  function PutEntityTypeResOf(res: Response): (p: TypeProto)
    ensures p.encoding.Known? ==> res == PutEntityTypeRes(p)
    ensures res.PutEntityTypeRes? ==> p == res.entityType
    ensures !res.PutEntityTypeRes? ==> p == DefaultTypeProto
  {
    if res.PutEntityTypeRes? then res.entityType else DefaultTypeProto
  }

  /** The relation type carried by a put-relation-type response, else the default. */
  function PutRelationTypeResOf(res: Response): (p: TypeProto)
    ensures p.encoding.Known? ==> res == PutRelationTypeRes(p)
    ensures res.PutRelationTypeRes? ==> p == res.relationType
    ensures !res.PutRelationTypeRes? ==> p == DefaultTypeProto
  {
    if res.PutRelationTypeRes? then res.relationType else DefaultTypeProto
  }

  /** The attribute type carried by a put-attribute-type response, else the default. */
  function PutAttributeTypeResOf(res: Response): (p: TypeProto)
    ensures p.encoding.Known? ==> res == PutAttributeTypeRes(p)
    ensures res.PutAttributeTypeRes? ==> p == res.attributeType
    ensures !res.PutAttributeTypeRes? ==> p == DefaultTypeProto
  {
    if res.PutAttributeTypeRes? then res.attributeType else DefaultTypeProto
  }

  /** The thing-method result carried by a fragment, else the empty payload. */
  function ThingIterResOf(f: IterResponse): (p: Payload)
    ensures f.ConceptMethodThingIterRes? ==> p == f.thingIterResult
    ensures !f.ConceptMethodThingIterRes? ==> p == EmptyPayload
  {
    if f.ConceptMethodThingIterRes? then f.thingIterResult else EmptyPayload
  }

  /** The type-method result carried by a fragment, else the empty payload. */
  function TypeIterResOf(f: IterResponse): (p: Payload)
    ensures f.ConceptMethodTypeIterRes? ==> p == f.typeIterResult
    ensures !f.ConceptMethodTypeIterRes? ==> p == EmptyPayload
  {
    if f.ConceptMethodTypeIterRes? then f.typeIterResult else EmptyPayload
  }
}
