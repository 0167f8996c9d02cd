/** The concept facade of a transaction. Each typed operation builds exactly
    one request (or none, for rule creation), hands it to the transceiver, and
    decodes the reply into a typed handle, into absence (`Success(None)`), or
    into a failure. Lookups by label all go through `GetType`; the narrowed
    lookups and the root getters differ only in how they treat its answer. */
module RPCConcepts {
  import opened Wrappers
  import opened Concepts
  import opened Protocol
  import opened Resolver
  import opened Transceiver

  /** The reserved labels of the six root concepts. */
  const ThingLabel := "thing"
  const EntityLabel := "entity"
  const RelationLabel := "relation"
  const AttributeLabel := "attribute"
  const RoleLabel := "role"
  const RuleLabel := "rule"

  /** Rule patterns, carried as opaque query text. */
  type Pattern = string

  /** The request `GetType` sends for `name`. */
  function GetTypeRequest(tracing: Metadata, name: string): Request
  {
    Request(tracing, GetTypeReq(name))
  }

  /** Whether a reply is a get-type response with the TYPE case set, that is,
      the one reply from which `GetType` builds a handle. */
  predicate RepliesType(reply: Result<Response, Error>)
  {
    reply.Success? && reply.value.GetTypeRes? && reply.value.getType.TypeCase?
  }

  /** Whether a reply is a get-thing response with the THING case set, that
      is, the one reply from which `GetThing` builds a handle. */
  predicate RepliesThing(reply: Result<Response, Error>)
  {
    reply.Success? && reply.value.GetThingRes? && reply.value.getThing.ThingCase?
  }

  /** Looks a type up by label. */
  function GetType<S>(c: Client<S>, ss: Session<S>, name: string): (r: Reply<S, Option<TypeHandle>>)
    ensures r.session.log == ss.log + [SentUnary(GetTypeRequest(c.tracing, name))]
    ensures var ex := c.unary(ss.state, GetTypeRequest(c.tracing, name));
      && r.session.state == ex.state
      // A handle comes back only from a TYPE case, and it is the decoded one.
      && (r.result.Success? && r.result.value.Some? <==>
            RepliesType(ex.reply) && ex.reply.value.getType.typeProto.encoding.Known?)
      && (r.result.Success? && r.result.value.Some? ==>
            r.result.value.value == TypeHandle(ex.reply.value.getType.typeProto.name,
                                               ex.reply.value.getType.typeProto.encoding.kind))
      // Every other response case, RES_NOT_SET included, is absence.
      && (ex.reply.Success? && !RepliesType(ex.reply) ==> r.result == Success(None))
      // A failure is the transceiver's, unchanged, or an undecodable type.
      && (ex.reply.Failure? ==> r.result == Failure(ex.reply.error))
      && (RepliesType(ex.reply) && ex.reply.value.getType.typeProto.encoding.Unrecognised? ==>
            r.result == Failure(UnrecognisedEncoding))
  {
    var s := SendAndReceive(c, ss, GetTypeRequest(c.tracing, name));
    match s.result
    case Failure(e) => Reply(s.session, Failure(e))
    case Success(res) =>
      match GetTypeResOf(res)
      case TypeNotSet => Reply(s.session, Success(None))
      case TypeCase(p) =>
        match ResolveType(p)
        case Success(h) => Reply(s.session, Success(Some(h)))
        case Failure(e) => Reply(s.session, Failure(e))
  }

  /** Looks a thing up by iid. */
  function GetThing<S>(c: Client<S>, ss: Session<S>, iid: string): (r: Reply<S, Option<ThingHandle>>)
    ensures r.session.log == ss.log + [SentUnary(Request(c.tracing, GetThingReq(iid)))]
    ensures var ex := c.unary(ss.state, Request(c.tracing, GetThingReq(iid)));
      && r.session.state == ex.state
      // A handle comes back only from a THING case, and it is the decoded one.
      && (r.result.Success? && r.result.value.Some? <==>
            RepliesThing(ex.reply) && ex.reply.value.getThing.thingProto.encoding.ThingKnown?)
      && (r.result.Success? && r.result.value.Some? ==>
            r.result.value.value == ThingHandle(ex.reply.value.getThing.thingProto.iid,
                                                ex.reply.value.getThing.thingProto.encoding.kind))
      // Every other response case, RES_NOT_SET included, is absence.
      && (ex.reply.Success? && !RepliesThing(ex.reply) ==> r.result == Success(None))
      // A failure is the transceiver's, unchanged, or an undecodable thing.
      && (ex.reply.Failure? ==> r.result == Failure(ex.reply.error))
      && (RepliesThing(ex.reply) && ex.reply.value.getThing.thingProto.encoding.ThingUnrecognised? ==>
            r.result == Failure(UnrecognisedEncoding))
  {
    var s := SendAndReceive(c, ss, Request(c.tracing, GetThingReq(iid)));
    match s.result
    case Failure(e) => Reply(s.session, Failure(e))
    case Success(res) =>
      match GetThingResOf(res)
      case ThingNotSet => Reply(s.session, Success(None))
      case ThingCase(p) =>
        match ResolveThing(p)
        case Success(h) => Reply(s.session, Success(Some(h)))
        case Failure(e) => Reply(s.session, Failure(e))
  }

  /** The shape shared by the label lookups narrowed by kind: look the label up,
      keep the concept only if it passes the `instanceof guard` test, then cast
      it to `target`. */
  function GetNarrowed<S>(c: Client<S>, ss: Session<S>, name: string, guard: View, target: View): (r: Reply<S, Option<TypeHandle>>)
  {
    var g := GetType(c, ss, name);
    match g.result
    case Failure(e) => Reply(g.session, Failure(e))
    case Success(None) => Reply(g.session, Success(None))
    case Success(Some(h)) =>
      if Admits(guard, h.kind) then
        match Cast(h, target)
        case Success(n) => Reply(g.session, Success(Some(n)))
        case Failure(e) => Reply(g.session, Failure(e))
      else Reply(g.session, Success(None))
  }

  /** The entity type with this label. The guard tests for any thing type and
      the cast then demands an entity type, so a root, relation or attribute
      type under this label is a class-cast failure rather than absence. */
  function GetEntityType<S>(c: Client<S>, ss: Session<S>, name: string): (r: Reply<S, Option<TypeHandle>>)
    ensures r.session == GetType(c, ss, name).session
    ensures var g := GetType(c, ss, name).result;
      && (r.result.Success? && r.result.value.Some? <==>
            g.Success? && g.value.Some? && g.value.value.kind == EntityType)
      && (r.result.Success? && r.result.value.Some? ==> r.result.value == g.value)
      && (r.result.Failure? <==>
            g.Failure? || (g.Success? && g.value.Some? && MiscastByGetEntityType(g.value.value.kind)))
      && (g.Failure? ==> r.result == g)
      && (g.Success? && g.value.Some? && MiscastByGetEntityType(g.value.value.kind) ==>
            r.result == Failure(ClassCast(EntityTypeView, g.value.value.kind)))
  {
    GetNarrowed(c, ss, name, ThingTypeView, EntityTypeView)
  }

  /** `getEntityType` as its guard evidently meant it, testing for an entity
      type: any other kind is absence, so only the transceiver can fail it. */
  function GetEntityTypeIntended<S>(c: Client<S>, ss: Session<S>, name: string): (r: Reply<S, Option<TypeHandle>>)
    ensures r.session == GetType(c, ss, name).session
    ensures var g := GetType(c, ss, name).result;
      && (r.result.Success? && r.result.value.Some? <==>
            g.Success? && g.value.Some? && g.value.value.kind == EntityType)
      && (r.result.Success? && r.result.value.Some? ==> r.result.value == g.value)
      && (r.result.Failure? <==> g.Failure?)
      && (g.Failure? ==> r.result == g)
  {
    GetNarrowed(c, ss, name, EntityTypeView, EntityTypeView)
  }

  /** The relation type with this label; any other kind is absence. */
  function GetRelationType<S>(c: Client<S>, ss: Session<S>, name: string): (r: Reply<S, Option<TypeHandle>>)
    ensures r.session == GetType(c, ss, name).session
    ensures var g := GetType(c, ss, name).result;
      && (r.result.Success? && r.result.value.Some? <==>
            g.Success? && g.value.Some? && g.value.value.kind == RelationType)
      && (r.result.Success? && r.result.value.Some? ==> r.result.value == g.value)
      && (r.result.Failure? <==> g.Failure?)
      && (g.Failure? ==> r.result == g)
  {
    GetNarrowed(c, ss, name, RelationTypeView, RelationTypeView)
  }

  /** The attribute type with this label; any other kind is absence. */
  function GetAttributeType<S>(c: Client<S>, ss: Session<S>, name: string): (r: Reply<S, Option<TypeHandle>>)
    ensures r.session == GetType(c, ss, name).session
    ensures var g := GetType(c, ss, name).result;
      && (r.result.Success? && r.result.value.Some? <==>
            g.Success? && g.value.Some? && g.value.value.kind == AttributeType)
      && (r.result.Success? && r.result.value.Some? ==> r.result.value == g.value)
      && (r.result.Failure? <==> g.Failure?)
      && (g.Failure? ==> r.result == g)
  {
    GetNarrowed(c, ss, name, AttributeTypeView, AttributeTypeView)
  }

  /** The rule with this label; any other kind is absence. */
  function GetRule<S>(c: Client<S>, ss: Session<S>, name: string): (r: Reply<S, Option<TypeHandle>>)
    ensures r.session == GetType(c, ss, name).session
    ensures var g := GetType(c, ss, name).result;
      && (r.result.Success? && r.result.value.Some? <==>
            g.Success? && g.value.Some? && g.value.value.kind == Rule)
      && (r.result.Success? && r.result.value.Some? ==> r.result.value == g.value)
      && (r.result.Failure? <==> g.Failure?)
      && (g.Failure? ==> r.result == g)
  {
    GetNarrowed(c, ss, name, RuleView, RuleView)
  }

  /** Rule creation is disabled: it fails before anything reaches the channel. */
  function PutRule<S>(c: Client<S>, ss: Session<S>, name: string, whenPattern: Pattern, thenPattern: Pattern): (r: Reply<S, TypeHandle>)
    ensures r.session == ss
    ensures r.result == Failure(UnsupportedOperation)
  {
    Reply(ss, Failure(UnsupportedOperation))
  }

  /** The shape shared by the root getters: look the reserved label up and
      narrow the answer with `asX()`; a missing root is dereferenced. */
  function GetRoot<S>(c: Client<S>, ss: Session<S>, name: string, view: View): (r: Reply<S, TypeHandle>)
    ensures r.session == GetType(c, ss, name).session
    ensures var g := GetType(c, ss, name).result;
      && (r.result.Success? <==> g.Success? && g.value.Some? && Admits(view, g.value.value.kind))
      && (r.result.Success? ==> r.result.value == g.value.value)
      && (g == Success(None) ==> r.result == Failure(NullDereference))
      && (g.Success? && g.value.Some? && !Admits(view, g.value.value.kind) ==>
            r.result == Failure(TypeMismatch(view, g.value.value.kind)))
      && (g.Failure? ==> r.result == Failure(g.error))
  {
    var g := GetType(c, ss, name);
    match g.result
    case Failure(e) => Reply(g.session, Failure(e))
    case Success(None) => Reply(g.session, Failure(NullDereference))
    case Success(Some(h)) => Reply(g.session, As(h, view))
  }

  /** The root thing type: any thing-type kind is accepted. */
  function GetRootType<S>(c: Client<S>, ss: Session<S>): (r: Reply<S, TypeHandle>)
    ensures r.session.log == ss.log + [SentUnary(GetTypeRequest(c.tracing, ThingLabel))]
    ensures r.result.Success? ==> Admits(ThingTypeView, r.result.value.kind)
    ensures GetType(c, ss, ThingLabel).result == Success(None) ==> r.result == Failure(NullDereference)
  {
    GetRoot(c, ss, ThingLabel, ThingTypeView)
  }

  /** The root entity type. */
  function GetRootEntityType<S>(c: Client<S>, ss: Session<S>): (r: Reply<S, TypeHandle>)
    ensures r.session.log == ss.log + [SentUnary(GetTypeRequest(c.tracing, EntityLabel))]
    ensures r.result.Success? ==> r.result.value.kind == EntityType
    ensures GetType(c, ss, EntityLabel).result == Success(None) ==> r.result == Failure(NullDereference)
  {
    GetRoot(c, ss, EntityLabel, EntityTypeView)
  }

  /** The root relation type. */
  function GetRootRelationType<S>(c: Client<S>, ss: Session<S>): (r: Reply<S, TypeHandle>)
    ensures r.session.log == ss.log + [SentUnary(GetTypeRequest(c.tracing, RelationLabel))]
    ensures r.result.Success? ==> r.result.value.kind == RelationType
    ensures GetType(c, ss, RelationLabel).result == Success(None) ==> r.result == Failure(NullDereference)
  {
    GetRoot(c, ss, RelationLabel, RelationTypeView)
  }

  /** The root attribute type. */
  function GetRootAttributeType<S>(c: Client<S>, ss: Session<S>): (r: Reply<S, TypeHandle>)
    ensures r.session.log == ss.log + [SentUnary(GetTypeRequest(c.tracing, AttributeLabel))]
    ensures r.result.Success? ==> r.result.value.kind == AttributeType
    ensures GetType(c, ss, AttributeLabel).result == Success(None) ==> r.result == Failure(NullDereference)
  {
    GetRoot(c, ss, AttributeLabel, AttributeTypeView)
  }

  /** The root role type. */
  function GetRootRoleType<S>(c: Client<S>, ss: Session<S>): (r: Reply<S, TypeHandle>)
    ensures r.session.log == ss.log + [SentUnary(GetTypeRequest(c.tracing, RoleLabel))]
    ensures r.result.Success? ==> r.result.value.kind == RoleType
    ensures GetType(c, ss, RoleLabel).result == Success(None) ==> r.result == Failure(NullDereference)
  {
    GetRoot(c, ss, RoleLabel, RoleTypeView)
  }

  /** The root rule. */
  function GetRootRule<S>(c: Client<S>, ss: Session<S>): (r: Reply<S, TypeHandle>)
    ensures r.session.log == ss.log + [SentUnary(GetTypeRequest(c.tracing, RuleLabel))]
    ensures r.result.Success? ==> r.result.value.kind == Rule
    ensures GetType(c, ss, RuleLabel).result == Success(None) ==> r.result == Failure(NullDereference)
  {
    GetRoot(c, ss, RuleLabel, RuleView)
  }

  /** The shape shared by the puts: send `body` with tracing metadata, read the
      type out of the response with `extract`, decode it and narrow it. */
  function PutAndNarrow<S>(c: Client<S>, ss: Session<S>, body: RequestBody, extract: Response -> TypeProto, view: View): (r: Reply<S, TypeHandle>)
    ensures r.session.log == ss.log + [SentUnary(Request(c.tracing, body))]
    ensures var ex := c.unary(ss.state, Request(c.tracing, body));
      && r.session.state == ex.state
      && (r.result.Success? <==>
            ex.reply.Success? && extract(ex.reply.value).encoding.Known?
            && Admits(view, extract(ex.reply.value).encoding.kind))
      && (r.result.Success? ==>
            r.result.value == TypeHandle(extract(ex.reply.value).name, extract(ex.reply.value).encoding.kind))
      && (ex.reply.Failure? ==> r.result == Failure(ex.reply.error))
      // An undecodable type, the default message of another case included, fails closed.
      && (ex.reply.Success? && extract(ex.reply.value).encoding.Unrecognised? ==>
            r.result == Failure(UnrecognisedEncoding))
      // A decoded kind the view rejects is the `asX()` type mismatch.
      && (ex.reply.Success? && extract(ex.reply.value).encoding.Known?
          && !Admits(view, extract(ex.reply.value).encoding.kind) ==>
            r.result == Failure(TypeMismatch(view, extract(ex.reply.value).encoding.kind)))
  {
    var s := SendAndReceive(c, ss, Request(c.tracing, body));
    match s.result
    case Failure(e) => Reply(s.session, Failure(e))
    case Success(res) =>
      match ResolveType(extract(res))
      case Failure(e) => Reply(s.session, Failure(e))
      case Success(h) => Reply(s.session, As(h, view))
  }

  /** Creates or fetches the entity type with this label. */
  function PutEntityType<S>(c: Client<S>, ss: Session<S>, name: string): (r: Reply<S, TypeHandle>)
    ensures r.session.log == ss.log + [SentUnary(Request(c.tracing, PutEntityTypeReq(name)))]
    ensures var ex := c.unary(ss.state, Request(c.tracing, PutEntityTypeReq(name)));
      && r.session.state == ex.state
      && (r.result.Success? <==> ex.reply.Success? && ex.reply.value.PutEntityTypeRes?
                                 && ex.reply.value.entityType.encoding == Known(EntityType))
      && (r.result.Success? ==> r.result.value == TypeHandle(ex.reply.value.entityType.name, EntityType))
      && (ex.reply.Failure? ==> r.result == Failure(ex.reply.error))
      // Any other case reads as the default message, which fails closed.
      && (ex.reply.Success? && !PutEntityTypeResOf(ex.reply.value).encoding.Known? ==>
            r.result == Failure(UnrecognisedEncoding))
      // A concept of another kind fails the narrowing with a type mismatch.
      && (ex.reply.Success? && PutEntityTypeResOf(ex.reply.value).encoding.Known?
          && PutEntityTypeResOf(ex.reply.value).encoding.kind != EntityType ==>
            r.result == Failure(TypeMismatch(EntityTypeView, PutEntityTypeResOf(ex.reply.value).encoding.kind)))
  {
    PutAndNarrow(c, ss, PutEntityTypeReq(name), PutEntityTypeResOf, EntityTypeView)
  }

  /** Creates or fetches the relation type with this label. */
  function PutRelationType<S>(c: Client<S>, ss: Session<S>, name: string): (r: Reply<S, TypeHandle>)
    ensures r.session.log == ss.log + [SentUnary(Request(c.tracing, PutRelationTypeReq(name)))]
    ensures var ex := c.unary(ss.state, Request(c.tracing, PutRelationTypeReq(name)));
      && r.session.state == ex.state
      && (r.result.Success? <==> ex.reply.Success? && ex.reply.value.PutRelationTypeRes?
                                 && ex.reply.value.relationType.encoding == Known(RelationType))
      && (r.result.Success? ==> r.result.value == TypeHandle(ex.reply.value.relationType.name, RelationType))
      && (ex.reply.Failure? ==> r.result == Failure(ex.reply.error))
      // Any other case reads as the default message, which fails closed.
      && (ex.reply.Success? && !PutRelationTypeResOf(ex.reply.value).encoding.Known? ==>
            r.result == Failure(UnrecognisedEncoding))
      // A concept of another kind fails the narrowing with a type mismatch.
      && (ex.reply.Success? && PutRelationTypeResOf(ex.reply.value).encoding.Known?
          && PutRelationTypeResOf(ex.reply.value).encoding.kind != RelationType ==>
            r.result == Failure(TypeMismatch(RelationTypeView, PutRelationTypeResOf(ex.reply.value).encoding.kind)))
  {
    PutAndNarrow(c, ss, PutRelationTypeReq(name), PutRelationTypeResOf, RelationTypeView)
  }

  /** Creates or fetches the attribute type with this label and value type. */
  function PutAttributeType<S>(c: Client<S>, ss: Session<S>, name: string, valueType: ValueType): (r: Reply<S, TypeHandle>)
    ensures r.session.log == ss.log + [SentUnary(Request(c.tracing, PutAttributeTypeReq(name, valueType)))]
    ensures var ex := c.unary(ss.state, Request(c.tracing, PutAttributeTypeReq(name, valueType)));
      && r.session.state == ex.state
      && (r.result.Success? <==> ex.reply.Success? && ex.reply.value.PutAttributeTypeRes?
                                 && ex.reply.value.attributeType.encoding == Known(AttributeType))
      && (r.result.Success? ==> r.result.value == TypeHandle(ex.reply.value.attributeType.name, AttributeType))
      && (ex.reply.Failure? ==> r.result == Failure(ex.reply.error))
      // Any other case reads as the default message, which fails closed.
      && (ex.reply.Success? && !PutAttributeTypeResOf(ex.reply.value).encoding.Known? ==>
            r.result == Failure(UnrecognisedEncoding))
      // A concept of another kind fails the narrowing with a type mismatch.
      && (ex.reply.Success? && PutAttributeTypeResOf(ex.reply.value).encoding.Known?
          && PutAttributeTypeResOf(ex.reply.value).encoding.kind != AttributeType ==>
            r.result == Failure(TypeMismatch(AttributeTypeView, PutAttributeTypeResOf(ex.reply.value).encoding.kind)))
  {
    PutAndNarrow(c, ss, PutAttributeTypeReq(name, valueType), PutAttributeTypeResOf, AttributeTypeView)
  }

  /** Runs a method on the thing with this iid; the reply is returned as is,
      and the request carries no tracing metadata. */
  function RunThingMethod<S>(c: Client<S>, ss: Session<S>, iid: string, thingMethod: Payload): (r: Reply<S, Response>)
    ensures r.session.log == ss.log + [SentUnary(Request(map[], ThingMethodReq(iid, thingMethod)))]
    ensures r.session.state == c.unary(ss.state, Request(map[], ThingMethodReq(iid, thingMethod))).state
    ensures r.result == c.unary(ss.state, Request(map[], ThingMethodReq(iid, thingMethod))).reply
  {
    SendAndReceive(c, ss, Request(map[], ThingMethodReq(iid, thingMethod)))
  }

  /** Runs a method on the type with this label; the reply is returned as is,
      and the request carries no tracing metadata. */
  function RunTypeMethod<S>(c: Client<S>, ss: Session<S>, name: string, typeMethod: Payload): (r: Reply<S, Response>)
    ensures r.session.log == ss.log + [SentUnary(Request(map[], TypeMethodReq(name, typeMethod)))]
    ensures r.session.state == c.unary(ss.state, Request(map[], TypeMethodReq(name, typeMethod))).state
    ensures r.result == c.unary(ss.state, Request(map[], TypeMethodReq(name, typeMethod))).reply
  {
    SendAndReceive(c, ss, Request(map[], TypeMethodReq(name, typeMethod)))
  }

  /** Iterates a method of the thing with this iid: each fragment's thing-method
      result is handed to `reader`, in the order the server produced them. */
  function IterateThingMethod<S, T>(c: Client<S>, ss: Session<S>, iid: string, thingMethod: Payload, reader: Payload -> T): (r: Streamed<S, T>)
    ensures r.session.log == ss.log + [SentIter(ThingMethodIterReq(iid, thingMethod))]
    ensures var op := c.stream(ss.state, ThingMethodIterReq(iid, thingMethod));
      && r.session.state == op.state
      && |r.stream.items| == |op.stream.items|
      && (forall i :: 0 <= i < |r.stream.items| ==> r.stream.items[i] == reader(ThingIterResOf(op.stream.items[i])))
      && r.stream.end == op.stream.end
  {
    Iterate(c, ss, ThingMethodIterReq(iid, thingMethod), f => reader(ThingIterResOf(f)))
  }

  /** Iterates a method of the type with this label: each fragment's type-method
      result is handed to `reader`, in the order the server produced them. */
  function IterateTypeMethod<S, T>(c: Client<S>, ss: Session<S>, name: string, typeMethod: Payload, reader: Payload -> T): (r: Streamed<S, T>)
    ensures r.session.log == ss.log + [SentIter(TypeMethodIterReq(name, typeMethod))]
    ensures var op := c.stream(ss.state, TypeMethodIterReq(name, typeMethod));
      && r.session.state == op.state
      && |r.stream.items| == |op.stream.items|
      && (forall i :: 0 <= i < |r.stream.items| ==> r.stream.items[i] == reader(TypeIterResOf(op.stream.items[i])))
      && r.stream.end == op.stream.end
  {
    Iterate(c, ss, TypeMethodIterReq(name, typeMethod), f => reader(TypeIterResOf(f)))
  }
}
