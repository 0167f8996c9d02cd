/** A reference server to read the facade against: the schema is a map from
    label to kind, the data a map from iid to thing kind. A put creates the
    label with the requested kind when it is free and otherwise answers with
    whatever concept already holds it; a get answers with the stored concept
    or leaves the result case unset. Method calls answer with empty results. */
module ReferenceServer {
  import opened Wrappers
  import opened Concepts
  import opened Protocol
  import opened Resolver
  import opened Transceiver
  import opened RPCConcepts

  datatype Server = Server(types: map<string, Kind>, things: map<string, ThingKind>)

  /** The schema after a put of `name` as kind `k`: unchanged when the label
      is taken, extended by it otherwise. */
  function Upsert(srv: Server, name: string, k: Kind): (s: Server)
    ensures name in s.types
    ensures name in srv.types ==> s == srv
    ensures name !in srv.types ==> s.types[name] == k && s.things == srv.things
  {
    if name in srv.types then srv else srv.(types := srv.types[name := k])
  }

  /** The type message describing label `name` in a schema that holds it. */
  function Stored(srv: Server, name: string): TypeProto
    requires name in srv.types
  {
    EncodeType(TypeHandle(name, srv.types[name]))
  }

  /** The server's answer to one unary request. */
  function Serve(srv: Server, req: Request): Exchange<Server>
  {
    match req.body
    case PutEntityTypeReq(n) =>
      var s := Upsert(srv, n, EntityType); Exchange(s, Success(PutEntityTypeRes(Stored(s, n))))
    case PutRelationTypeReq(n) =>
      var s := Upsert(srv, n, RelationType); Exchange(s, Success(PutRelationTypeRes(Stored(s, n))))
    case PutAttributeTypeReq(n, _) =>
      var s := Upsert(srv, n, AttributeType); Exchange(s, Success(PutAttributeTypeRes(Stored(s, n))))
    case GetTypeReq(n) =>
      Exchange(srv, Success(GetTypeRes(if n in srv.types then TypeCase(Stored(srv, n)) else TypeNotSet)))
    case GetThingReq(i) =>
      Exchange(srv, Success(GetThingRes(
        if i in srv.things then ThingCase(EncodeThing(ThingHandle(i, srv.things[i]))) else ThingNotSet)))
    case ThingMethodReq(_, _) => Exchange(srv, Success(ConceptMethodThingRes(EmptyPayload)))
    case TypeMethodReq(_, _) => Exchange(srv, Success(ConceptMethodTypeRes(EmptyPayload)))
  }

  /** The server's answer to an iterator request: no fragments. */
  function ServeIter(srv: Server, req: IterRequest): Opened<Server>
  {
    Opened(srv, Fragments([], None))
  }

  /** A facade bound to the reference server. */
  function Ref(tracing: Metadata): Client<Server>
  {
    Client(Serve, ServeIter, tracing)
  }

  /** A type lookup sends one request, changes nothing on the server, and
      finds exactly what the schema holds; a missing label is absence. */
  lemma GetTypeOnServer(tracing: Metadata, srv: Server, log: seq<Sent>, name: string)
    ensures GetType(Ref(tracing), Session(srv, log), name).session
         == Session(srv, log + [SentUnary(Request(tracing, GetTypeReq(name)))])
    ensures name in srv.types ==>
              GetType(Ref(tracing), Session(srv, log), name).result == Success(Some(TypeHandle(name, srv.types[name])))
    ensures name !in srv.types ==>
              GetType(Ref(tracing), Session(srv, log), name).result == Success(None)
  {
  }

  /** A thing lookup finds exactly what the data holds; a missing iid is absence. */
  lemma GetThingOnServer(tracing: Metadata, srv: Server, log: seq<Sent>, iid: string)
    ensures GetThing(Ref(tracing), Session(srv, log), iid).session
         == Session(srv, log + [SentUnary(Request(tracing, GetThingReq(iid)))])
    ensures iid in srv.things ==>
              GetThing(Ref(tracing), Session(srv, log), iid).result == Success(Some(ThingHandle(iid, srv.things[iid])))
    ensures iid !in srv.things ==>
              GetThing(Ref(tracing), Session(srv, log), iid).result == Success(None)
  {
  }

  /** `getEntityType` against the schema: an entity type is found, a root,
      relation or attribute type under the label is a class-cast failure, and
      a role type, a rule or a free label is absence. */
  lemma GetEntityTypeOnServer(tracing: Metadata, srv: Server, log: seq<Sent>, name: string)
    ensures var r := GetEntityType(Ref(tracing), Session(srv, log), name).result;
      && (r == Success(Some(TypeHandle(name, EntityType))) <==> name in srv.types && srv.types[name] == EntityType)
      && (r.Failure? <==> name in srv.types && MiscastByGetEntityType(srv.types[name]))
      && (name in srv.types && MiscastByGetEntityType(srv.types[name]) ==>
            r == Failure(ClassCast(EntityTypeView, srv.types[name])))
      && (r == Success(None) <==> name !in srv.types || srv.types[name] in {RoleType, Rule})
  {
  }

  /** The other narrowed lookups against the schema: found exactly when the
      label holds the matching kind, absence otherwise, never a failure. */
  lemma NarrowedLookupsOnServer(tracing: Metadata, srv: Server, log: seq<Sent>, name: string)
    ensures GetRelationType(Ref(tracing), Session(srv, log), name).result
         == if name in srv.types && srv.types[name] == RelationType
            then Success(Some(TypeHandle(name, RelationType))) else Success(None)
    ensures GetAttributeType(Ref(tracing), Session(srv, log), name).result
         == if name in srv.types && srv.types[name] == AttributeType
            then Success(Some(TypeHandle(name, AttributeType))) else Success(None)
    ensures GetRule(Ref(tracing), Session(srv, log), name).result
         == if name in srv.types && srv.types[name] == Rule
            then Success(Some(TypeHandle(name, Rule))) else Success(None)
  {
  }

  /** A root getter against the schema: the root is returned when its reserved
      label holds a kind the getter accepts; a missing root is a null
      dereference, never absence; a root of another kind is a type mismatch. */
  lemma GetRootOnServer(tracing: Metadata, srv: Server, log: seq<Sent>, name: string, view: View)
    ensures var r := GetRoot(Ref(tracing), Session(srv, log), name, view);
      && r.session == Session(srv, log + [SentUnary(Request(tracing, GetTypeReq(name)))])
      && (name !in srv.types ==> r.result == Failure(NullDereference))
      && (name in srv.types && Admits(view, srv.types[name]) ==>
            r.result == Success(TypeHandle(name, srv.types[name])))
      && (name in srv.types && !Admits(view, srv.types[name]) ==>
            r.result == Failure(TypeMismatch(view, srv.types[name])))
  {
  }

  /** The kinds a put operation creates. */
  predicate Puttable(k: Kind)
  {
    k == EntityType || k == RelationType || k == AttributeType
  }

  /** The view a put of kind `k` narrows its answer to. */
  function PutView(k: Kind): View
  {
    match k
    case EntityType => EntityTypeView
    case RelationType => RelationTypeView
    case _ => AttributeTypeView
  }

  /** The put operation that creates kind `k`. */
  function PutOfKind(c: Client<Server>, ss: Session<Server>, k: Kind, name: string, valueType: ValueType): Reply<Server, TypeHandle>
    requires Puttable(k)
  {
    match k
    case EntityType => PutEntityType(c, ss, name)
    case RelationType => PutRelationType(c, ss, name)
    case _ => PutAttributeType(c, ss, name, valueType)
  }

  /** The narrowed lookup for kind `k`. */
  function LookupOfKind(c: Client<Server>, ss: Session<Server>, k: Kind, name: string): Reply<Server, Option<TypeHandle>>
    requires Puttable(k)
  {
    match k
    case EntityType => GetEntityType(c, ss, name)
    case RelationType => GetRelationType(c, ss, name)
    case _ => GetAttributeType(c, ss, name)
  }

  /** A put under a free label creates the type with the requested kind and
      logs one request; the matching narrowed lookup then finds the same handle. */
  lemma PutThenGetOnServer(tracing: Metadata, srv: Server, log: seq<Sent>, k: Kind, name: string, valueType: ValueType)
    requires Puttable(k) && name !in srv.types
    ensures var p := PutOfKind(Ref(tracing), Session(srv, log), k, name, valueType);
      && p.result == Success(TypeHandle(name, k))
      && p.session.state == srv.(types := srv.types[name := k])
      && |p.session.log| == |log| + 1
      && LookupOfKind(Ref(tracing), p.session, k, name).result == Success(Some(p.result.value))
  {
  }

  /** Two puts of one label and kind return equal handles, and the second
      leaves the schema as the first one left it; each logs one request. */
  lemma PutTwiceOnServer(tracing: Metadata, srv: Server, log: seq<Sent>, k: Kind, name: string, valueType: ValueType)
    requires Puttable(k)
    ensures var p1 := PutOfKind(Ref(tracing), Session(srv, log), k, name, valueType);
            var p2 := PutOfKind(Ref(tracing), p1.session, k, name, valueType);
      && p2.result == p1.result
      && p2.session.state == p1.session.state
      && |p2.session.log| == |log| + 2
  {
  }

  /** A put under a label that holds another kind surfaces the server's
      concept, which the put's narrowing rejects; the schema is unchanged. */
  lemma PutOverOtherKindOnServer(tracing: Metadata, srv: Server, log: seq<Sent>, k: Kind, name: string, valueType: ValueType)
    requires Puttable(k) && name in srv.types && srv.types[name] != k
    ensures var p := PutOfKind(Ref(tracing), Session(srv, log), k, name, valueType);
      && p.result == Failure(TypeMismatch(PutView(k), srv.types[name]))
      && p.session.state == srv
  {
  }

  /** Rule creation leaves the schema and the log untouched, even against a
      server that would accept the rule. */
  lemma PutRuleSendsNothing(tracing: Metadata, srv: Server, log: seq<Sent>, name: string, whenPattern: Pattern, thenPattern: Pattern)
    requires name !in srv.types
    ensures var p := PutRule(Ref(tracing), Session(srv, log), name, whenPattern, thenPattern);
      && p.session == Session(srv, log)
      && p.result.Failure?
      && GetRule(Ref(tracing), p.session, name).result == Success(None)
  {
  }

  /** The `getEntityType` guard in action: with a relation type stored under
      "person", the code as written fails with a class-cast error where the
      intended lookup reports absence. */
  lemma GetEntityTypeMiscastWitness(tracing: Metadata, log: seq<Sent>)
    ensures var srv := Server(map["person" := RelationType], map[]);
      && GetEntityType(Ref(tracing), Session(srv, log), "person").result == Failure(ClassCast(EntityTypeView, RelationType))
      && GetEntityTypeIntended(Ref(tracing), Session(srv, log), "person").result == Success(None)
  {
  }

  /** Against the schema, the intended `getEntityType` never fails: it finds
      exactly the entity types and reports every other label as absent. */
  lemma GetEntityTypeIntendedOnServer(tracing: Metadata, srv: Server, log: seq<Sent>, name: string)
    ensures GetEntityTypeIntended(Ref(tracing), Session(srv, log), name).result
         == if name in srv.types && srv.types[name] == EntityType
            then Success(Some(TypeHandle(name, EntityType))) else Success(None)
  {
  }
}
