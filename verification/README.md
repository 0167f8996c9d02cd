# Concept facade of the transaction RPC layer — Dafny model

This project models `RPCConcepts`, the typed concept API of a TypeDB/Grakn client
transaction. Every operation turns one typed call into exactly one tagged
transaction request. The request goes through the transceiver, and the tagged
response union is decoded into one of three outcomes:

- a typed handle (entity, relation or attribute type, role type, rule, or thing);
- absence (the Java `null`);
- a failure.

The project also models two exceptions to that pattern. Rule creation is
deliberately disabled and sends nothing. Method calls and method iterations pass
the server's payloads through to the caller.

Modules, leaves first:

- `Wrappers` (wrappers.dfy): `Option` for absence and `Result` for failure. They are kept apart.
- `Concepts` (concepts.dfy): the handle kinds `Kind` and `ThingKind`, and the capability views (`View`).
  - `Admits` says which kinds implement which interface.
  - The file also holds the handles themselves and the error taxonomy.
- `Protocol` (protocol.dfy): requests, responses and iterator fragments as tagged unions.
  - The `...Of` accessors follow the protobuf getter rule: reading a case that is not set gives that sub-message's default.
- `Resolver` (resolver.dfy): kind-tag decoding of type and thing messages (`Type.Remote.of`, `Thing.Remote.of`).
  - `As` models the `asX()` narrowing, which fails with a type mismatch.
  - `Cast` models a Java reference cast, which fails with a class-cast error.
- `Transceiver` (transceiver.dfy): the transceiver seen abstractly.
  - A `Client<S>` bundles a unary link `(S, Request) -> Exchange<S>`, a stream link `(S, IterRequest) -> Opened<S>`, and the tracing metadata.
  - A `Session<S>` threads the server state and the client's log of sent requests. This is what lets the contracts say "exactly one request" and "no request".
- `RPCConcepts` (rpc_concepts.dfy): the facade operations.
- `Sessions` (sessions.dfy): a client's sequence of facade calls, and what the request log records about it: how many requests went out and which metadata each carried.
- `ReferenceServer` (reference_server.dfy): a concrete server used to state the facade's behaviour against an independent definition.
  - The schema is a map from label to kind.
  - A put inserts a free label and otherwise answers with the concept already there.

The `getEntityType` guard is modelled as written. The guard tests for any thing
type and the code then casts to an entity type. So a root, relation or attribute
type stored under the label is a class-cast failure, not absence. See "## Findings".

The design intent for this layer differs from the code in two places. The model follows the code in both:

- By design, a label of the wrong kind is absence for every narrowed lookup. In the code, `getEntityType` fails with a class cast for the thing-type kinds other than entity.
- By design, tracing metadata goes on every outbound request. In the code, only the put and get requests carry it. Method requests and iterator requests are built without metadata.

## Model

| member | source | states |
|---|---|---|
| RPCConcepts.GetType | rpc/RPCConcepts.java:173-188 | One GetType request is logged, carrying the label and the tracing metadata. A handle is returned exactly when the reply is a get-type response with the TYPE case set and a recognised encoding, and it is the decoded label and kind. A TYPE case with an unrecognised encoding fails closed. Every other reply case, RES_NOT_SET included, is absence. A transceiver error passes through unchanged. |
| RPCConcepts.GetThing | rpc/RPCConcepts.java:190-205 | One GetThing request is logged, carrying the iid and the tracing metadata. A thing handle is returned exactly when the THING case is set with a recognised encoding, and it has the decoded iid and kind. A THING case with an unrecognised encoding fails closed. Every other case is absence. A transceiver error passes through unchanged. |
| RPCConcepts.GetEntityType | rpc/RPCConcepts.java:94-103 | Found exactly when the looked-up kind is an entity type. A root, relation or attribute type under the label is a class-cast failure. A role type, a rule or a missing label is absence. The session is that of the single GetType lookup. |
| RPCConcepts.GetRelationType | rpc/RPCConcepts.java:115-124 | Found exactly when the looked-up kind is a relation type. Any other kind, or a missing label, is absence. The call fails only when the lookup itself failed. |
| RPCConcepts.GetAttributeType | rpc/RPCConcepts.java:137-146 | Found exactly when the looked-up kind is an attribute type. Any other kind, or a missing label, is absence. The call fails only when the lookup itself failed. |
| RPCConcepts.GetRule | rpc/RPCConcepts.java:162-171 | Found exactly when the looked-up kind is a rule. Any other kind, or a missing label, is absence. The call fails only when the lookup itself failed. |
| RPCConcepts.PutRule | rpc/RPCConcepts.java:148-160 | Always fails with an unsupported-operation error. The session, including the request log, is left unchanged, so nothing is sent. |
| RPCConcepts.GetRoot | rpc/RPCConcepts.java:53-81 | A root getter succeeds exactly when the lookup found a concept whose kind the requested view admits. A missing root is a null-dereference failure, never absence. A root of another kind is a type mismatch naming the view and the kind found. |
| RPCConcepts.GetRootType | rpc/RPCConcepts.java:53-56 | Looks up exactly the reserved label "thing" in one request. Any thing-type kind is accepted. A missing root is a null dereference. |
| RPCConcepts.GetRootEntityType | rpc/RPCConcepts.java:58-61 | Looks up exactly "entity" in one request and returns only an entity type. A missing root is a null dereference. |
| RPCConcepts.GetRootRelationType | rpc/RPCConcepts.java:63-66 | Looks up exactly "relation" in one request and returns only a relation type. A missing root is a null dereference. |
| RPCConcepts.GetRootAttributeType | rpc/RPCConcepts.java:68-71 | Looks up exactly "attribute" in one request and returns only an attribute type. A missing root is a null dereference. |
| RPCConcepts.GetRootRoleType | rpc/RPCConcepts.java:73-76 | Looks up exactly "role" in one request and returns only a role type. A missing root is a null dereference. |
| RPCConcepts.GetRootRule | rpc/RPCConcepts.java:78-81 | Looks up exactly "rule" in one request and returns only a rule. A missing root is a null dereference. |
| RPCConcepts.PutAndNarrow | rpc/RPCConcepts.java:84-91 | The put request goes out once, with the tracing metadata. The result is a handle exactly when the response carries a decodable type whose kind the requested view admits, and the handle is that decoded type. An undecodable type, including the default message of another response case, fails closed. A decoded kind the view rejects is the type mismatch of the `asX()` call. A transceiver error passes through unchanged. |
| RPCConcepts.PutEntityType | rpc/RPCConcepts.java:83-92 | One PutEntityType request with the label and the tracing metadata. Success exactly when the response is a put-entity-type response carrying an entity type. The handle returned is always an entity type. A response of another case fails closed as an undecodable type. A decoded type of another kind fails the `asEntityType()` narrowing with a type mismatch naming that kind. |
| RPCConcepts.PutRelationType | rpc/RPCConcepts.java:105-113 | One PutRelationType request with the label and the tracing metadata. Success exactly when the response is a put-relation-type response carrying a relation type. The handle returned is always a relation type. A response of another case fails closed as an undecodable type. A decoded type of another kind fails the `asRelationType()` narrowing with a type mismatch naming that kind. |
| RPCConcepts.PutAttributeType | rpc/RPCConcepts.java:126-135 | One PutAttributeType request with the label, the value type and the tracing metadata. Success exactly when the response is a put-attribute-type response carrying an attribute type. The handle returned is always an attribute type. A response of another case fails closed as an undecodable type. A decoded type of another kind fails the `asAttributeType()` narrowing with a type mismatch naming that kind. |
| RPCConcepts.RunThingMethod | rpc/RPCConcepts.java:207-215 | One request addressed to the iid, carrying the method and no metadata. The server's reply or error is returned unchanged. |
| RPCConcepts.RunTypeMethod | rpc/RPCConcepts.java:217-225 | One request addressed to the label, carrying the method and no metadata. The server's reply or error is returned unchanged. |
| RPCConcepts.IterateThingMethod | rpc/RPCConcepts.java:227-236 | One iterator request is logged. The caller gets one element per fragment, in server order: the reader applied to that fragment's thing-method result. The stream's ending is passed on unchanged. |
| RPCConcepts.IterateTypeMethod | rpc/RPCConcepts.java:238-247 | One iterator request is logged. The caller gets one element per fragment, in server order: the reader applied to that fragment's type-method result. The stream's ending is passed on unchanged. |
| Transceiver.SendAndReceive | rpc/RPCConcepts.java:90 | A unary exchange appends exactly its request to the log. It returns the link's reply, error included, without change. |
| Transceiver.Iterate | rpc/RPCConcepts.java:235 | An iteration appends exactly its iterator request to the log. It maps the reader over the fragments one by one, keeping order and count, and keeps the stream's ending. |
| Transceiver.MapSeq | rpc/RPCConcepts.java:235 | Mapping keeps length and order, and each output element is the reader applied to the matching fragment. |
| Transceiver.MapSeqPrefix | rpc/RPCConcepts.java:235 | The first k decoded elements depend only on the first k fragments. So what a consumer has pulled before closing is a prefix of the full decoded stream. |
| Resolver.ResolveType | rpc/RPCConcepts.java:183 | Decoding yields a handle exactly when the encoding is recognised. The handle has the message's label and kind. An unrecognised encoding fails closed. |
| Resolver.ResolveThing | rpc/RPCConcepts.java:200 | Decoding yields a thing handle exactly when the encoding is recognised. The handle has the message's iid and kind. An unrecognised encoding fails closed. |
| Resolver.ResolveEncodeRoundTrip | rpc/RPCConcepts.java:183 | Decoding inverts the server-side encoding, for types and for things. |
| Resolver.As | rpc/RPCConcepts.java:53-81 | An `asX()` narrowing returns the same handle exactly when its kind implements the view. Otherwise it is a type mismatch naming both. |
| Resolver.Cast | rpc/RPCConcepts.java:99 | A reference cast returns the same handle exactly when its kind implements the target. Otherwise it is a class-cast error naming both. |
| Protocol.GetTypeResOf | rpc/RPCConcepts.java:181-187 | The TYPE case is seen exactly when the response is a get-type response with that case set. Any other response reads as not set. |
| Protocol.GetThingResOf | rpc/RPCConcepts.java:198-204 | The THING case is seen exactly when the response is a get-thing response with that case set. Any other response reads as not set. |
| Protocol.PutEntityTypeResOf | rpc/RPCConcepts.java:91 | A put-entity-type response yields the entity type it carries, and a decodable type is read only out of one. Any other response yields the default message. |
| Protocol.PutRelationTypeResOf | rpc/RPCConcepts.java:112 | A put-relation-type response yields the relation type it carries, and a decodable type is read only out of one. Any other response yields the default message. |
| Protocol.PutAttributeTypeResOf | rpc/RPCConcepts.java:134 | A put-attribute-type response yields the attribute type it carries, and a decodable type is read only out of one. Any other response yields the default message. |
| Protocol.ThingIterResOf | rpc/RPCConcepts.java:235 | A fragment's thing-method result is read out of a thing-iterator fragment. Any other fragment yields the empty payload. |
| Protocol.TypeIterResOf | rpc/RPCConcepts.java:246 | A fragment's type-method result is read out of a type-iterator fragment. Any other fragment yields the empty payload. |
| ReferenceServer.GetTypeOnServer | rpc/RPCConcepts.java:173-188 | Against a schema: exactly one request is logged and the server is unchanged. A stored label is found with its stored kind. A missing label is absence, not an error. |
| ReferenceServer.GetThingOnServer | rpc/RPCConcepts.java:190-205 | Against stored data: exactly one request is logged. A stored iid is found with its kind. A missing iid is absence. |
| ReferenceServer.GetEntityTypeOnServer | rpc/RPCConcepts.java:94-103 | Against a schema, this is the three-way split of the guard: entity type found; root, relation or attribute type a class-cast failure; role type, rule or missing label absence. |
| ReferenceServer.NarrowedLookupsOnServer | rpc/RPCConcepts.java:115-171 | Against a schema, the relation, attribute and rule lookups each find the label exactly when it holds their kind. Otherwise they report absence and never fail. |
| ReferenceServer.GetRootOnServer | rpc/RPCConcepts.java:53-81 | Against a schema, a root getter sends one request and returns the root when its kind is admitted. A missing root is a null dereference and another kind is a type mismatch. |
| ReferenceServer.PutThenGetOnServer | rpc/RPCConcepts.java:83-146 | For each of the entity, relation and attribute puts: under a free label the put creates the type with that kind and logs one request. The matching narrowed lookup then finds the same handle. |
| ReferenceServer.PutTwiceOnServer | rpc/RPCConcepts.java:83-135 | For each of the three puts, two puts of one label return equal handles. The second put leaves the server as the first left it, and each put logs one request. |
| ReferenceServer.PutOverOtherKindOnServer | rpc/RPCConcepts.java:83-135 | For each of the three puts, a put over a label that holds another kind surfaces the server's concept. The put's `asX()` narrowing rejects it as a type mismatch, and the schema is unchanged. |
| ReferenceServer.PutRuleSendsNothing | rpc/RPCConcepts.java:148-171 | Rule creation fails even when the server would accept it. The session is unchanged and a following `getRule` still finds nothing. |
| Sessions.StepTraced | rpc/RPCConcepts.java:53-247 | Any single facade call appends no request for rule creation and exactly one otherwise. It keeps the earlier log. An added put or get request carries the client's tracing data, and an added method-call request carries empty metadata. |
| Sessions.RunCallsTraced | rpc/RPCConcepts.java:53-247 | Any sequence of facade calls appends one request per call other than rule creation and keeps the earlier log. Every put or get request it adds carries the client's tracing data, and every method-call request it adds carries empty metadata. |
| Sessions.MethodCallsIgnoreTracing | rpc/RPCConcepts.java:207-225 | Two clients that differ only in their tracing data make identical thing and type method calls, request and reply alike. Their type lookups log different requests. |
| ReferenceServer.GetEntityTypeMiscastWitness | rpc/RPCConcepts.java:96-103 | With a relation type stored under "person", the code as written fails with a class cast where the intended lookup reports absence. |
| RPCConcepts.GetEntityTypeIntended | rpc/RPCConcepts.java:96-103 | The lookup with the guard it evidently meant: found exactly for entity types, absence for every other kind, and a failure only when the lookup failed. |
| ReferenceServer.GetEntityTypeIntendedOnServer | rpc/RPCConcepts.java:96-103 | Against a schema, the intended lookup finds exactly the entity types and never fails. |

## Left out

- Transceiver internals: correlation tokens, the response router, blocking, concurrency and stream cancellation. These are concurrency mechanics. The transceiver is an abstract stateful link, and a stream is modelled as the fragments a consumer would pull plus how the stream ended.
- Laziness of `Stream<T>`: elements are computed when pulled. The model maps the whole fragment sequence, and `MapSeqPrefix` states that a pulled prefix only depends on the fragments before it.
- `tracingData()` contents: a parameter of the `Client`, attached as given.
- `ConceptProtoBuilder.iid` and `valueType` conversions: the iid is carried as its string form and the value type as an opaque tag.
- Internals of `Type.Remote.of`, `Thing.Remote.of` and the `asX()` methods: modelled as a kind-tag dispatch (`ResolveType`, `ResolveThing`) and a narrowing that fails on mismatch (`As`).
- Protobuf default type message: a put whose reply is of another case reads the default type message. The protocol's enum is not part of this model, so the model gives that message an unrecognised encoding, which the resolver rejects.
- `Pattern` and the commented-out rule request: query text is an opaque string and the disabled request body is dead code.
- Exception classes: `GraknException`, `ClassCastException` and `NullPointerException` become the `Error` tags `TypeMismatch`, `UnsupportedOperation`, `ClassCast` and `NullDereference`.
- The constructor of `RPCConcepts`: it only stores the transceiver, which is the `Client` value here.
- RPCConcepts.GetRootType, RPCConcepts.GetRootEntityType, RPCConcepts.GetRootRelationType, RPCConcepts.GetRootAttributeType, RPCConcepts.GetRootRoleType, RPCConcepts.GetRootRule: these getters' own contracts state only the label sent, the kind returned and the null dereference. The full case split is stated once, on `GetRoot`, which each of them is.
- The reference server's conflict policy (a put over a taken label returns the existing concept) and its empty method results are illustrative. The server side is out of scope.

## Findings

| source | as written | input that shows it | evidently intended | confidence | as-written member | corrected member |
|---|---|---|---|---|---|---|
| rpc/RPCConcepts.java:98-99 | `getEntityType` guards on `instanceof ThingType.Remote` and then casts to `EntityType.Remote` | label "person" stored as a relation type: the cast throws a class-cast error | guard on `EntityType.Remote`, so that any other kind is absence as in the sibling lookups | not executed; medium (the shape of the three sibling lookups) | ReferenceServer.GetEntityTypeMiscastWitness | RPCConcepts.GetEntityTypeIntended |
