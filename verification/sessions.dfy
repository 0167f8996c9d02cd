/** A client's sequence of facade calls on one transaction, and what the
    request log records about it: how many requests went out and which
    metadata each one carried. */
module Sessions {
  import opened Concepts
  import opened Protocol
  import opened Transceiver
  import opened RPCConcepts

  /** One call of the facade, with its arguments. Iterations are read with
      the identity reader, since the log does not depend on the reader. */
  datatype Call =
    | GetRootCall(view: View)
    | PutEntityTypeCall(name: string)
    | PutRelationTypeCall(name: string)
    | PutAttributeTypeCall(name: string, valueType: ValueType)
    | PutRuleCall(name: string, whenPattern: Pattern, thenPattern: Pattern)
    | GetEntityTypeCall(name: string)
    | GetRelationTypeCall(name: string)
    | GetAttributeTypeCall(name: string)
    | GetRuleCall(name: string)
    | GetTypeCall(name: string)
    | GetThingCall(iid: string)
    | RunThingMethodCall(iid: string, thingMethod: Payload)
    | RunTypeMethodCall(name: string, typeMethod: Payload)
    | IterateThingMethodCall(iid: string, thingIterMethod: Payload)
    | IterateTypeMethodCall(name: string, typeIterMethod: Payload)

  /** The session after one call. */
  function Step<S>(c: Client<S>, ss: Session<S>, call: Call): Session<S>
  {
    match call
    case GetRootCall(v) =>
      (match v
       case ThingTypeView => GetRootType(c, ss).session
       case EntityTypeView => GetRootEntityType(c, ss).session
       case RelationTypeView => GetRootRelationType(c, ss).session
       case AttributeTypeView => GetRootAttributeType(c, ss).session
       case RoleTypeView => GetRootRoleType(c, ss).session
       case RuleView => GetRootRule(c, ss).session)
    case PutEntityTypeCall(n) => PutEntityType(c, ss, n).session
    case PutRelationTypeCall(n) => PutRelationType(c, ss, n).session
    case PutAttributeTypeCall(n, vt) => PutAttributeType(c, ss, n, vt).session
    case PutRuleCall(n, w, t) => PutRule(c, ss, n, w, t).session
    case GetEntityTypeCall(n) => GetEntityType(c, ss, n).session
    case GetRelationTypeCall(n) => GetRelationType(c, ss, n).session
    case GetAttributeTypeCall(n) => GetAttributeType(c, ss, n).session
    case GetRuleCall(n) => GetRule(c, ss, n).session
    case GetTypeCall(n) => GetType(c, ss, n).session
    case GetThingCall(i) => GetThing(c, ss, i).session
    case RunThingMethodCall(i, m) => RunThingMethod(c, ss, i, m).session
    case RunTypeMethodCall(n, m) => RunTypeMethod(c, ss, n, m).session
    case IterateThingMethodCall(i, m) => IterateThingMethod(c, ss, i, m, (p: Payload) => p).session
    case IterateTypeMethodCall(n, m) => IterateTypeMethod(c, ss, n, m, (p: Payload) => p).session
  }

  /** The session after the calls, made in order. */
  function RunCalls<S>(c: Client<S>, ss: Session<S>, calls: seq<Call>): Session<S>
    decreases |calls|
  {
    if calls == [] then ss else RunCalls(c, Step(c, ss, calls[0]), calls[1..])
  }

  /** How many requests a call puts on the channel: none for rule creation,
      one for everything else. */
  function Sends(call: Call): nat
  {
    if call.PutRuleCall? then 0 else 1
  }

  /** How many requests the calls put on the channel. */
  function TotalSends(calls: seq<Call>): nat
  {
    if calls == [] then 0 else Sends(calls[0]) + TotalSends(calls[1..])
  }

  /** Whether a logged request carries the metadata its operation calls for:
      the client's tracing data on a put or get, nothing on a method call.
      Iterator requests have no metadata to carry. */
  predicate WellTraced(tracing: Metadata, s: Sent)
  {
    match s
    case SentUnary(req) => req.metadata == if Traced(req.body) then tracing else map[]
    case SentIter(_) => true
  }

  /** Whether `log` is `before` followed by well-traced requests only. */
  predicate ExtendsTraced(tracing: Metadata, before: seq<Sent>, log: seq<Sent>)
  {
    && |before| <= |log|
    && log[..|before|] == before
    && forall i :: |before| <= i < |log| ==> WellTraced(tracing, log[i])
  }

  /** One call appends exactly `Sends(call)` requests to the log, each with
      the metadata its operation calls for. */
  lemma StepTraced<S>(c: Client<S>, ss: Session<S>, call: Call)
    ensures |Step(c, ss, call).log| == |ss.log| + Sends(call)
    ensures ExtendsTraced(c.tracing, ss.log, Step(c, ss, call).log)
  {
  }

  /** Any sequence of calls appends exactly one request per call other than
      rule creation, keeps what was logged before, and every request it adds
      carries the tracing data if and only if it is a put or a get. */
  lemma {:induction false} RunCallsTraced<S>(c: Client<S>, ss: Session<S>, calls: seq<Call>)
    ensures |RunCalls(c, ss, calls).log| == |ss.log| + TotalSends(calls)
    ensures ExtendsTraced(c.tracing, ss.log, RunCalls(c, ss, calls).log)
    decreases |calls|
  {
    if calls != [] {
      var mid := Step(c, ss, calls[0]);
      StepTraced(c, ss, calls[0]);
      RunCallsTraced(c, mid, calls[1..]);
      var out := RunCalls(c, mid, calls[1..]).log;
      assert out[..|mid.log|] == mid.log;
      assert out[..|ss.log|] == mid.log[..|ss.log|];
      forall i | |ss.log| <= i < |out|
        ensures WellTraced(c.tracing, out[i])
      {
        if i < |mid.log| {
          assert out[i] == mid.log[i];
        }
      }
    }
  }

  /** Tracing data reaches the channel only through puts and gets: two
      clients that differ only in their tracing data make identical method
      calls, while their type lookups log different requests. */
  lemma MethodCallsIgnoreTracing<S>(c: Client<S>, ss: Session<S>, tracing: Metadata, iid: string, name: string, m: Payload)
    ensures RunThingMethod(c.(tracing := tracing), ss, iid, m) == RunThingMethod(c, ss, iid, m)
    ensures RunTypeMethod(c.(tracing := tracing), ss, name, m) == RunTypeMethod(c, ss, name, m)
    ensures tracing != c.tracing ==>
              GetType(c.(tracing := tracing), ss, name).session.log != GetType(c, ss, name).session.log
  {
    if tracing != c.tracing {
      var a := GetType(c.(tracing := tracing), ss, name).session.log;
      var b := GetType(c, ss, name).session.log;
      assert a[|ss.log|].request.metadata != b[|ss.log|].request.metadata;
    }
  }
}
