/** Client-side concept handles, the capability views they can be narrowed to,
    and the errors the concept facade can surface. */
module Concepts {

  /** The kind of a schema concept named by a label. `ThingTypeRoot` is the
      root `thing` type: a thing type that is none of the three sub-kinds. */
  datatype Kind = ThingTypeRoot | EntityType | RelationType | AttributeType | RoleType | Rule

  /** The kind of an instance-level concept named by an iid. */
  datatype ThingKind = Entity | Relation | Attribute

  /** The value type of an attribute type, carried as an opaque tag. */
  datatype ValueType = ValueType(name: string)

  /** The capability interfaces a type handle is tested against (`instanceof`),
      cast to, or narrowed to with an `asX()` call. */
  datatype View = ThingTypeView | EntityTypeView | RelationTypeView | AttributeTypeView | RoleTypeView | RuleView

  /** Whether a concept of kind `k` implements the interface of view `v`:
      every entity, relation and attribute type, and the root, is a thing type;
      every other view is implemented by exactly one kind. */
  predicate Admits(v: View, k: Kind) {
    match v
    case ThingTypeView => k == ThingTypeRoot || k == EntityType || k == RelationType || k == AttributeType
    case EntityTypeView => k == EntityType
    case RelationTypeView => k == RelationType
    case AttributeTypeView => k == AttributeType
    case RoleTypeView => k == RoleType
    case RuleView => k == Rule
  }

  /** The kinds that pass a thing-type `instanceof` test but are not entity
      types: the ones a cast to an entity type rejects after that test. */
  predicate MiscastByGetEntityType(k: Kind)
  {
    Admits(ThingTypeView, k) && !Admits(EntityTypeView, k)
  }

  /** A remote type proxy: the label (`name`) is its identity, the kind is decided by the server. */
  datatype TypeHandle = TypeHandle(name: string, kind: Kind)

  /** A remote thing proxy: the iid is its identity. */
  datatype ThingHandle = ThingHandle(iid: string, kind: ThingKind)

  /** What can go wrong in the facade. `Transport` and `Remote` come from the
      transceiver and are passed through; `TypeMismatch` is a failed `asX()`
      narrowing; `ClassCast` is a failed Java cast; `NullDereference` is a
      method call on a `null` lookup result; `UnrecognisedEncoding` is a type
      or thing message whose kind the decoder does not know. */
  datatype Error =
    | Transport
    | Remote(message: string)
    | TypeMismatch(view: View, actual: Kind)
    | ClassCast(target: View, found: Kind)
    | UnsupportedOperation
    | NullDereference
    | UnrecognisedEncoding
}
