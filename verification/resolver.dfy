/** The concept resolver: turns a type or thing message into a typed handle by
    the kind tag the server put in it, and narrows handles to capability views. */
module Resolver {
  import opened Wrappers
  import opened Concepts
  import opened Protocol

  /** Decodes a type message. An encoding with no case fails closed. */
  function ResolveType(p: TypeProto): (r: Result<TypeHandle, Error>)
    ensures r.Success? <==> p.encoding.Known?
    ensures r.Success? ==> r.value.name == p.name && r.value.kind == p.encoding.kind
    ensures r.Failure? ==> r.error == UnrecognisedEncoding
  {
    match p.encoding
    case Known(k) => Success(TypeHandle(p.name, k))
    case Unrecognised => Failure(UnrecognisedEncoding)
  }

  /** Decodes a thing message. An encoding with no case fails closed. */
  function ResolveThing(p: ThingProto): (r: Result<ThingHandle, Error>)
    ensures r.Success? <==> p.encoding.ThingKnown?
    ensures r.Success? ==> r.value.iid == p.iid && r.value.kind == p.encoding.kind
    ensures r.Failure? ==> r.error == UnrecognisedEncoding
  {
    match p.encoding
    case ThingKnown(k) => Success(ThingHandle(p.iid, k))
    case ThingUnrecognised => Failure(UnrecognisedEncoding)
  }

  /** How a server encodes a type handle on the wire. */
  function EncodeType(h: TypeHandle): (p: TypeProto)
    ensures p.encoding.Known?
  {
    TypeProto(h.name, Known(h.kind))
  }

  /** How a server encodes a thing handle on the wire. */
  function EncodeThing(h: ThingHandle): (p: ThingProto)
    ensures p.encoding.ThingKnown?
  {
    ThingProto(h.iid, ThingKnown(h.kind))
  }

  /** Decoding inverts encoding, for types and things alike. */
  lemma ResolveEncodeRoundTrip(h: TypeHandle, t: ThingHandle)
    ensures ResolveType(EncodeType(h)) == Success(h)
    ensures ResolveThing(EncodeThing(t)) == Success(t)
  {
  }

  /** An `asX()` narrowing: the same handle when its kind implements the view,
      otherwise a type-mismatch error naming both. */
  function As(h: TypeHandle, v: View): (r: Result<TypeHandle, Error>)
    ensures r.Success? <==> Admits(v, h.kind)
    ensures r.Success? ==> r.value == h
    ensures r.Failure? ==> r.error == TypeMismatch(v, h.kind)
  {
    if Admits(v, h.kind) then Success(h) else Failure(TypeMismatch(v, h.kind))
  }

  /** A Java reference cast: the same handle when its kind implements the
      target interface, otherwise a class-cast error. */
  function Cast(h: TypeHandle, v: View): (r: Result<TypeHandle, Error>)
    ensures r.Success? <==> Admits(v, h.kind)
    ensures r.Success? ==> r.value == h
    ensures r.Failure? ==> r.error == ClassCast(v, h.kind)
  {
    if Admits(v, h.kind) then Success(h) else Failure(ClassCast(v, h.kind))
  }
}
