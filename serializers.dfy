/**
  The serializer capability: Freeze turns the parameter map into the payload the
  driver stores, Thaw turns a payload back into a map; either may fail.
 */
module Serializers {
  import opened Wrappers
  import opened Params

  /** The serializer strategies the package provides (`datadumper`, a JSON codec). */
  datatype SerializerKind = DataDumper

  /**
    Strategy resolution by name: "datadumper", and the same for any unknown name.
    Since `SerializerKind` has the one value, the ensures holds of any result; it
    records the fallback rather than constraining it.
   */
  function ResolveSerializer(name: string): (k: SerializerKind)
    ensures k == DataDumper
  {
    if name == "datadumper" then DataDumper else DataDumper
  }

  /** A stored payload: the encoding of a map, or bytes no codec can decode. */
  datatype Payload = Frozen(m: Params) | Garbage

  /** The codec can encode every value of `m`. */
  predicate Encodable(m: Params) {
    forall k :: k in m ==> !m[k].Unencodable?
  }

  function Freeze(kind: SerializerKind, m: Params): Option<Payload> {
    match kind
    case DataDumper => if Encodable(m) then Some(Frozen(m)) else None
  }

  function Thaw(kind: SerializerKind, p: Payload): Option<Params> {
    match kind
    case DataDumper => if p.Frozen? then Some(p.m) else None
  }

  /** Freeze fails exactly on a map holding an unencodable value, and Thaw undoes Freeze. */
  lemma ThawFreeze(kind: SerializerKind, m: Params)
    ensures Freeze(kind, m).Some? <==> Encodable(m)
    ensures Freeze(kind, m).Some? ==> Thaw(kind, Freeze(kind, m).value) == Some(m)
  {
  }
}
