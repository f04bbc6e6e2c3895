/**
 * The few zod schemas the classifier is built from, as values, and what
 * `schema.safeParse(v).success` answers for each.
 */
module Zod {
  import opened JsValues

  datatype Schema =
    | Unknown                                  // z.unknown()
    | LiteralTrue                              // z.literal(true)
    | ArrayOf(element: Schema)                 // element.array()
    | Optional(inner: Schema)                  // inner.optional()
    | Object(shape: map<string, Schema>)       // z.object(shape), unknown keys stripped
    | Or(left: Schema, right: Schema)          // left.or(right)
    | External(accepts: JsValue -> bool)       // a schema defined outside this model

  /**
   * `s.safeParse(v).success`. An object schema accepts only plain objects
   * (not arrays, functions, null or thenables) and checks each key of its shape
   * against the value read at that key, a missing key reading as
   * `undefined`; keys outside the shape are ignored.
   */
  predicate Accepts(s: Schema, v: JsValue)
    decreases s
  {
    match s
    case Unknown => true
    case LiteralTrue => v == Bool(true)
    case ArrayOf(element) => v.Arr? && forall i :: 0 <= i < |v.items| ==> Accepts(element, v.items[i])
    case Optional(inner) => v.Undefined? || Accepts(inner, v)
    case Object(shape) => IsPlainObject(v) && forall k :: k in shape ==> Accepts(shape[k], Get(v, k))
    case Or(left, right) => Accepts(left, v) || Accepts(right, v)
    case External(accepts) => accepts(v)
  }

  /** `a.merge(b)`: the shapes are united, `b`'s entry winning on a shared key. */
  function Merge(a: Schema, b: Schema): (r: Schema)
    requires a.Object? && b.Object?
    ensures r.Object? && r.shape.Keys == a.shape.Keys + b.shape.Keys
  {
    Object(a.shape + b.shape)
  }

  /** Each key of a merged shape carries `b`'s schema when `b` defines the key, and `a`'s otherwise. */
  lemma MergeShape(a: Schema, b: Schema, k: string)
    requires a.Object? && b.Object? && k in a.shape.Keys + b.shape.Keys
    ensures k in Merge(a, b).shape
    ensures Merge(a, b).shape[k] == if k in b.shape then b.shape[k] else a.shape[k]
  {
  }

  /**
   * The merged schema accepts a plain object whose keys satisfy `b`'s
   * shape, and `a`'s shape on the keys `b` does not redefine.
   */
  lemma MergeAccepts(a: Schema, b: Schema, v: JsValue)
    requires a.Object? && b.Object?
    ensures Accepts(Merge(a, b), v) <==>
      && IsPlainObject(v)
      && (forall k :: k in b.shape ==> Accepts(b.shape[k], Get(v, k)))
      && (forall k :: k in a.shape && k !in b.shape ==> Accepts(a.shape[k], Get(v, k)))
  {
  }

  /** A one-key object schema accepts a plain object whose value at that key the inner schema accepts. */
  lemma SingleKeyAccepts(key: string, inner: Schema, v: JsValue)
    ensures Accepts(Object(map[key := inner]), v) <==> IsPlainObject(v) && Accepts(inner, Get(v, key))
  {
  }

  /** Merging two object schemas with disjoint shapes accepts exactly what both accept. */
  lemma MergeAcceptsBoth(a: Schema, b: Schema, v: JsValue)
    requires a.Object? && b.Object? && a.shape.Keys !! b.shape.Keys
    ensures Accepts(Merge(a, b), v) <==> Accepts(a, v) && Accepts(b, v)
  {
  }
}
