/**
 * The disconnected, serializable representation of resource properties.
 *
 * A `PropertyValue` is a closed variant. `Computed` means "not knowable until
 * some later resolution"; `Output` means "will be exactly this resource's own
 * eventual output". Both only wrap a placeholder conveying the intended shape.
 */
module Properties {

  datatype PropertyValue =
    | Null
    | Bool(b: bool)
    | Number(n: real)
    | String(s: string)
    | Array(elems: seq<PropertyValue>)
    | Object(props: map<string, PropertyValue>)
    | Computed(element: PropertyValue)
    | Output(element: PropertyValue)

  /** Property names to values. A Dafny map has no insertion order, so two maps
      built from the same entries in different orders are the same map. */
  type PropertyMap = map<string, PropertyValue>

  /** Null, Bool, Number or String. */
  predicate IsPrimitive(v: PropertyValue) {
    v.Null? || v.Bool? || v.Number? || v.String?
  }

  /** No Computed or Output anywhere in `v`: a value known in full. */
  predicate Resolved(v: PropertyValue) {
    match v
    case Computed(_) => false
    case Output(_) => false
    case Array(elems) => forall i | 0 <= i < |elems| :: Resolved(elems[i])
    case Object(props) => forall k | k in props :: Resolved(props[k])
    case _ => true
  }

  predicate ResolvedMap(m: PropertyMap) {
    forall k | k in m :: Resolved(m[k])
  }

  /** No Output anywhere in `v` (Computed may occur). */
  predicate NoOutput(v: PropertyValue) {
    match v
    case Output(_) => false
    case Computed(e) => NoOutput(e)
    case Array(elems) => forall i | 0 <= i < |elems| :: NoOutput(elems[i])
    case Object(props) => forall k | k in props :: NoOutput(props[k])
    case _ => true
  }

  /** `v` may itself be an Output, but nothing below its top level is. */
  predicate OutputOnlyAtTop(v: PropertyValue) {
    match v
    case Output(e) => NoOutput(e)
    case _ => NoOutput(v)
  }
}
