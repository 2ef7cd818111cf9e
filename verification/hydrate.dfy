/**
 * Hydration: writing a `PropertyMap` back onto a runtime object
 * (setRuntimeProperties and createRuntimeProperty in
 * pkg/resource/resource_object.go).
 *
 * Only a destination property that is absent or currently null is written; a
 * destination that already holds a value keeps it and the incoming value is
 * dropped. Only resolved values can be turned into runtime objects: a Computed
 * or Output value that would be written stops hydration.
 */
module Hydrate {
  import opened Contract
  import opened Properties
  import opened Runtime

  /** Hydration writes key `k` of `obj` exactly when that property is absent or
      null (an absent property is created as null before the check). */
  predicate Writable(obj: RtObject, k: string) {
    k !in obj.props || IsNull(obj.props[k])
  }

  /** createRuntimeProperty: builds a fresh runtime object for a property value.
      Arrays and objects become dynamic arrays and dynamic object literals. */
  function CreateRuntimeProperty(v: PropertyValue): (r: Result<RtObject>)
    ensures r.Ok? <==> Resolved(v)
    ensures r.Ok? ==> WellFormed(r.value)
    decreases v, 1
  {
    match v
    case Null => Ok(NullObject)
    case Bool(b) => Ok(BoolObject(b))
    case Number(n) => Ok(NumberObject(n))
    case String(s) => Ok(StringObject(s))
    case Array(elems) =>
      if exists i | 0 <= i < |elems| :: CreateRuntimeProperty(elems[i]).Err? then
        Err(Unhydratable)
      else
        Ok(ArrayObject(DynamicType, seq(|elems|, i requires 0 <= i < |elems| => CreateRuntimeProperty(elems[i]).value)))
    case Object(props) => SetRuntimeProperties(EmptyObject(DynamicType), props)
    case Computed(_) => Err(Unhydratable)
    case Output(_) => Err(Unhydratable)
  }

  /** setRuntimeProperties: stores every value of `props` whose destination on
      `obj` is writable; other properties of `obj` are left as they are. */
  function SetRuntimeProperties(obj: RtObject, props: PropertyMap): (r: Result<RtObject>)
    ensures r.Ok? <==> forall k | k in props && Writable(obj, k) :: Resolved(props[k])
    ensures r.Ok? ==> r.value.ty == obj.ty && r.value.value == obj.value
    ensures r.Ok? ==> r.value.props.Keys == obj.props.Keys + props.Keys
    ensures r.Ok? ==> forall k | k in obj.props && !Writable(obj, k) :: r.value.props[k] == obj.props[k]
    ensures r.Ok? ==> forall k | k in obj.props && k !in props :: r.value.props[k] == obj.props[k]
    ensures r.Ok? && WellFormed(obj) ==> WellFormed(r.value)
    decreases Object(props), 0
  {
    if exists k | k in props && Writable(obj, k) :: CreateRuntimeProperty(props[k]).Err? then
      Err(Unhydratable)
    else
      Ok(obj.(props := map k | k in obj.props.Keys + props.Keys ::
                         if k in props && Writable(obj, k) then CreateRuntimeProperty(props[k]).value
                         else obj.props[k]))
  }
}
