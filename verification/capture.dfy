/**
 * Capture: turning a live runtime object graph into a disconnected
 * `PropertyMap` (copyObjectProperty, copyObject, copyObjectProperties in
 * pkg/resource/resource_object.go).
 *
 * Capture is type-directed. Resource references collapse to the referenced
 * resource's ID, primitives map one to one, objects, maps and class instances
 * recurse into their properties, arrays recurse element-wise, and computed
 * values become `Output` or `Computed` placeholders. `resobj` is the identity
 * of the resource being captured at the top level; every nested capture passes
 * `None`, as the Go code passes nil.
 */
module Capture {
  import opened Contract
  import opened Properties
  import opened Runtime

  /** The property that holds a resource's provider-assigned ID. */
  const IDProperty: string := "id"

  /** The ID property of a resource object, if it has one. An ID property that
      is neither a string nor computed breaks the object's invariant. */
  function GetIDObject(obj: RtObject): (r: Result<Option<RtObject>>)
    requires IsResourceObject(obj)
    ensures r.Ok? && r.value.Some? <==>
              IDProperty in obj.props && (IsString(obj.props[IDProperty]) || IsComputed(obj.props[IDProperty]))
    ensures r.Ok? && r.value.Some? ==> r.value.value == obj.props[IDProperty]
    ensures r == Ok(None) <==> IDProperty !in obj.props
  {
    if IDProperty in obj.props then
      var id := obj.props[IDProperty];
      if IsString(id) || IsComputed(id) then Ok(Some(id)) else Err(MalformedID)
    else
      Ok(None)
  }

  /** The rule that tells an output property from a computed one: a computation
      with no free expression whose single source is the resource being
      captured. */
  predicate IsOutputOf(resobj: Option<Ref>, comp: ComputedValue) {
    !comp.expr && |comp.sources| == 1 && resobj == Some(comp.sources[0])
  }

  /** The placeholder a computed value of element type `elem` wraps, when the
      element type is one capture knows. */
  function ZeroValue(elem: Type): Option<PropertyValue> {
    match elem
    case NullType => Some(Null)
    case BoolType => Some(Bool(false))
    case NumberType => Some(Number(0.0))
    case StringType => Some(String(""))
    case ObjectType => Some(Object(map[]))
    case DynamicType => Some(Object(map[]))
    case ArrayType(_) => Some(Array([]))
    case ClassType(_, _) => Some(Object(map[]))
    case _ => None
  }

  /** The value stored for a function-typed property: Go's zero `PropertyValue`,
      whose payload is nil, which is the null property value. */
  const FunctionPlaceholder: PropertyValue := Null

  /** Types whose values capture into an `Object` of their captured properties. */
  predicate IsObjectLike(t: Type) {
    t == ObjectType || t == DynamicType || t.MapType? || (t.ClassType? && !t.resource)
  }

  /** When capture of `o` succeeds, stated independently of how it proceeds:
      every reachable value is of a type capture knows, every reachable
      resource reference has a well-formed ID, and every reachable computed
      value has an element type with a placeholder. */
  predicate Serializable(o: RtObject) {
    if IsResourceType(o.ty) then
      IDProperty in o.props ==> IsString(o.props[IDProperty]) || IsComputed(o.props[IDProperty])
    else if IsObjectLike(o.ty) then
      forall k | k in o.props :: Serializable(o.props[k])
    else if o.ty.ArrayType? then
      o.value.ArrayValue? && forall i | 0 <= i < |o.value.elems| :: Serializable(o.value.elems[i])
    else if o.ty.ComputedType? then
      ZeroValue(o.ty.element).Some?
    else
      !o.ty.OtherType?
  }

  /** Collapses a reference to another resource into that resource's ID, or into
      a computed string while the ID is not known yet. */
  function ReferenceProperty(o: RtObject): (r: Result<PropertyValue>)
    requires IsResourceObject(o) && WellFormed(o)
    ensures r.Ok? <==> (IDProperty in o.props ==> IsString(o.props[IDProperty]) || IsComputed(o.props[IDProperty]))
    ensures r.Ok? && IDProperty in o.props && IsString(o.props[IDProperty]) ==>
              r.value.String? && o.props[IDProperty].value == StringValue(r.value.s)
    ensures r.Ok? && (IDProperty !in o.props || IsComputed(o.props[IDProperty])) ==>
              r.value == Computed(String(""))
  {
    match GetIDObject(o)
    case Err(_) => Err(Unserializable)
    case Ok(idobj) =>
      if idobj.Some? && IsString(idobj.value) then
        assert WellFormed(o.props[IDProperty]);
        Ok(String(idobj.value.value.s))
      else Ok(Computed(String("")))
  }

  /** copyObjectProperty: captures one runtime value. */
  function CopyObjectProperty(resobj: Option<Ref>, o: RtObject): (r: Result<PropertyValue>)
    requires WellFormed(o)
    ensures r.Ok? <==> Serializable(o)
    ensures r.Ok? ==> OutputOnlyAtTop(r.value)
    ensures r.Ok? && resobj.None? ==> NoOutput(r.value)
    decreases o, 2
  {
    if IsResourceType(o.ty) then
      ReferenceProperty(o)
    else
      match o.ty
      case NullType => Ok(Null)
      case BoolType => Ok(Bool(o.value.b))
      case NumberType => Ok(Number(o.value.n))
      case StringType => Ok(String(o.value.s))
      case ObjectType => CopyObjectLike(o)
      case DynamicType => CopyObjectLike(o)
      case ArrayType(_) =>
        var elems := o.value.elems;
        if exists i | 0 <= i < |elems| :: CopyObjectProperty(None, elems[i]).Err? then
          Err(Unserializable)
        else
          Ok(Array(seq(|elems|, i requires 0 <= i < |elems| => CopyObjectProperty(None, elems[i]).value)))
      case MapType(_, _) => CopyObjectLike(o)
      case ClassType(_, _) => CopyObjectLike(o)
      case ComputedType(elem) =>
        (match ZeroValue(elem)
         case Some(zero) =>
           if IsOutputOf(resobj, o.value.comp) then Ok(Output(zero)) else Ok(Computed(zero))
         case None => Err(Unserializable))
      case FunctionType => Ok(FunctionPlaceholder)
      case OtherType(_) => Err(Unserializable)
  }

  /** An object literal, map or class instance captures to an `Object` holding
      a deep copy of its properties, with no resource in scope. */
  function CopyObjectLike(o: RtObject): (r: Result<PropertyValue>)
    requires WellFormed(o)
    ensures r.Ok? <==> forall k | k in o.props :: Serializable(o.props[k])
    ensures r.Ok? ==> r.value.Object? && NoOutput(r.value)
    decreases o, 1
  {
    var m :- CopyObject(None, o);
    Ok(Object(m))
  }

  /** copyObject and copyObjectProperties: captures an object's property map,
      key by key. copyObjectProperties is only ever applied to an object's own
      property map, so the two are one function here. */
  function CopyObject(resobj: Option<Ref>, o: RtObject): (r: Result<PropertyMap>)
    requires WellFormed(o)
    ensures r.Ok? <==> forall k | k in o.props :: Serializable(o.props[k])
    ensures r.Ok? ==> r.value.Keys == o.props.Keys
    ensures r.Ok? ==> forall k | k in r.value :: OutputOnlyAtTop(r.value[k])
    ensures r.Ok? && resobj.None? ==> forall k | k in r.value :: NoOutput(r.value[k])
    decreases o, 0
  {
    if exists k | k in o.props :: CopyObjectProperty(resobj, o.props[k]).Err? then
      Err(Unserializable)
    else
      Ok(map k | k in o.props :: CopyObjectProperty(resobj, o.props[k]).value)
  }

  /** Primitives capture to the property value of the same kind and payload. */
  lemma CapturePrimitive(resobj: Option<Ref>, o: RtObject)
    requires WellFormed(o) && (o.ty == NullType || o.ty == BoolType || o.ty == NumberType || o.ty == StringType)
    ensures CopyObjectProperty(resobj, o).Ok?
    ensures var v := CopyObjectProperty(resobj, o).value;
            && IsPrimitive(v)
            && (o.ty == NullType ==> v == Null)
            && (o.ty == BoolType ==> v.Bool? && o.value == BoolValue(v.b))
            && (o.ty == NumberType ==> v.Number? && o.value == NumberValue(v.n))
            && (o.ty == StringType ==> v.String? && o.value == StringValue(v.s))
  {
  }

  /** Arrays capture element-wise: same length, element i is the capture of
      element i (with no resource in scope). */
  lemma CaptureArray(resobj: Option<Ref>, o: RtObject)
    requires WellFormed(o) && o.ty.ArrayType? && CopyObjectProperty(resobj, o).Ok?
    ensures var v := CopyObjectProperty(resobj, o).value;
            && v.Array?
            && |v.elems| == |o.value.elems|
            && forall i | 0 <= i < |v.elems| :: CopyObjectProperty(None, o.value.elems[i]) == Ok(v.elems[i])
  {
  }

  /** Object literals, maps and non-resource class instances capture to an
      Object whose entries are the captures of their properties, key by key. */
  lemma CaptureObjectLike(resobj: Option<Ref>, o: RtObject)
    requires WellFormed(o) && IsObjectLike(o.ty) && CopyObjectProperty(resobj, o).Ok?
    ensures var v := CopyObjectProperty(resobj, o).value;
            && v.Object?
            && v.props.Keys == o.props.Keys
            && forall k | k in o.props :: CopyObjectProperty(None, o.props[k]) == Ok(v.props[k])
  {
    var m := CopyObject(None, o);
    assert CopyObjectProperty(resobj, o) == Ok(Object(m.value));
    forall k | k in o.props
      ensures CopyObjectProperty(None, o.props[k]) == Ok(m.value[k])
    {
      assert CopyObjectProperty(None, o.props[k]).Ok?;
    }
  }

  /** A computed value captures to an Output exactly when it has no free
      expression and its one source is the resource in scope, and to a Computed
      otherwise; either way it wraps the zero value of its element type. */
  lemma CaptureComputed(resobj: Option<Ref>, o: RtObject)
    requires WellFormed(o) && o.ty.ComputedType?
    ensures CopyObjectProperty(resobj, o).Ok? <==> ZeroValue(o.ty.element).Some?
    ensures CopyObjectProperty(resobj, o).Ok? ==>
              var v := CopyObjectProperty(resobj, o).value;
              && (v.Output? <==> IsOutputOf(resobj, o.value.comp))
              && (v.Computed? <==> !IsOutputOf(resobj, o.value.comp))
              && v.element == ZeroValue(o.ty.element).value
  {
  }

  /** Below the top level no resource is in scope, so a nested computed value
      is always Computed, never Output. */
  lemma NestedComputedIsComputed(o: RtObject)
    requires WellFormed(o) && o.ty.ComputedType? && ZeroValue(o.ty.element).Some?
    ensures CopyObjectProperty(None, o) == Ok(Computed(ZeroValue(o.ty.element).value))
  {
  }

  /** A function-typed property is not dropped: it is stored under its key as
      the zero property value. */
  lemma CaptureFunction(resobj: Option<Ref>, o: RtObject, k: string)
    requires WellFormed(o) && CopyObject(resobj, o).Ok?
    requires k in o.props && o.props[k].ty == FunctionType
    ensures k in CopyObject(resobj, o).value
    ensures CopyObject(resobj, o).value[k] == Null
  {
  }

  /** The resource in scope only matters for computed values: any other value
      captures the same whoever the resource is. */
  lemma ScopeOnlyAffectsComputed(a: Option<Ref>, b: Option<Ref>, o: RtObject)
    requires WellFormed(o) && !o.ty.ComputedType?
    ensures CopyObjectProperty(a, o) == CopyObjectProperty(b, o)
  {
  }
}
