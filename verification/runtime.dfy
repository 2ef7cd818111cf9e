/**
 * An abstract stand-in for the interpreter's live objects (`rt.Object`) and
 * for the compiler's type descriptions (`symbols`, `types`).
 *
 * Only what the conversion engine looks at is kept: a runtime object has a
 * type, a payload that depends on that type, and a property map. The identity
 * of a live object (its address) is a `Ref`; computed values name the objects
 * they depend on by `Ref`.
 */
module Runtime {

  /** The identity of a live runtime object. */
  type Ref = nat

  /** The types the conversion engine dispatches on. */
  datatype Type =
    | NullType
    | BoolType
    | NumberType
    | StringType
    | ObjectType                          // an object literal
    | DynamicType                         // the dynamic type
    | ArrayType(element: Type)
    | MapType(key: Type, element: Type)
    | ClassType(token: string, resource: bool)  // `resource`: derives from the resource base class
    | FunctionType
    | ComputedType(element: Type)         // a value that is not known yet
    | OtherType(token: string)             // any other symbol (interfaces, modules, ...)

  /** A computation that has not produced its value yet: whether it has a free
      expression, and the objects whose outputs it depends on. */
  datatype ComputedValue = ComputedValue(expr: bool, sources: seq<Ref>)

  datatype Value =
    | NoValue
    | BoolValue(b: bool)
    | NumberValue(n: real)
    | StringValue(s: string)
    | ArrayValue(elems: seq<RtObject>)
    | ComputationValue(comp: ComputedValue)

  datatype RtObject = RtObject(ty: Type, value: Value, props: map<string, RtObject>)

  /** The payload the runtime's constructors attach to an object of type `t`. */
  predicate Consistent(t: Type, v: Value) {
    match t
    case BoolType => v.BoolValue?
    case NumberType => v.NumberValue?
    case StringType => v.StringValue?
    case ArrayType(_) => v.ArrayValue?
    case ComputedType(_) => v.ComputationValue?
    case _ => v.NoValue?
  }

  /** Every object reachable from `o` has the payload its type calls for. */
  predicate WellFormed(o: RtObject) {
    && Consistent(o.ty, o.value)
    && (o.value.ArrayValue? ==> forall i | 0 <= i < |o.value.elems| :: WellFormed(o.value.elems[i]))
    && (forall k | k in o.props :: WellFormed(o.props[k]))
  }

  predicate IsResourceType(t: Type) {
    t.ClassType? && t.resource
  }

  predicate IsResourceObject(o: RtObject) {
    IsResourceType(o.ty)
  }

  predicate IsNull(o: RtObject) {
    o.ty == NullType
  }

  predicate IsString(o: RtObject) {
    o.ty == StringType
  }

  predicate IsComputed(o: RtObject) {
    o.ty.ComputedType?
  }

  /** The shared null object. */
  const NullObject: RtObject := RtObject(NullType, NoValue, map[])

  function BoolObject(b: bool): RtObject {
    RtObject(BoolType, BoolValue(b), map[])
  }

  function NumberObject(n: real): RtObject {
    RtObject(NumberType, NumberValue(n), map[])
  }

  function StringObject(s: string): RtObject {
    RtObject(StringType, StringValue(s), map[])
  }

  function ArrayObject(element: Type, elems: seq<RtObject>): RtObject {
    RtObject(ArrayType(element), ArrayValue(elems), map[])
  }

  /** A fresh object of type `t` without properties. */
  function EmptyObject(t: Type): RtObject {
    RtObject(t, NoValue, map[])
  }

  /** The type token of a class; other types are never asked for one here. */
  function TypeToken(t: Type): string
    requires t.ClassType?
  {
    t.token
  }
}
