/**
 * The live resource object (`Object` in pkg/resource/resource_object.go): a
 * runtime object plus the resource's URN, with the once-only identity rules
 * and the state snapshot taken by `Update`.
 *
 * The Go object is mutated in place; here every mutating operation returns the
 * updated object, and `Update` returns the snapshot together with it.
 */
module ResourceObject {
  import opened Contract
  import opened Properties
  import opened Runtime
  import opened Capture
  import opened Hydrate
  import RoundTrip

  /** A resource's URN; the empty URN means "not assigned yet". */
  type URN = string

  /** A live resource object (`Object` in Go): its URN, its runtime object,
      and the identity of that runtime object (what computed values name as
      their sources). */
  datatype Resource = Resource(urn: URN, obj: RtObject, addr: Ref)

  /** What `NewObject` establishes and every operation keeps: the runtime
      object is a well-formed instance of a resource class. */
  predicate Valid(r: Resource) {
    IsResourceObject(r.obj) && WellFormed(r.obj)
  }

  /** An immutable record of one deployment step. */
  datatype State = State(ty: string, urn: URN, id: string, inputs: PropertyMap, outputs: PropertyMap)

  /** NewObject: wraps a runtime object, which must be a resource. */
  function NewObject(obj: RtObject, addr: Ref): (r: Result<Resource>)
    requires WellFormed(obj)
    ensures r.Ok? <==> IsResourceObject(obj)
    ensures r.Ok? ==> Valid(r.value) && !HasURN(r.value) && r.value.obj == obj && r.value.addr == addr
  {
    if IsResourceObject(obj) then Ok(Resource("", obj, addr)) else Err(NotAResource)
  }

  predicate HasURN(r: Resource) {
    r.urn != ""
  }

  /** The resource's type token. */
  function Type(r: Resource): string
    requires Valid(r)
  {
    TypeToken(r.obj.ty)
  }

  /** ID: the resource's concrete ID, which must already be assigned. */
  function ID(r: Resource): (result: Result<string>)
    requires Valid(r)
    ensures result.Ok? <==> IDProperty in r.obj.props && IsString(r.obj.props[IDProperty])
    ensures result.Ok? ==> r.obj.props[IDProperty].value == StringValue(result.value)
  {
    var idobj :- GetIDObject(r.obj);
    if idobj.None? then Err(MissingID)
    else if !IsString(idobj.value) then Err(IDNotString)
    else
      assert WellFormed(r.obj.props[IDProperty]);
      Ok(idobj.value.value.s)
  }

  /** HasID: whether an ID is assigned, concretely or as a computed value. */
  function HasID(r: Resource): (result: Result<bool>)
    requires Valid(r)
    ensures result.Ok? <==>
              IDProperty in r.obj.props ==> IsString(r.obj.props[IDProperty]) || IsComputed(r.obj.props[IDProperty])
    ensures result.Ok? ==> (result.value <==> IDProperty in r.obj.props)
  {
    var idobj :- GetIDObject(r.obj);
    Ok(idobj.Some? && !IsNull(idobj.value))
  }

  /** SetID: assigns the ID, which may only replace an absent, null or
      computed ID. */
  function SetID(r: Resource, id: string): (result: Result<Resource>)
    requires Valid(r)
    ensures result.Ok? <==>
              IDProperty !in r.obj.props || IsNull(r.obj.props[IDProperty]) || IsComputed(r.obj.props[IDProperty])
    ensures result.Ok? ==> Valid(result.value) && ID(result.value) == Ok(id)
    ensures result.Ok? ==> result.value.urn == r.urn && result.value.addr == r.addr && result.value.obj.ty == r.obj.ty
    ensures result.Ok? ==> result.value.obj.props.Keys == r.obj.props.Keys + {IDProperty} && result.value.obj.value == r.obj.value
    ensures result.Ok? ==> forall k | k in r.obj.props && k != IDProperty :: result.value.obj.props[k] == r.obj.props[k]
  {
    var slot := if IDProperty in r.obj.props then r.obj.props[IDProperty] else NullObject;
    if IsNull(slot) || IsComputed(slot) then
      Ok(r.(obj := r.obj.(props := r.obj.props[IDProperty := StringObject(id)])))
    else
      Err(IDAlreadySet)
  }

  /** SetURN: assigns the URN, which must not be assigned yet. */
  function SetURN(r: Resource, m: URN): (result: Result<Resource>)
    ensures result.Ok? <==> !HasURN(r)
    ensures result.Ok? ==> result.value == r.(urn := m)
  {
    if HasURN(r) then Err(URNAlreadySet) else Ok(r.(urn := m))
  }

  /** CopyProperties: a disconnected snapshot of the resource's properties,
      with the resource itself as the source outputs are recognised by. */
  function CopyProperties(r: Resource): (result: Result<PropertyMap>)
    requires Valid(r)
    ensures result.Ok? <==> forall k | k in r.obj.props :: Serializable(r.obj.props[k])
    ensures result.Ok? ==> result.value.Keys == r.obj.props.Keys
    ensures result.Ok? ==> forall k | k in result.value :: CopyObjectProperty(Some(r.addr), r.obj.props[k]) == Ok(result.value[k])
  {
    CopyObject(Some(r.addr), r.obj)
  }

  /** SetProperties: hydrates a property map onto the resource's runtime
      object, filling only the properties that are absent or null. */
  function SetProperties(r: Resource, props: PropertyMap): (result: Result<Resource>)
    requires Valid(r)
    ensures result.Ok? <==> forall k | k in props && Writable(r.obj, k) :: Resolved(props[k])
    ensures result.Ok? ==> Valid(result.value) && result.value.urn == r.urn && result.value.addr == r.addr
    ensures result.Ok? ==> result.value.obj.ty == r.obj.ty && result.value.obj.value == r.obj.value
    ensures result.Ok? ==> result.value.obj.props.Keys == r.obj.props.Keys + props.Keys
    ensures result.Ok? ==> forall k | k in r.obj.props && !IsNull(r.obj.props[k]) :: result.value.obj.props[k] == r.obj.props[k]
    ensures result.Ok? ==> forall k | k in r.obj.props && k !in props :: result.value.obj.props[k] == r.obj.props[k]
  {
    var obj :- SetRuntimeProperties(r.obj, props);
    Ok(r.(obj := obj))
  }

  /** Update: snapshots the inputs, assigns the ID, hydrates the outputs and
      returns the state record along with the updated object. */
  function Update(r: Resource, id: string, outputs: PropertyMap): (result: Result<(State, Resource)>)
    requires Valid(r)
    ensures !HasURN(r) ==> result == Err(MissingURN)
    ensures HasURN(r) && CopyProperties(r).Ok? && ID(r).Ok? ==> result == Err(IDAlreadySet)
    ensures result.Ok? <==>
              && HasURN(r)
              && (forall k | k in r.obj.props :: Serializable(r.obj.props[k]))
              && (IDProperty !in r.obj.props || IsNull(r.obj.props[IDProperty]) || IsComputed(r.obj.props[IDProperty]))
              && (forall k | k in outputs && k != IDProperty && Writable(r.obj, k) :: Resolved(outputs[k]))
    ensures result.Ok? ==>
              var (state, after) := result.value;
              && CopyProperties(r) == Ok(state.inputs)
              && state.outputs == outputs
              && state.id == id
              && state.urn == r.urn
              && state.ty == Type(r)
              && Valid(after) && after.urn == r.urn
              && HasID(after) == Ok(true)
              && ID(after) == Ok(id)
  {
    if !HasURN(r) then Err(MissingURN)
    else
      var inputs :- CopyProperties(r);
      var withID :- SetID(r, id);
      var after :- SetProperties(withID, outputs);
      Ok((State(Type(r), r.urn, id, inputs, outputs), after))
  }

  /** A URN is assigned at most once: once a non-empty URN is set, setting
      another one fails. */
  lemma SetURNOnce(r: Resource, m: URN, m': URN)
    requires SetURN(r, m).Ok? && m != ""
    ensures SetURN(SetURN(r, m).value, m') == Err(URNAlreadySet)
  {
  }

  /** A concrete ID is assigned at most once. */
  lemma SetIDOnce(r: Resource, id: string, id': string)
    requires Valid(r) && SetID(r, id).Ok?
    ensures SetID(SetID(r, id).value, id') == Err(IDAlreadySet)
  {
  }

  /** A computed ID counts as assigned for HasID, but ID cannot read it, and
      SetID may still replace it. */
  lemma ComputedID(r: Resource, id: string)
    requires Valid(r) && IDProperty in r.obj.props && IsComputed(r.obj.props[IDProperty])
    ensures HasID(r) == Ok(true)
    ensures ID(r) == Err(IDNotString)
    ensures SetID(r, id).Ok?
  {
  }

  /** A reference to a resource captures to a computed string while the
      resource has no ID, and to its ID once SetID has assigned one. */
  lemma ReferenceFollowsID(resobj: Option<Ref>, r: Resource, id: string)
    requires Valid(r) && IDProperty !in r.obj.props
    ensures CopyObjectProperty(resobj, r.obj) == Ok(Computed(String("")))
    ensures SetID(r, id).Ok?
    ensures CopyObjectProperty(resobj, SetID(r, id).value.obj) == Ok(String(id))
  {
    var after := SetID(r, id).value;
    assert after.obj.props[IDProperty] == StringObject(id);
  }

  /** The snapshot taken by CopyProperties recognises the resource's own
      outputs: a property computed from this resource alone, with no free
      expression, is an Output wrapping the zero value of its element type,
      and no other property is an Output. */
  lemma SnapshotOutputsAreOwn(r: Resource, k: string)
    requires Valid(r) && CopyProperties(r).Ok? && k in r.obj.props
    ensures var p := r.obj.props[k];
            IsComputed(p) && p.value == ComputationValue(ComputedValue(false, [r.addr])) ==>
              ZeroValue(p.ty.element).Some? && CopyProperties(r).value[k] == Output(ZeroValue(p.ty.element).value)
    ensures var p := r.obj.props[k];
            CopyProperties(r).value[k].Output? ==> IsComputed(p) && p.value.ComputationValue? && IsOutputOf(Some(r.addr), p.value.comp)
  {
    var p := r.obj.props[k];
    assert WellFormed(p);
    assert CopyObjectProperty(Some(r.addr), p) == Ok(CopyProperties(r).value[k]);
  }

  /** Update succeeds at most once on the same object: the object it leaves
      behind still captures, and its ID is concrete, so a second Update stops on
      the double assignment. */
  lemma UpdateOnce(r: Resource, id: string, outputs: PropertyMap, id': string, outputs': PropertyMap)
    requires Valid(r) && Update(r, id, outputs).Ok?
    ensures Update(Update(r, id, outputs).value.1, id', outputs') == Err(IDAlreadySet)
  {
    var withID := SetID(r, id).value;
    var after := Update(r, id, outputs).value.1;
    forall k | k in after.obj.props
      ensures Serializable(after.obj.props[k])
    {
      if k in outputs && Writable(withID.obj, k) {
        RoundTrip.HydratedKeyCaptures(withID.obj, outputs, k);
        assert CopyObjectProperty(None, after.obj.props[k]).Ok?;
      } else if k == IDProperty {
        assert after.obj.props[k] == StringObject(id);
      } else {
        assert after.obj.props[k] == r.obj.props[k];
      }
    }
    assert CopyProperties(after).Ok?;
  }

  /** After Update, every output whose destination was absent or null (and is
      not the ID, which Update has just set) reads back from the live object as
      the supplied value. */
  lemma UpdateHydratesOutputs(r: Resource, id: string, outputs: PropertyMap, k: string)
    requires Valid(r) && Update(r, id, outputs).Ok?
    requires k in outputs && k != IDProperty && Writable(r.obj, k)
    ensures CopyObjectProperty(None, Update(r, id, outputs).value.1.obj.props[k]) == Ok(outputs[k])
  {
    var withID := SetID(r, id).value;
    assert Writable(withID.obj, k);
    RoundTrip.HydratedKeyCaptures(withID.obj, outputs, k);
  }
}
