/**
 * How capture and hydration fit together: hydration followed by capture gives
 * back every resolved value, and a second hydration only fills the holes the
 * first one left null.
 */
module RoundTrip {
  import opened Contract
  import opened Properties
  import opened Runtime
  import opened Capture
  import opened Hydrate

  /** Capturing the runtime object built for a resolved value gives the value
      back, whatever resource is in scope. */
  lemma {:induction false} CaptureCreated(resobj: Option<Ref>, v: PropertyValue)
    requires Resolved(v)
    ensures CreateRuntimeProperty(v).Ok?
    ensures CopyObjectProperty(resobj, CreateRuntimeProperty(v).value) == Ok(v)
    decreases v, 1
  {
    var o := CreateRuntimeProperty(v).value;
    match v
    case Null =>
    case Bool(_) =>
    case Number(_) =>
    case String(_) =>
    case Array(elems) =>
      forall i | 0 <= i < |elems|
        ensures CopyObjectProperty(None, o.value.elems[i]) == Ok(elems[i])
      {
        CaptureCreated(None, elems[i]);
      }
      var captured := CopyObjectProperty(resobj, o);
      assert captured.Ok?;
      assert captured.value.elems == elems;
    case Object(props) =>
      CaptureHydratedFresh(None, props);
  }

  /** Hydrating a resolved map onto a fresh dynamic object and capturing that
      object gives the map back. */
  lemma {:induction false} CaptureHydratedFresh(resobj: Option<Ref>, m: PropertyMap)
    requires ResolvedMap(m)
    ensures SetRuntimeProperties(EmptyObject(DynamicType), m).Ok?
    ensures CopyObject(resobj, SetRuntimeProperties(EmptyObject(DynamicType), m).value) == Ok(m)
    decreases Object(m), 0
  {
    var e := EmptyObject(DynamicType);
    var o := SetRuntimeProperties(e, m).value;
    assert o.props.Keys == m.Keys;
    forall k | k in m
      ensures CopyObjectProperty(resobj, o.props[k]) == Ok(m[k])
    {
      assert Writable(e, k);
      assert o.props[k] == CreateRuntimeProperty(m[k]).value;
      CaptureCreated(resobj, m[k]);
    }
    var c := CopyObject(resobj, o);
    assert c.Ok?;
    assert c.value == m;
    assert c == Ok(m);
  }

  /** After hydration, every key that was written captures back to the value
      supplied for it. */
  lemma HydratedKeyCaptures(obj: RtObject, m: PropertyMap, k: string)
    requires SetRuntimeProperties(obj, m).Ok?
    requires k in m && Writable(obj, k)
    ensures CopyObjectProperty(None, SetRuntimeProperties(obj, m).value.props[k]) == Ok(m[k])
  {
    CaptureCreated(None, m[k]);
  }

  /** The runtime object built for a resolved value is null exactly when the
      value is Null, so a later hydration may overwrite it exactly then. */
  lemma CreatedIsNull(v: PropertyValue)
    requires Resolved(v)
    ensures CreateRuntimeProperty(v).Ok?
    ensures IsNull(CreateRuntimeProperty(v).value) <==> v == Null
  {
  }

  /** What two successive hydrations of resolved maps leave behind: a key
      keeps its first value unless that value was Null and the second map
      supplies one. */
  function NullFillingMerge(first: PropertyMap, second: PropertyMap): PropertyMap {
    map k | k in first.Keys + second.Keys ::
      if k in second && (k !in first || first[k] == Null) then second[k] else first[k]
  }

  /** Capturing an object whose every property captures to the entry of `m`
      under the same key, and which has exactly `m`'s keys, gives `m`. */
  lemma CaptureFromEntries(resobj: Option<Ref>, o: RtObject, m: PropertyMap)
    requires WellFormed(o)
    requires o.props.Keys == m.Keys
    requires forall k | k in m :: CopyObjectProperty(resobj, o.props[k]) == Ok(m[k])
    ensures CopyObject(resobj, o) == Ok(m)
  {
    var c := CopyObject(resobj, o);
    assert c.Ok?;
    assert c.value == m;
  }

  /** One key of a twice-hydrated object: it captures to the null-filling merge
      of the two maps at that key. */
  lemma HydrateTwiceKey(first: PropertyMap, second: PropertyMap, k: string)
    requires ResolvedMap(first) && ResolvedMap(second)
    requires k in first || k in second
    ensures SetRuntimeProperties(EmptyObject(DynamicType), first).Ok?
    ensures SetRuntimeProperties(SetRuntimeProperties(EmptyObject(DynamicType), first).value, second).Ok?
    ensures CopyObjectProperty(None, SetRuntimeProperties(SetRuntimeProperties(EmptyObject(DynamicType), first).value, second).value.props[k])
            == Ok(NullFillingMerge(first, second)[k])
  {
    var o1 := SetRuntimeProperties(EmptyObject(DynamicType), first).value;
    if k in second && (k !in first || first[k] == Null) {
      if k in first {
        CreatedIsNull(first[k]);
      }
      HydratedKeyCaptures(o1, second, k);
    } else {
      CreatedIsNull(first[k]);
      HydratedKeyCaptures(EmptyObject(DynamicType), first, k);
    }
  }

  /** Hydrating a fresh object with `first` and then with `second` captures to
      the null-filling merge of the two maps: the second hydration never
      clobbers a non-null value the first one stored. */
  lemma HydrateTwice(first: PropertyMap, second: PropertyMap)
    requires ResolvedMap(first) && ResolvedMap(second)
    ensures SetRuntimeProperties(EmptyObject(DynamicType), first).Ok?
    ensures SetRuntimeProperties(SetRuntimeProperties(EmptyObject(DynamicType), first).value, second).Ok?
    ensures CopyObject(None, SetRuntimeProperties(SetRuntimeProperties(EmptyObject(DynamicType), first).value, second).value)
            == Ok(NullFillingMerge(first, second))
  {
    var o1 := SetRuntimeProperties(EmptyObject(DynamicType), first).value;
    var o2 := SetRuntimeProperties(o1, second).value;
    var merged := NullFillingMerge(first, second);
    assert o1.props.Keys == first.Keys;
    assert o2.props.Keys == first.Keys + second.Keys;
    assert merged.Keys == first.Keys + second.Keys;
    assert WellFormed(o2);
    forall k | k in merged
      ensures CopyObjectProperty(None, o2.props[k]) == Ok(merged[k])
    {
      HydrateTwiceKey(first, second, k);
    }
    CaptureFromEntries(None, o2, merged);
  }
}
