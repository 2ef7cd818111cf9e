# Resource object model and property capture/hydration, in Dafny

This project models the core of the resource object model of an
infrastructure-orchestration engine (Pulumi/Lumi):

- **Capture** turns a live runtime object into a disconnected `PropertyMap`.
  It is type-directed:
  - A reference to another resource collapses to that resource's ID. While the
    ID is not known, it becomes `Computed(String(""))`.
  - Primitives map one to one.
  - Object literals, maps and class instances recurse into their properties.
  - Arrays recurse element-wise.
  - A computed value becomes `Output` when it has no free expression and its
    single source is the resource being captured. Otherwise it becomes
    `Computed`. Either way it wraps the zero value of its element type.
- **Hydration** writes a `PropertyMap` back onto a runtime object. It fills a
  property only when that property is absent or null. Only values with no
  `Computed` or `Output` anywhere can be turned into runtime objects.
- **Identity and Update** form a once-only state machine over a resource's
  URN and ID. `Update` snapshots the inputs before any mutation, assigns the
  ID, hydrates the outputs, and returns a `State` holding the supplied outputs
  verbatim.
- **Stack import validation** is the check `stack import` runs before
  importing a deployment:
  - Deserialization failures are classified into three messages.
  - Every resource from another stack gives one mismatch message. Without
    `--force` all of them become one error, closed by a "rerun with --force"
    message. With `--force` they are warnings only.
  - Pending operations are always dropped, with one warning each.

Modules:

- `Contract`: `Option`, `Result` and the invariant violations. The Go code
  panics on these; here they are `Err` results.
- `Properties`: the `PropertyValue` variant.
- `Runtime`: an abstract stand-in for runtime objects and their types.
- `Capture`: `copyObjectProperty`, `copyObject` and `copyObjectProperties`.
- `Hydrate`: `setRuntimeProperties` and `createRuntimeProperty`.
- `RoundTrip`: lemmas relating capture and hydration.
- `ResourceObject`: the resource `Object`, its identity operations and
  `Update`.
- `StackImport`: the validation part of `stack import`.

Mutation in place is modelled functionally: each operation that changes an
object returns the changed object.

Where the code and its comments disagree, the model follows the code:

- The comments on `Update` and `SetProperties` (resource_object.go lines 102
  and 117) speak of overwriting. The code writes only null destinations
  (line 238).
- The comment at line 214 speaks of skipping functions. The code stores the
  zero `PropertyValue` under the function's key (lines 217 and 225).

## Model

| member | source | states |
|---|---|---|
| Capture.GetIDObject | pkg/resource/resource_object.go:76-86 | The ID property is returned exactly when it is present and is a string or computed. An ID of any other kind is a violation. An absent ID gives "no ID". |
| Capture.ReferenceProperty | pkg/resource/resource_object.go:134-143 | A resource reference captures to `String(id)` when its ID is a concrete string. It captures to `Computed(String(""))` when the ID is absent or computed. It fails only on a malformed ID. |
| Capture.CopyObjectProperty | pkg/resource/resource_object.go:131-218 | Capture succeeds exactly when the value is `Serializable`. This is an independent description: every reachable type is known, every reachable reference has a well-formed ID, and every computed element type has a placeholder. A successful capture holds an `Output` only at its top level. With no resource in scope it holds no `Output` at all. |
| Capture.CopyObjectLike | pkg/resource/resource_object.go:155-177 | Object literals, maps and class instances capture to an `Object` exactly when all their properties capture. That `Object` contains no `Output`. |
| Capture.CopyObject | pkg/resource/resource_object.go:220-228 | The captured map has exactly the key set of the object's properties. It succeeds exactly when every property is `Serializable`. Each entry holds `Output` at most at its top, and holds none when no resource is in scope. |
| Capture.CapturePrimitive | pkg/resource/resource_object.go:146-154 | Null, Bool, Number and String capture to the property value of the same kind, with the same payload. |
| Capture.CaptureArray | pkg/resource/resource_object.go:162-168 | An array captures to an `Array` of the same length. Element i is the capture of element i, with no resource in scope. |
| Capture.CaptureObjectLike | pkg/resource/resource_object.go:155-177 | Object literals, maps and class instances capture to an `Object` with the same keys. Each entry is the capture of the property under that key, with no resource in scope. |
| Capture.CaptureComputed | pkg/resource/resource_object.go:180-212 | A computed value captures exactly when its element type has a placeholder. The result is `Output` exactly when there is no free expression and the single source is the resource in scope. Otherwise it is `Computed`. Either way it wraps the zero value of the element type. |
| Capture.NestedComputedIsComputed | pkg/resource/resource_object.go:184-190 | With no resource in scope, which is the case for every nested capture, a computed value always captures to `Computed`. |
| Capture.CaptureFunction | pkg/resource/resource_object.go:214-226 | A function-typed property stays in the captured map under its key, as the zero (null) property value. |
| Capture.ScopeOnlyAffectsComputed | pkg/resource/resource_object.go:155-178 | The resource in scope changes the capture only of a computed value. |
| Hydrate.CreateRuntimeProperty | pkg/resource/resource_object.go:246-269 | Creating a runtime object succeeds exactly when the value has no `Computed` or `Output` at any depth. The object created is well-formed. |
| Hydrate.SetRuntimeProperties | pkg/resource/resource_object.go:232-243 | Hydration succeeds exactly when every value bound for an absent or null destination is resolved. It creates absent keys. Every property that was non-null beforehand keeps its value. Properties whose keys are not in the map are unchanged. Type and payload are untouched. |
| RoundTrip.CaptureCreated | pkg/resource/resource_object.go:246-268 | For every resolved value v (primitive, array or object), capturing the runtime object created for v gives back v, whatever resource is in scope. |
| RoundTrip.CaptureHydratedFresh | pkg/resource/resource_object.go:265-267 | Hydrating a resolved map onto a fresh object and then capturing the object gives back the map. |
| RoundTrip.HydratedKeyCaptures | pkg/resource/resource_object.go:238-241 | Every key that hydration wrote captures back to the value supplied for it. |
| RoundTrip.CreatedIsNull | pkg/resource/resource_object.go:247-248 | The object created for a resolved value is null exactly when the value is `Null`. Only then can a later hydration overwrite it. |
| RoundTrip.HydrateTwiceKey | pkg/resource/resource_object.go:238-241 | After two hydrations, each key captures to the first value supplied for it, unless that value was `Null` and the second map supplies one. |
| RoundTrip.HydrateTwice | pkg/resource/resource_object.go:232-243 | Hydrating a fresh object twice captures to the null-filling merge of the two maps. The second hydration never clobbers a non-null value. |
| ResourceObject.NewObject | pkg/resource/resource_object.go:44-49 | Wrapping succeeds exactly for a resource object. The result has no URN. |
| ResourceObject.ID | pkg/resource/resource_object.go:55-61 | `ID()` succeeds exactly when the ID property is a concrete string, and returns that string. |
| ResourceObject.HasID | pkg/resource/resource_object.go:63-67 | `HasID()` is true exactly when an ID property is present, whether a string or computed. It fails only on a malformed ID. |
| ResourceObject.SetID | pkg/resource/resource_object.go:69-74 | `SetID` succeeds exactly when the prior ID is absent, null or computed. Afterwards `ID()` returns the new id. The only key it may add is `id`. The URN, the type, the payload and every other property are unchanged. |
| ResourceObject.SetURN | pkg/resource/resource_object.go:88-92 | `SetURN` succeeds exactly when no URN is assigned. It changes only the URN. |
| ResourceObject.CopyProperties | pkg/resource/resource_object.go:110-115 | The snapshot succeeds exactly when every property is `Serializable`. It has exactly the resource's property keys. Each entry is the capture of that property with this resource in scope, so the resource's own outputs are recognised. |
| ResourceObject.SetProperties | pkg/resource/resource_object.go:117-121 | Hydrating the resource succeeds exactly when every value bound for an absent or null property is resolved. The key set becomes the old keys plus the map's keys, so no key is removed. Non-null properties and properties not in the map keep their values. URN, identity, type and payload are unchanged. |
| ResourceObject.Update | pkg/resource/resource_object.go:94-108 | `Update` succeeds exactly when the resource has a URN, all its properties are `Serializable`, its ID is absent, null or computed, and every output bound for an absent or null non-`id` property is resolved. It fails with the URN violation without a URN, and with the ID violation on an ID that is already concrete. On success the state's inputs are the capture taken before mutation, its outputs are the supplied map verbatim, and its id, URN and type are the resource's. Afterwards `HasID()` is true and `ID()` is the new id. |
| ResourceObject.SetURNOnce | pkg/resource/resource_object.go:88-92 | Once a non-empty URN is set, a second `SetURN` fails. |
| ResourceObject.SetIDOnce | pkg/resource/resource_object.go:69-74 | Once an ID is set, a second `SetID` fails. |
| ResourceObject.ComputedID | pkg/resource/resource_object.go:56-74 | A computed ID counts for `HasID()`, `ID()` cannot read it, and `SetID` may replace it. |
| ResourceObject.ReferenceFollowsID | pkg/resource/resource_object.go:134-143 | A reference to a resource without an ID captures to `Computed(String(""))`. After `SetID(id)`, it captures to `String(id)`. |
| ResourceObject.SnapshotOutputsAreOwn | pkg/resource/resource_object.go:110-115 | In the snapshot, a property computed from this resource alone with no free expression is `Output` of the zero value of its element type. No other property is `Output`. |
| ResourceObject.UpdateOnce | pkg/resource/resource_object.go:94-108 | After a successful `Update`, the object still captures, and a second `Update` fails on the double ID assignment. |
| ResourceObject.UpdateHydratesOutputs | pkg/resource/resource_object.go:102-104 | After `Update`, each output whose destination was absent or null (other than the ID) reads back as the supplied value. |
| StackImport.PendingWarnings | cmd/stack_import.go:115-119 | There is one warning per pending operation, in order, naming its type and URN. |
| StackImport.NoMismatchesIff | cmd/stack_import.go:92-95 | There are no mismatch messages exactly when every resource belongs to the target stack. |
| StackImport.OneMessagePerMismatch | cmd/stack_import.go:92-95 | There are exactly as many mismatch messages as resources from other stacks. |
| StackImport.MismatchMessagesExact | cmd/stack_import.go:92-95 | A message is among the mismatch messages exactly when it is the message of some resource from another stack. |
| StackImport.CheckStacks | cmd/stack_import.go:91-107 | The loop visits every resource and never stops at the first mismatch. Without force the errors are all mismatch messages, in resource order, and there are no warnings. With force the same messages are warnings and there are no errors. |
| StackImport.StripPendingOperations | cmd/stack_import.go:113-122 | Each pending operation yields one warning. The cleaned snapshot keeps the resources and has no pending operations. |
| StackImport.Import | cmd/stack_import.go:77-131 | A deserialization failure is rejected with its classified message. Without force and with mismatches, the import is rejected with every mismatch message followed by the "rerun with --force" message, before pending operations are looked at. Otherwise it proceeds with no error: the warnings are the mismatch warnings (under force) then one per pending operation, and the snapshot, cleared of pending operations, is re-wrapped with the current schema version. |
| StackImport.DeserializeMessagesDistinct | cmd/stack_import.go:77-89 | Only a generic deserialization failure is reported as "could not deserialize deployment". The schema-too-old and schema-too-new failures get their own messages. |

## Left out

- cmd/env_config.go is not part of this model. It is a command-line driver
  over a configuration map.
- Command wiring, flag parsing, opening the input file, JSON decoding,
  `stack.DeserializeUntypedDeployment`, `stack.SerializeDeployment`,
  `s.ImportDeployment` and the "Import successful" print are left out. They are
  I/O or live outside the shown code. The deserializer's outcome is an input of
  `StackImport.Import`, and the re-wrapped deployment is its output.
- StackImport.Import: the current schema version (`DeploymentSchemaVersionCurrent`
  in apitype, not part of this model) is a parameter, not a fixed constant.
- The stack name embedded in a URN is an abstract field of each resource. URN
  parsing is not part of this model.
- `glog` logging and diagnostic output are left out. Warnings are returned as
  a list.
- Numbers are `real` values that are only copied. Double-precision semantics
  are not modelled.
- The internals of the runtime are abstract: `rt.Object`, `GetPropertyAddr`,
  `predef.IsResourceType` and the compiler's `symbols`/`types`. A type's
  "derives from the resource class" is a flag. Read-only or frozen property
  checks inside `GetPropertyAddr` are not modelled.
- `rt.PropertyMap.Stable()`: Dafny maps carry no order. Capture produces the
  same map whatever order keys are enumerated in, so canonical ordering holds
  by construction.
- Capture.CopyObjectProperty: any assertion failure inside capture is the single
  violation `Unserializable`. This includes a malformed ID on a nested
  reference and an unrecognized type. The panic message is not distinguished.
- Hydrate.SetRuntimeProperties: any failure inside hydration is the single
  violation `Unhydratable`. In Go a panic can leave some keys already written,
  since Go map iteration order is random. The model returns no partial object.
- `IDProperty` is `"id"`, the zero `PropertyValue` is the null value, and
  `HasURN` means a non-empty URN. These come from files that are not part of
  this model (resource.go, properties.go).
- `SetProperties` asserts that its map is non-nil. Dafny maps are never nil, so
  this assertion has no counterpart.
- The runtime object graph is modelled as a finite tree of values. Go's
  `rt.Object`s are shared, mutable pointers, and two consequences are lost.
  First, a reference to resource A stored in B's properties is a copy here, so
  it does not see A's later `SetID` or `Update`. `ResourceObject.ReferenceFollowsID`
  speaks of capturing A's own object after the change, not of other holders of
  A. Second, cyclic graphs cannot be built. In Go, capturing a cycle of
  non-resource objects makes `copyObjectProperty` recurse without end
  (resource_object.go lines 155-177). Here capture terminates by construction.
- A runtime object's identity (its address) is a natural number passed to
  `NewObject`. Computed values name their sources by such numbers.
