# aerogel construction core in Dafny

This project models how the aerogel dependency-injection library constructs a value
through a class's injectable constructor, and proves properties of that model.

- **The newer instance maker generator** (`dev.derklaro.aerogel`, module
  `ClassInstanceMaker`) emits a `getInstance(context)` method for each constructor. The
  emitted method does these steps in order:
  - A singleton first reads its holder.
  - Each parameter is resolved in declaration order. Provider parameters go through
    `injector().binding(e)`; all others go through `context.findInstance(e)`, then a
    cast or an unboxing.
  - Each resolved value is stored in local-variable slots from slot 3 on.
  - After each parameter, the holder and the context's already-constructed values are
    checked again.
  - The values are loaded back and the constructor is invoked.
  - A singleton publishes the result through `storeAndPack`. A transient result is
    packed with `doMemberInjection = true`.

  `Run` states that behaviour as a pure function. The class `GeneratedMaker` is the
  emitted code, working step by step on the context, the holder cell and a map of
  local slots. Its `GetInstance` is proved equal to `Run`. The generator methods
  (`UnpackParameter`, `StoreParameters`, `LoadParameters`, `ForConstructor`) build the
  maker, and the slots they lay out are proved to agree.
- **The older generator** (`aerogel.internal.codegen`, module
  `LegacyClassInstanceMaker`) is a separate variant with different semantics:
  - slots start at 2; the parameter code is the newer generator's `UnpackParameter`,
    `StoreParameters`, `LoadParameters` and `LoadArguments`, given slot 2 as the first
    parameter slot;
  - only the holder is checked, and the context is never consulted;
  - the holder is overwritten with `set`;
  - the bare value is returned.
- **`ConstructingBindingHolder`**:
  - `Create` and `CreateBound` are the pure decision logic that picks the bound class,
    its constructor and the singleton flag.
  - The class `ConstructingBindingHolder` keeps the generated maker. Its `Get` runs the
    maker once and reports the value to the context twice: under the target element,
    then under the bound element.
- **Supporting values:**
  - `Element`, the immutable binding key (module `Elements`);
  - the `Primitives` tables and checks;
  - `Preconditions.checkArgument`;
  - the small part of the Java platform they talk about (module `Jvm`), and the
    reflection inputs of the generator (module `Reflection`).

Some things the library only calls become parameters of the model:
- the injection context's nested resolution, the injector's bindings, constructor
  invocation and the class hierarchy (`Context.Environment`);
- the reflection and annotation collaborators (`Reflection.Bridge`,
  `ConstructingBindingHolder.ClassInfo`);
- `String.format`.

The calls the core makes on the context are recorded in a ghost trace, so that call
order can be stated.

Assumptions the model makes about code that is not part of it:
- `ReferenceUtil` is not part of this model.
  - `storeAndPack(holder, value)` is modelled as first-wins. An empty holder takes the
    masked value, and the result asks for member injection. A filled holder keeps its
    content, which is returned unmasked without member injection.
  - `null` is stored as a private sentinel (`NullMask`), so a constructed `null` still
    fills the holder.
- `AsmPrimitives` is not part of this model. `long` and `double` take two slots and
  every other primitive one, following section 2.6.1 of the Java Virtual Machine
  Specification. Store and load use the same width table.
- `ReflectionUtil.genericSuperType` is the first type argument of a parameterized type,
  and `Object` otherwise.
- The unboxing `storeUnbox` emits is a cast to the wrapper class followed by its
  `xxxValue()` call. `null` raises `NullPointerException`; any other class raises
  `ClassCastException`.
- `requireName(name)` adds a name requirement, and a missing name (`null`) leaves the
  element unchanged. The shown `Element` interface has no `requireName`, but the newer
  generator calls it at
  `src/main/java/dev/derklaro/aerogel/internal/codegen/ClassInstanceMaker.java:512`.
  The older generator's `Element.get(...).requireName(...).requireAnnotations(...)` is
  taken to build the same element.
- A constructor invocation may yield `null` in the model. A Java `new` never does, so
  the older generator's note about storing `null` in the holder (`NullSingletonIsConstructedAgain`)
  cannot arise from a real constructor.

## Model

| member | source | states |
|---|---|---|
| Jvm.RawType | src/main/java/dev/derklaro/aerogel/Element.java:66-80 | the erasure rules: a class is itself, a generic array the array class of its component's erasure, a parameterized type its raw class, a type variable its first bound's erasure, a wildcard its first lower, else first upper, bound's erasure, `Object` without bounds; what it guarantees is stated by `Jvm.RawTypeIsPrimitiveOnlyForPrimitiveClass` |
| Jvm.RawTypeIsPrimitiveOnlyForPrimitiveClass | src/main/java/dev/derklaro/aerogel/Element.java:66-80 | for a type Java can produce, the raw type is a primitive class exactly when the type is that primitive class itself |
| Preconditions.CheckArgument | src/main/java/dev/derklaro/aerogel/internal/utility/Preconditions.java:51-55 | passes exactly when the argument is true; otherwise fails with an `AerogelException` carrying exactly the message |
| Preconditions.CheckArgumentFormat | src/main/java/dev/derklaro/aerogel/internal/utility/Preconditions.java:65-69 | a true argument passes whatever the formatter does; a false one fails with an `AerogelException` carrying the formatted message, or with the formatter's own exception |
| Preconditions.FormatOverloadAgreesWithPlain | src/main/java/dev/derklaro/aerogel/internal/utility/Preconditions.java:51-69 | with a formatter that does not fail, the format overload equals the plain overload applied to the formatted message |
| Primitives.TableHasNineKeys | src/main/java/dev/derklaro/aerogel/internal/reflect/Primitives.java:48-58 | the wrapper table holds exactly the nine distinct keys it is filled with |
| Primitives.TableKeysArePrimitiveNames | src/main/java/dev/derklaro/aerogel/internal/reflect/Primitives.java:48-58 | the keys are exactly the names of the primitive classes |
| Primitives.WrapperTableHasOneEntryPerPrimitive | src/main/java/dev/derklaro/aerogel/internal/reflect/Primitives.java:48-58 | nine entries, one per primitive, `void` included, and no other key |
| Primitives.WrapperOnlyForPrimitives | src/main/java/dev/derklaro/aerogel/internal/reflect/Primitives.java:109-111 | looking a class up by its name finds a wrapper exactly when the class is primitive |
| Primitives.IsOfBoxedTypeExactly | src/main/java/dev/derklaro/aerogel/internal/reflect/Primitives.java:109-114 | with final wrapper classes, `isOfBoxedType(p, b)` holds exactly when `p` is primitive and `b` is a non-null instance of the wrapper of `p` |
| Primitives.IsOfBoxedType | src/main/java/dev/derklaro/aerogel/internal/reflect/Primitives.java:109-114 | the box lookup in the wrapper table and the assignability check; characterised by `Primitives.IsOfBoxedTypeExactly` |
| Primitives.IsNotPrimitiveOrIsAssignable | src/main/java/dev/derklaro/aerogel/internal/reflect/Primitives.java:87-100 | the primitive, `null` and raw-type branches of the check; characterised by `Primitives.DefaultValueIsAssignableToItsPrimitive`, `Primitives.AcceptanceFollowsTheHierarchy` and `ClassInstanceMaker.ConvertAgreesWithIsNotPrimitiveOrIsAssignable` |
| Primitives.AcceptanceFollowsTheHierarchy | src/main/java/dev/derklaro/aerogel/internal/reflect/Primitives.java:87-100 | in a transitive class hierarchy, a value the check accepts for one type (a boxed primitive for a primitive type) is accepted for every reference type whose raw type is assignable from that type's raw type (from its wrapper for a primitive) |
| Primitives.DefaultValue | src/main/java/dev/derklaro/aerogel/internal/reflect/Primitives.java:125-146 | a non-primitive class fails with the `AerogelException` "type <class> is not primitive", the class written as `Class.toString()` writes it ("interface " or "class " before the name); `void` reaches the `AssertionError`; every other primitive gets the boxed zero of its own wrapper class |
| Primitives.DefaultValueIsAssignableToItsPrimitive | src/main/java/dev/derklaro/aerogel/internal/reflect/Primitives.java:126-142 | the default of every non-void primitive passes `isNotPrimitiveOrIsAssignable` for that primitive, and `null` never does |
| Elements.ForType | src/main/java/dev/derklaro/aerogel/Element.java:47-56 | the new element has the given type and no requirements, so no special requirements |
| Elements.RawComponentType | src/main/java/dev/derklaro/aerogel/Element.java:66-80 | the erasure of the component type, primitive exactly when the element is keyed by that primitive class itself |
| Elements.HasSpecialRequirements | src/main/java/dev/derklaro/aerogel/Element.java:146-153 | an element has special requirements when it requires something; `Elements.ForType` states a new element has none, `Elements.RequireAnnotation` and `Elements.RequireName` with a name that it then has them |
| Elements.WithComponentType | src/main/java/dev/derklaro/aerogel/Element.java:90-99 | the new element has the given type and exactly the old requirements |
| Elements.WithComponentTypeRoundTrip | src/main/java/dev/derklaro/aerogel/Element.java:90-99 | swapping the type back restores the original element |
| Elements.RequireAnnotation | src/main/java/dev/derklaro/aerogel/Element.java:101-109 | same type, the old requirements plus the annotation, hence special requirements |
| Elements.RequireAnnotationCommutes | src/main/java/dev/derklaro/aerogel/Element.java:101-109 | requiring two annotations in either order gives equal elements, and requiring one twice equals requiring it once |
| Elements.RequireAnnotationType | src/main/java/dev/derklaro/aerogel/Element.java:111-126 | fails exactly when some member of the annotation type has no default; otherwise keeps the type |
| Elements.RequireAnnotationWith | src/main/java/dev/derklaro/aerogel/Element.java:128-144 | fails with an `AerogelException` exactly when some member without a default has no overriding value; otherwise adds the annotation proxy's predicate and keeps the type |
| Elements.RequireAnnotationTypeIsWithoutOverrides | src/main/java/dev/derklaro/aerogel/Element.java:111-126 | the one-argument overload equals the two-argument overload with no overrides |
| Elements.ProxyValuesAreOverridesThenDefaults | src/main/java/dev/derklaro/aerogel/Element.java:128-144 | a successfully required proxy has a value for every member: the override when one is given, the default otherwise |
| Elements.RequireName | src/main/java/dev/derklaro/aerogel/internal/codegen/ClassInstanceMaker.java:512 | keeps the type; no name leaves the element unchanged; a name is added as one more requirement, so the element then has special requirements |
| Reflection.Qualifiers | src/main/java/dev/derklaro/aerogel/internal/codegen/ClassInstanceMaker.java:464 | the result holds exactly the qualifier annotations of the parameter |
| Reflection.RequireAllAddsEach | src/main/java/dev/derklaro/aerogel/internal/codegen/ClassInstanceMaker.java:512-516 | requiring the annotations in turn keeps the type and adds exactly one requirement per annotation |
| Reflection.ParameterElementRequirements | src/main/java/dev/derklaro/aerogel/internal/codegen/ClassInstanceMaker.java:466-516 | a parameter's element is keyed by its generic type (the provided type for a provider) and requires exactly its name and its qualifier annotations |
| Reflection.ProviderElementIsReference | src/main/java/dev/derklaro/aerogel/internal/codegen/ClassInstanceMaker.java:468-470 | a provider parameter's element is never keyed by a primitive type |
| Reflection.UnboxingMatchesElementType | src/main/java/dev/derklaro/aerogel/internal/codegen/ClassInstanceMaker.java:499-509 | a parameter is unboxed exactly when its element is keyed by a primitive type, and then to that primitive |
| Slots.StoreWidth | src/main/java/dev/derklaro/aerogel/internal/codegen/ClassInstanceMaker.java:505-509 | the writer index advances by one or two slots per parameter |
| Slots.LoadWidth | src/main/java/dev/derklaro/aerogel/internal/codegen/ClassInstanceMaker.java:316-320 | the reader index advances by one or two slots per element |
| Slots.ParameterElementFits | src/main/java/dev/derklaro/aerogel/internal/codegen/ClassInstanceMaker.java:316-319 | each parameter's element is loaded with the width and primitive kind the parameter was stored with |
| Slots.ParameterElements | src/main/java/dev/derklaro/aerogel/internal/codegen/ClassInstanceMaker.java:243-247 | one element per parameter |
| Slots.StoresFollowParameters | src/main/java/dev/derklaro/aerogel/internal/codegen/ClassInstanceMaker.java:246-247 | store `i` obtains parameter `i`'s value the way the parameter's class prescribes |
| Slots.StoresAreConsecutive | src/main/java/dev/derklaro/aerogel/internal/codegen/ClassInstanceMaker.java:505-509 | the first store is at the starting slot and each next one starts right after the previous one's width |
| Slots.ChainedAgree | src/main/java/dev/derklaro/aerogel/internal/codegen/ClassInstanceMaker.java:245-250 | stores and loads built one parameter at a time agree: same slots, same kinds, at or above the base, disjoint intervals |
| Slots.PlansChain | src/main/java/dev/derklaro/aerogel/internal/codegen/ClassInstanceMaker.java:312-321 | the generated stores and the loads of fitting elements are built one matching parameter at a time |
| Slots.PlansAgree | src/main/java/dev/derklaro/aerogel/internal/codegen/ClassInstanceMaker.java:312-321 | for parameters Java can declare, `loadParameters` reads exactly the slots `storeParameters` wrote, with the same kinds, and no two parameters share a slot |
| ClassInstanceMaker.Mask | src/main/java/dev/derklaro/aerogel/internal/codegen/ClassInstanceMaker.java:388-391 | a masked value is never `null`, so a filled holder is never read as empty, and unmasking gives the value back |
| ClassInstanceMaker.ParameterSlotsAvoidTempSlot | src/main/java/dev/derklaro/aerogel/internal/codegen/ClassInstanceMaker.java:505-509 | parameter values start at slot 3, and no store or load uses the temporary slot 2 |
| ClassInstanceMaker.GeneratedMaker.constructor | src/main/java/dev/derklaro/aerogel/internal/codegen/ClassInstanceMaker.java:279-304 | keeps the elements and the current element; a singleton gets a fresh empty holder, a transient none |
| ClassInstanceMaker.GeneratedMaker.CheckForConstructedValue | src/main/java/dev/derklaro/aerogel/internal/codegen/ClassInstanceMaker.java:380-403 | the emitted check behaves as `Check`: a filled holder first (singletons only), then the context's constructed value for the current element |
| ClassInstanceMaker.GeneratedMaker.ResolveArgument | src/main/java/dev/derklaro/aerogel/internal/codegen/ClassInstanceMaker.java:477-503 | the emitted resolution of parameter `i` behaves as `ResolveParameter`: the injector's binding (bridged when asked) for a provider, `findInstance` then cast or unboxing otherwise |
| ClassInstanceMaker.LoadArguments | src/main/java/dev/derklaro/aerogel/internal/codegen/ClassInstanceMaker.java:312-321 | when every load reads the slot its parameter was stored in, the loads hand the constructor exactly the arguments stored for the parameters, in order; both makers use it |
| ClassInstanceMaker.GeneratedMaker.StoreAndPackInto | src/main/java/dev/derklaro/aerogel/internal/codegen/ClassInstanceMaker.java:360-371 | the singleton write behaves as the first-wins `storeAndPack` |
| ClassInstanceMaker.GeneratedMaker.NextParameter | src/main/java/dev/derklaro/aerogel/internal/codegen/ClassInstanceMaker.java:246-250 | one parameter's code (resolve, store, check) performs exactly one step of `Resolve`, and the stored slots keep every argument so far |
| ClassInstanceMaker.GeneratedMaker.GetInstance | src/main/java/dev/derklaro/aerogel/internal/codegen/ClassInstanceMaker.java:170-213 | the emitted `getInstance` returns what `Run` returns and leaves the context, the holder and the call trace as `Run` does |
| ClassInstanceMaker.GeneratedMaker.Instantiate | src/main/java/dev/derklaro/aerogel/internal/codegen/ClassInstanceMaker.java:194-213 | loads, constructor call, then the singleton write or the transient packing, as `Construct` states |
| ClassInstanceMaker.UnpackParameter | src/main/java/dev/derklaro/aerogel/internal/codegen/ClassInstanceMaker.java:450-517 | returns the parameter's element and the store at the first parameter slot (3 here) plus the writer index, and advances the index by the store's width; the older generator calls it with slot 2 |
| ClassInstanceMaker.StoreParameters | src/main/java/dev/derklaro/aerogel/internal/codegen/ClassInstanceMaker.java:234-253 | the elements of all parameters in order, and the stores laid out from the first parameter slot (3 here, 2 for the older generator) |
| ClassInstanceMaker.LoadParameters | src/main/java/dev/derklaro/aerogel/internal/codegen/ClassInstanceMaker.java:312-322 | the loads of all elements laid out from the first parameter slot (3 here, 2 for the older generator) |
| ClassInstanceMaker.ForConstructor | src/main/java/dev/derklaro/aerogel/internal/codegen/ClassInstanceMaker.java:146-223 | a fresh maker keyed by the given element, with one element and one mode per parameter, agreeing slots, and a fresh empty holder exactly for a singleton |
| ClassInstanceMaker.HolderHitReturnsStoredValue | src/main/java/dev/derklaro/aerogel/internal/codegen/ClassInstanceMaker.java:382-393 | a singleton with a filled holder returns the unmasked content without member injection and makes no call at all |
| ClassInstanceMaker.ContextHitReturnsWithoutMemberInjection | src/main/java/dev/derklaro/aerogel/internal/codegen/ClassInstanceMaker.java:394-402 | a singleton with an empty holder whose element has a constructed value returns it without member injection after a single lookup |
| ClassInstanceMaker.ZeroParameterTransientOnlyConstructs | src/main/java/dev/derklaro/aerogel/internal/codegen/ClassInstanceMaker.java:183-189 | a transient maker for a constructor without parameters only invokes the constructor and returns its value for member injection |
| ClassInstanceMaker.TransientReusesContextValueAfterFirstParameter | src/main/java/dev/derklaro/aerogel/internal/codegen/ClassInstanceMaker.java:246-250 | a transient maker with parameters returns a value recorded for its element during the first parameter's resolution, and never invokes the constructor then |
| ClassInstanceMaker.UnpackRequestsOnce | src/main/java/dev/derklaro/aerogel/internal/codegen/ClassInstanceMaker.java:480-498 | resolving a parameter makes exactly one call: `binding` for a provider, `findInstance` otherwise |
| ClassInstanceMaker.ResolveParameterRequestsOnce | src/main/java/dev/derklaro/aerogel/internal/codegen/ClassInstanceMaker.java:484-498 | parameter `i` is resolved by its own element `elements[i]` with the call its mode prescribes |
| ClassInstanceMaker.ResolveInDeclarationOrder | src/main/java/dev/derklaro/aerogel/internal/codegen/ClassInstanceMaker.java:246-250 | from parameter `i` on, the calls continue in index order, with the invocation only after the last parameter |
| ClassInstanceMaker.ParametersResolvedInDeclarationOrder | src/main/java/dev/derklaro/aerogel/internal/codegen/ClassInstanceMaker.java:246-248 | a run's calls, lookups and notices aside, are the resolution calls of parameters `0..k-1` in order, plus one invocation with an argument per parameter only when all were resolved |
| ClassInstanceMaker.ResolveFlagsFreshConstruction | src/main/java/dev/derklaro/aerogel/internal/codegen/ClassInstanceMaker.java:207-213 | from an empty holder, member injection is asked for exactly when the constructor was invoked last |
| ClassInstanceMaker.MemberInjectionMeansFreshlyConstructed | src/main/java/dev/derklaro/aerogel/internal/codegen/ClassInstanceMaker.java:207-213 | `doMemberInjection` holds exactly when the run ended by invoking the constructor; the value is then the constructor's result, which a singleton's holder then holds masked |
| ClassInstanceMaker.SingletonRemembersItsValue | src/main/java/dev/derklaro/aerogel/internal/codegen/ClassInstanceMaker.java:360-370 | after a singleton constructs, the next run returns the same value, even `null`, without member injection and without any call |
| ClassInstanceMaker.ConvertAgreesWithIsNotPrimitiveOrIsAssignable | src/main/java/dev/derklaro/aerogel/internal/codegen/ClassInstanceMaker.java:498-506 | the emitted cast or unboxing succeeds exactly when `isNotPrimitiveOrIsAssignable` accepts the value for the parameter's type |
| LegacyClassInstanceMaker.GeneratedMaker.constructor | src/main/java/aerogel/internal/codegen/ClassInstanceMaker.java:137-153 | keeps the elements; a singleton gets a fresh empty holder, a transient none |
| LegacyClassInstanceMaker.GeneratedMaker.ResolveArgument | src/main/java/aerogel/internal/codegen/ClassInstanceMaker.java:229-255 | the emitted resolution of parameter `i` behaves as `ResolveParameter` |
| LegacyClassInstanceMaker.GeneratedMaker.NextParameter | src/main/java/aerogel/internal/codegen/ClassInstanceMaker.java:280-285 | one parameter's code (resolve, store, holder check) performs exactly one step of `Resolve` |
| LegacyClassInstanceMaker.GeneratedMaker.GetInstance | src/main/java/aerogel/internal/codegen/ClassInstanceMaker.java:155-191 | the emitted `getInstance` returns what `Run` returns and leaves the context, the holder and the call trace as `Run` does |
| LegacyClassInstanceMaker.GeneratedMaker.Instantiate | src/main/java/aerogel/internal/codegen/ClassInstanceMaker.java:321-332 | loads, constructor call, then a singleton's holder is `set` to the raw value, which is returned |
| LegacyClassInstanceMaker.ForConstructor | src/main/java/aerogel/internal/codegen/ClassInstanceMaker.java:114-301 | a fresh maker whose parameter code (`unpackParameter`, `storeParameters`, `loadParameters`, generated by the shared methods from slot 2) gives one element and one mode per parameter, slots agreeing from slot 2, and a fresh empty holder exactly for a singleton |
| LegacyClassInstanceMaker.HolderHitReturnsStoredValue | src/main/java/aerogel/internal/codegen/ClassInstanceMaker.java:334-345 | a singleton whose holder is not `null` returns the content as it is and makes no call |
| LegacyClassInstanceMaker.Requests | src/main/java/aerogel/internal/codegen/ClassInstanceMaker.java:280-281 | one resolution call per parameter, each a `findInstance` or a `binding` call |
| LegacyClassInstanceMaker.ResolveInDeclarationOrder | src/main/java/aerogel/internal/codegen/ClassInstanceMaker.java:280-286 | from parameter `i` on, the trace grows by exactly the resolution calls in index order, then the invocation |
| LegacyClassInstanceMaker.ParametersResolvedInDeclarationOrder | src/main/java/aerogel/internal/codegen/ClassInstanceMaker.java:280-286 | a run's whole trace extension is the resolution calls of parameters `0..k-1` in order, plus one invocation only when all were resolved |
| LegacyClassInstanceMaker.NeverConsultsContext | src/main/java/aerogel/internal/codegen/ClassInstanceMaker.java:280-286 | a run only appends calls, and never looks a constructed value up in the context nor reports a construction to it |
| LegacyClassInstanceMaker.ResolveConstructsOrReturnsHeld | src/main/java/aerogel/internal/codegen/ClassInstanceMaker.java:174-191 | from parameter `i` on, a returned value is the constructor's result or a non-null holder content |
| LegacyClassInstanceMaker.ReturnsConstructedOrHeldValue | src/main/java/aerogel/internal/codegen/ClassInstanceMaker.java:321-332 | every returned value was just constructed, and is then what a singleton's holder holds, raw, or is the non-null holder content |
| LegacyClassInstanceMaker.SingletonRemembersNonNullValue | src/main/java/aerogel/internal/codegen/ClassInstanceMaker.java:334-345 | after a singleton returned a non-null value, the next run returns it again and makes no call |
| LegacyClassInstanceMaker.NullSingletonIsConstructedAgain | src/main/java/aerogel/internal/codegen/ClassInstanceMaker.java:186 | a `null` construction result leaves the holder reading as empty, so the next run resolves and constructs again |
| ConstructingBindingHolder.CreateBound | src/main/java/dev/derklaro/aerogel/internal/binding/ConstructingBindingHolder.java:108-122 | succeeds exactly when the bound class is instantiable and has an injectable constructor; an instantiability failure is the error, and otherwise a failed constructor lookup's error is; the plan binds the element to the bound element with the bound class's constructor and singleton flag |
| ConstructingBindingHolder.Create | src/main/java/dev/derklaro/aerogel/internal/binding/ConstructingBindingHolder.java:81-97 | the same decision, with the same two errors, for the class the binding constructs (the `@ProvidedBy` value's, else the element's own); the target is always the given element |
| ConstructingBindingHolder.CreateBindsUnprovidedElementToItself | src/main/java/dev/derklaro/aerogel/internal/binding/ConstructingBindingHolder.java:89-95 | without `@ProvidedBy` the one-element overload is the element bound to itself |
| ConstructingBindingHolder.ProvidedByIsFollowedOnce | src/main/java/dev/derklaro/aerogel/internal/binding/ConstructingBindingHolder.java:85-88 | with `@ProvidedBy` it delegates to the two-element overload with the element built from the provided class |
| ConstructingBindingHolder.ConstructingBindingHolder.constructor | src/main/java/dev/derklaro/aerogel/internal/binding/ConstructingBindingHolder.java:62-71 | the maker is generated for the injection point and keyed by the target element |
| ConstructingBindingHolder.CreateHolder | src/main/java/dev/derklaro/aerogel/internal/binding/ConstructingBindingHolder.java:81-97 | a holder exists exactly when `Create` succeeds, with `Create`'s error otherwise, and carries the plan's elements, constructor class and singleton flag |
| ConstructingBindingHolder.ConstructingBindingHolder.Get | src/main/java/dev/derklaro/aerogel/internal/binding/ConstructingBindingHolder.java:128-137 | runs the maker once and, on success, reports the value under the target and then the bound element, the context recording each report through its `constructDone`, as `GetOutcome` states |
| ConstructingBindingHolder.GetReportsTargetThenBinding | src/main/java/dev/derklaro/aerogel/internal/binding/ConstructingBindingHolder.java:133-134 | the last two calls report the returned value for the target, with member injection exactly when the constructor was just invoked, then for the bound element without it; a failure adds nothing |
| ConstructingBindingHolder.TraceOnlyGrows | src/main/java/dev/derklaro/aerogel/internal/binding/ConstructingBindingHolder.java:130 | running the maker never removes calls from the trace |
| ConstructingBindingHolder.HeldSingletonIsReportedAgain | src/main/java/dev/derklaro/aerogel/internal/binding/ConstructingBindingHolder.java:128-137 | a singleton already holding its value makes no call to construct it, but still reports it under both elements without member injection, and the context records both reports |
| ConstructingBindingHolder.GetMakesValueFindableUnderBothKeys | src/main/java/dev/derklaro/aerogel/internal/binding/ConstructingBindingHolder.java:133-134 | with a context whose `constructDone` records the value for the element (last write wins), a successful `get` leaves the value findable under the target and the bound element, and every other element as the run left it |

## Left out

- Bytecode generation is not modelled: ASM class writing, opcodes, frames, proxy class names
  built from `System.nanoTime()`, and class definition. The emitted method's
  behaviour is modelled instead, and `defineAndConstruct`'s reflective failures are
  left out.
- `LookupClassDefiner` and `UnsafeAccess` are not modelled. They only probe JVM internals
  for a way to define classes.
- Concurrency is not modelled. The singleton holder is a sequential cell. Another
  thread filling it is represented only by what a nested resolution leaves there
  (`Context.Resolution.holderAfter`).
- The operand-stack leftovers are not modelled: the duplicate `null` that the older
  `visitSingletonHolder` leaves on the stack, and the temp-slot store after the singleton
  write. Only the values and slots the code reads are modelled.
- What `constructDone` does to the context is a parameter of the model
  (`Context.Environment.record`); the context's own source is not part of this model.
  The documented behaviour, recording the value for the element with the last write
  winning, is the predicate `Context.RecordsLastWrite`, assumed only where a lemma says
  so. Member injection itself is not modelled.
- The `injector` parameter of the `create` factories and the holder's constructor is not
  modelled: the model never calls it.
- `Element.hashCode`, `toString` and `requiredAnnotations` are not modelled separately.
  Elements are Dafny values with structural equality, so equal elements agree on every
  function of them.
- Element requirements are modelled as a set, so the order in which qualifiers are
  required is not observable.
- The annotation proxy is modelled as a predicate holding the annotation type's name
  and member values. Proxy classes and exact exception messages of the annotation
  machinery are abstracted.
- `String.format` is a parameter that may fail.
- Float and double zeros are their IEEE 754 bit patterns.
- The `elements` array of the generated class is a sequence. A generated class never
  writes to it.
