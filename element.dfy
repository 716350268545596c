/**
 * `Element`: the immutable binding key — a (possibly generic) type plus the set
 * of requirements a binding must satisfy to be used for it. Every derivation
 * returns a new element; the receiver is a value and never changes.
 */
module Elements {
  import opened Failures
  import opened Jvm

  /** One member of an annotation type, with its default value if it declares one. */
  datatype AnnotationMethod = AnnotationMethod(name: string, defaultValue: Option<string>)

  datatype AnnotationType = AnnotationType(name: string, methods: seq<AnnotationMethod>)

  /** An annotation instance: its type and the values of its members. */
  datatype Annotation = Annotation(annotationType: AnnotationType, values: map<string, string>)

  /** What a required annotation is matched against: the annotation type's name and the member values. */
  datatype AnnotationPredicate = AnnotationPredicate(annotationType: string, values: map<string, string>)

  /** A requirement of an element: a required name, or a required qualifier annotation. */
  datatype Requirement =
    | RequiredName(name: string)
    | RequiredAnnotation(annotation: AnnotationPredicate)

  /** Equality is structural over the component type and the requirement set. */
  datatype Element = Element(componentType: JType, requirements: set<Requirement>)

  /** `Element.forType(type)`. */
  function ForType(t: JType): (e: Element)
    ensures e.componentType == t && e.requirements == {}
    ensures !HasSpecialRequirements(e)
  {
    Element(t, {})
  }

  /**
   * `rawComponentType()`: the erasure of the component type, which is primitive only
   * when the element is for a primitive class itself.
   */
  function RawComponentType(e: Element): (r: JClass)
    ensures WellFormedType(e.componentType) ==> (r.Primitive? <==> IsPrimitiveType(e.componentType))
  {
    if WellFormedType(e.componentType) then RawTypeIsPrimitiveOnlyForPrimitiveClass(e.componentType); RawType(e.componentType)
    else RawType(e.componentType)
  }

  /** `hasSpecialRequirements()`. */
  predicate HasSpecialRequirements(e: Element)
  {
    e.requirements != {}
  }

  /** `withComponentType(type)`: the same requirements over another type. */
  function WithComponentType(e: Element, t: JType): (r: Element)
    ensures r.componentType == t && r.requirements == e.requirements
  {
    e.(componentType := t)
  }

  /** Swapping the component type back restores the original element. */
  lemma WithComponentTypeRoundTrip(e: Element, t: JType)
    ensures WithComponentType(WithComponentType(e, t), e.componentType) == e
  {
  }

  function PredicateOf(a: Annotation): AnnotationPredicate
  {
    AnnotationPredicate(a.annotationType.name, a.values)
  }

  /** `requireAnnotation(annotation)`: the old requirements plus the annotation; the type stays. */
  function RequireAnnotation(e: Element, a: Annotation): (r: Element)
    ensures r.componentType == e.componentType
    ensures r.requirements == e.requirements + {RequiredAnnotation(PredicateOf(a))}
    ensures HasSpecialRequirements(r)
  {
    e.(requirements := e.requirements + {RequiredAnnotation(PredicateOf(a))})
  }

  /**
   * `requireName(name)`: a name is one more requirement. A parameter without a name
   * (`None`) leaves the element as it is.
   */
  function RequireName(e: Element, name: Option<string>): (r: Element)
    ensures r.componentType == e.componentType
    ensures name.None? ==> r == e
    ensures name.Some? ==> r.requirements == e.requirements + {RequiredName(name.value)}
    ensures name.Some? ==> HasSpecialRequirements(r)
  {
    match name
    case None => e
    case Some(n) => e.(requirements := e.requirements + {RequiredName(n)})
  }

  /**
   * Requirements form a set: the order in which two annotations are required does
   * not matter, and requiring one twice is the same as requiring it once, so
   * independently derived elements are interchangeable as keys.
   */
  lemma RequireAnnotationCommutes(e: Element, a: Annotation, b: Annotation)
    ensures RequireAnnotation(RequireAnnotation(e, a), b) == RequireAnnotation(RequireAnnotation(e, b), a)
    ensures RequireAnnotation(RequireAnnotation(e, a), a) == RequireAnnotation(e, a)
  {
  }

  /** The value a member gets from the first declaration of that name: its default, if any. */
  function DefaultFor(methods: seq<AnnotationMethod>, n: string): Option<string>
  {
    if |methods| == 0 then None
    else if methods[0].name == n then methods[0].defaultValue
    else DefaultFor(methods[1..], n)
  }

  /** An override wins over the default. */
  function ValueFor(methods: seq<AnnotationMethod>, overrides: map<string, string>, n: string): Option<string>
  {
    if n in overrides then Some(overrides[n]) else DefaultFor(methods, n)
  }

  function MethodNames(methods: seq<AnnotationMethod>): set<string>
  {
    set m | m in methods :: m.name
  }

  /** The predicate the annotation proxy stands for: every member that has a value, with that value. */
  function ProxyPredicate(t: AnnotationType, overrides: map<string, string>): AnnotationPredicate
  {
    AnnotationPredicate(
      t.name,
      map n | n in MethodNames(t.methods) && ValueFor(t.methods, overrides, n).Some? ::
        ValueFor(t.methods, overrides, n).value)
  }

  /** Some member has neither a default nor an overriding value. */
  predicate MissingValue(t: AnnotationType, overrides: map<string, string>)
  {
    exists m | m in t.methods :: m.defaultValue.None? && m.name !in overrides
  }

  function MissingValueMessage(t: AnnotationType): string
  {
    "annotation " + t.name + " has a non-defaulted method without a value"
  }

  /**
   * `requireAnnotation(annotationType, overriddenMethodValues)`: fails exactly when a
   * member without a default has no overriding value; otherwise requires the proxy.
   */
  function RequireAnnotationWith(e: Element, t: AnnotationType, overrides: map<string, string>): (r: Result<Element>)
    ensures r.Err? <==> MissingValue(t, overrides)
    ensures r.Err? ==> r.error.AerogelException?
    ensures r.Ok? ==> r.value.componentType == e.componentType
    ensures r.Ok? ==> r.value.requirements == e.requirements + {RequiredAnnotation(ProxyPredicate(t, overrides))}
  {
    if MissingValue(t, overrides) then Err(AerogelException(MissingValueMessage(t)))
    else Ok(e.(requirements := e.requirements + {RequiredAnnotation(ProxyPredicate(t, overrides))}))
  }

  /** `requireAnnotation(annotationType)`: fails when any member has no default. */
  function RequireAnnotationType(e: Element, t: AnnotationType): (r: Result<Element>)
    ensures r.Err? <==> exists m | m in t.methods :: m.defaultValue.None?
    ensures r.Ok? ==> r.value.componentType == e.componentType
  {
    if exists m | m in t.methods :: m.defaultValue.None? then Err(AerogelException(MissingValueMessage(t)))
    else Ok(e.(requirements := e.requirements + {RequiredAnnotation(ProxyPredicate(t, map[]))}))
  }

  /** The one-argument overload is the two-argument overload with no overrides. */
  lemma RequireAnnotationTypeIsWithoutOverrides(e: Element, t: AnnotationType)
    ensures RequireAnnotationType(e, t) == RequireAnnotationWith(e, t, map[])
  {
  }

  /** Member names are unique within an annotation type, as Java guarantees. */
  predicate UniqueMethodNames(t: AnnotationType)
  {
    forall i, j | 0 <= i < j < |t.methods| :: t.methods[i].name != t.methods[j].name
  }

  lemma {:induction false} DefaultForFindsMember(methods: seq<AnnotationMethod>, k: nat)
    requires k < |methods|
    requires forall i, j | 0 <= i < j < |methods| :: methods[i].name != methods[j].name
    ensures DefaultFor(methods, methods[k].name) == methods[k].defaultValue
  {
    if k > 0 {
      assert methods[0].name != methods[k].name;
      DefaultForFindsMember(methods[1..], k - 1);
    }
  }

  /**
   * When `requireAnnotation(type, overrides)` succeeds, the required proxy carries a
   * value for every member: the overriding value if one is given, the default otherwise.
   */
  lemma ProxyValuesAreOverridesThenDefaults(t: AnnotationType, overrides: map<string, string>)
    requires UniqueMethodNames(t) && !MissingValue(t, overrides)
    ensures ProxyPredicate(t, overrides).values.Keys == MethodNames(t.methods)
    ensures forall m | m in t.methods ::
      ProxyPredicate(t, overrides).values[m.name] ==
        if m.name in overrides then overrides[m.name] else m.defaultValue.value
  {
    forall k | 0 <= k < |t.methods| ensures ValueFor(t.methods, overrides, t.methods[k].name).Some? {
      DefaultForFindsMember(t.methods, k);
    }
    forall m | m in t.methods
      ensures ProxyPredicate(t, overrides).values[m.name] ==
        if m.name in overrides then overrides[m.name] else m.defaultValue.value
    {
      var k :| 0 <= k < |t.methods| && t.methods[k] == m;
      DefaultForFindsMember(t.methods, k);
    }
  }
}
