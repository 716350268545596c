/**
 * What the instance-maker generator reads from a constructor by reflection, the
 * collaborators it queries about parameters, and how each parameter turns into
 * the element it is resolved by and the way its value is obtained.
 */
module Reflection {
  import opened Failures
  import opened Jvm
  import opened Elements

  /** A `java.lang.reflect.Parameter`: `getType()`, `getParameterizedType()` and its declared annotations. */
  datatype Parameter = Parameter(cls: JClass, parameterizedType: JType, annotations: seq<Annotation>)

  /** A `java.lang.reflect.Constructor`. */
  datatype Constructor = Constructor(declaringClass: JClass, parameters: seq<Parameter>)

  /**
   * The collaborators the generator only queries: `JakartaBridge.isProvider`,
   * `JakartaBridge.needsProviderWrapping`, `JakartaBridge.nameOf`, and the
   * qualifier test behind `ElementHelper.extractQualifierAnnotations`.
   */
  datatype Bridge = Bridge(
    isProvider: JClass -> bool,
    needsProviderWrapping: JClass -> bool,
    nameOf: Parameter -> Option<string>,
    isQualifier: AnnotationType -> bool)

  /** What Java's reflection guarantees of a parameter: its class is the erasure of its generic type and is not `void`. */
  predicate WellFormedParameter(p: Parameter)
  {
    WellFormedType(p.parameterizedType) && p.cls == RawType(p.parameterizedType) && p.cls != Primitive(Void)
  }

  /** `ReflectionUtil.genericSuperType`: the first type argument of a parameterized type, `Object` otherwise. */
  function GenericSuperType(t: JType): JType
  {
    if t.ParameterizedType? && |t.typeArguments| > 0 then t.typeArguments[0] else ClassType(ObjectClass)
  }

  /** How the emitted code obtains a parameter's value. */
  datatype ResolutionMode =
    /** `context.findInstance(e)` followed by a cast to the parameter's class */
    | ByInstance(castTo: JClass)
    /** `context.findInstance(e)` followed by unboxing to the primitive kind */
    | ByUnboxing(kind: Prim)
    /** `context.injector().binding(e)`, bridged to a jakarta provider when asked */
    | ByProvider(bridgeToJakarta: bool)

  /** The branch `unpackParameter` takes for a parameter. */
  function ModeOf(b: Bridge, p: Parameter): ResolutionMode
  {
    if b.isProvider(p.cls) then ByProvider(b.needsProviderWrapping(p.cls))
    else if p.cls.Primitive? then ByUnboxing(p.cls.kind)
    else ByInstance(p.cls)
  }

  /** The type a parameter's element is keyed by: the provided type for a provider, the generic type otherwise. */
  function ElementType(b: Bridge, p: Parameter): JType
  {
    if b.isProvider(p.cls) then GenericSuperType(p.parameterizedType) else p.parameterizedType
  }

  /** `ElementHelper.extractQualifierAnnotations`: the qualifier annotations, in declaration order. */
  function Qualifiers(b: Bridge, annotations: seq<Annotation>): (r: seq<Annotation>)
    ensures forall a | a in r :: a in annotations && b.isQualifier(a.annotationType)
    ensures forall a | a in annotations && b.isQualifier(a.annotationType) :: a in r
  {
    if |annotations| == 0 then []
    else (if b.isQualifier(annotations[0].annotationType) then [annotations[0]] else []) + Qualifiers(b, annotations[1..])
  }

  /** `requireAnnotation` applied to each annotation in turn. */
  function RequireAll(e: Element, annotations: seq<Annotation>): Element
    decreases |annotations|
  {
    if |annotations| == 0 then e
    else RequireAll(RequireAnnotation(e, annotations[0]), annotations[1..])
  }

  /** Requiring several annotations keeps the type and adds exactly their predicates. */
  lemma {:induction false} RequireAllAddsEach(e: Element, annotations: seq<Annotation>)
    ensures RequireAll(e, annotations).componentType == e.componentType
    ensures RequireAll(e, annotations).requirements ==
      e.requirements + set a | a in annotations :: RequiredAnnotation(PredicateOf(a))
    decreases |annotations|
  {
    if |annotations| > 0 {
      RequireAllAddsEach(RequireAnnotation(e, annotations[0]), annotations[1..]);
      assert annotations == [annotations[0]] + annotations[1..];
    }
  }

  /** The element `unpackParameter` returns: type, then name, then each qualifier in order. */
  function ParameterElement(b: Bridge, p: Parameter): Element
  {
    RequireAll(RequireName(ForType(ElementType(b, p)), b.nameOf(p)), Qualifiers(b, p.annotations))
  }

  /** The set of names a parameter requires: its name, if it has one. */
  function NameRequirements(name: Option<string>): set<Requirement>
  {
    if name.Some? then {RequiredName(name.value)} else {}
  }

  /**
   * A parameter's element is keyed by its (provided) type and requires exactly the
   * parameter's name and its qualifier annotations, nothing else.
   */
  lemma ParameterElementRequirements(b: Bridge, p: Parameter)
    ensures ParameterElement(b, p).componentType == ElementType(b, p)
    ensures ParameterElement(b, p).requirements ==
      NameRequirements(b.nameOf(p)) +
      set a | a in p.annotations && b.isQualifier(a.annotationType) :: RequiredAnnotation(PredicateOf(a))
  {
    var named := RequireName(ForType(ElementType(b, p)), b.nameOf(p));
    RequireAllAddsEach(named, Qualifiers(b, p.annotations));
  }

  /** A provider parameter's element is never keyed by a primitive type. */
  lemma ProviderElementIsReference(b: Bridge, p: Parameter)
    requires WellFormedParameter(p) && b.isProvider(p.cls)
    ensures !IsPrimitiveType(ParameterElement(b, p).componentType)
  {
    ParameterElementRequirements(b, p);
    var t := p.parameterizedType;
    if t.ParameterizedType? && |t.typeArguments| > 0 {
      assert t.typeArguments[0] in t.typeArguments;
    }
  }

  /**
   * Unboxing happens exactly for the parameters whose element is keyed by a primitive
   * type, and it unboxes to that primitive.
   */
  lemma UnboxingMatchesElementType(b: Bridge, p: Parameter)
    requires WellFormedParameter(p)
    ensures ModeOf(b, p).ByUnboxing? <==> IsPrimitiveType(ParameterElement(b, p).componentType)
    ensures ModeOf(b, p).ByUnboxing? ==> ParameterElement(b, p).componentType == ClassType(Primitive(ModeOf(b, p).kind))
  {
    ParameterElementRequirements(b, p);
    if b.isProvider(p.cls) {
      ProviderElementIsReference(b, p);
    } else {
      RawTypeIsPrimitiveOnlyForPrimitiveClass(p.parameterizedType);
    }
  }

  /** A value handed to the constructor: a reference, or an unboxed primitive. */
  datatype Arg = RefArg(ref: Object) | PrimArg(prim: BoxedValue)
}
