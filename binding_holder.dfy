/**
 * `ConstructingBindingHolder`: the binding that produces values by invoking a class's
 * injectable constructor through a generated instance maker. `Create` and
 * `CreateBound` decide, without side effects, which element is bound to which class,
 * through which constructor and whether as a singleton; the holder object keeps the
 * maker, and `Get` runs it and reports the construction to the context twice, under
 * the requested element and under the element it was bound to.
 */
module ConstructingBindingHolder {
  import opened Failures
  import opened Jvm
  import opened Elements
  import opened Reflection
  import opened Slots
  import opened Context
  import Codegen = ClassInstanceMaker

  /**
   * What `create` learns about a class from reflection and its collaborators: the
   * `@ProvidedBy` value, `ElementHelper.buildElement`, `ReflectionUtils.ensureInstantiable`,
   * `InjectionClassLookup.findInjectableConstructor` and `JakartaBridge.isSingleton`.
   */
  datatype ClassInfo = ClassInfo(
    providedBy: JClass -> Option<JClass>,
    buildElement: JClass -> Element,
    ensureInstantiable: JClass -> Outcome,
    findInjectableConstructor: JClass -> Result<Constructor>,
    isSingleton: JClass -> bool)

  /** Reflection only hands out constructors whose parameters are what Java can declare. */
  ghost predicate Reflective(info: ClassInfo)
  {
    forall c: JClass | info.findInjectableConstructor(c).Ok? ::
      forall p | p in info.findInjectableConstructor(c).value.parameters :: WellFormedParameter(p)
  }

  /** The arguments `create` passes to the holder's constructor. */
  datatype HolderPlan = HolderPlan(targetType: Element, bindingType: Element, injectionPoint: Constructor, singleton: bool)

  /** The class a binding for `e` constructs: the `@ProvidedBy` value of `e`'s class if it has one, that class otherwise. */
  function ConstructedClass(info: ClassInfo, e: Element): JClass
  {
    var cls := RawType(e.componentType);
    match info.providedBy(cls)
    case Some(provided) => RawType(info.buildElement(provided).componentType)
    case None => cls
  }

  /**
   * `create(injector, element, bound)`: `element` bound to the class of `bound`, which
   * must be instantiable (checked before the constructor is looked up). The binding
   * succeeds exactly when the class is instantiable and has an injectable constructor,
   * and is a singleton exactly when that class is one.
   */
  function CreateBound(info: ClassInfo, e: Element, bound: Element): (r: Result<HolderPlan>)
    ensures var cls := RawType(bound.componentType);
      r.Ok? <==> info.ensureInstantiable(cls).Pass? && info.findInjectableConstructor(cls).Ok?
    ensures info.ensureInstantiable(RawType(bound.componentType)).Fail? ==>
      r == Err(info.ensureInstantiable(RawType(bound.componentType)).error)
    ensures var cls := RawType(bound.componentType);
      info.ensureInstantiable(cls).Pass? && info.findInjectableConstructor(cls).Err? ==>
        r == Err(info.findInjectableConstructor(cls).error)
    ensures r.Ok? ==> r.value == HolderPlan(e, bound,
      info.findInjectableConstructor(RawType(bound.componentType)).value,
      info.isSingleton(RawType(bound.componentType)))
  {
    var cls := RawType(bound.componentType);
    match info.ensureInstantiable(cls)
    case Fail(err) => Err(err)
    case Pass =>
      var singleton := info.isSingleton(cls);
      match info.findInjectableConstructor(cls)
      case Err(err) => Err(err)
      case Ok(injectionPoint) => Ok(HolderPlan(e, bound, injectionPoint, singleton))
  }

  /**
   * `create(injector, element)`: a class carrying `@ProvidedBy` is bound to the element
   * built from the provided class; any other class is bound to itself.
   */
  function Create(info: ClassInfo, e: Element): (r: Result<HolderPlan>)
    ensures r.Ok? <==>
      info.ensureInstantiable(ConstructedClass(info, e)).Pass? &&
      info.findInjectableConstructor(ConstructedClass(info, e)).Ok?
    ensures info.ensureInstantiable(ConstructedClass(info, e)).Fail? ==>
      r == Err(info.ensureInstantiable(ConstructedClass(info, e)).error)
    ensures var cls := ConstructedClass(info, e);
      info.ensureInstantiable(cls).Pass? && info.findInjectableConstructor(cls).Err? ==>
        r == Err(info.findInjectableConstructor(cls).error)
    ensures r.Ok? ==> r.value.targetType == e
    ensures r.Ok? ==> RawType(r.value.bindingType.componentType) == ConstructedClass(info, e)
    ensures r.Ok? ==> r.value.injectionPoint == info.findInjectableConstructor(ConstructedClass(info, e)).value
    ensures r.Ok? ==> r.value.singleton == info.isSingleton(ConstructedClass(info, e))
  {
    var cls := RawType(e.componentType);
    match info.providedBy(cls)
    case Some(provided) => CreateBound(info, e, info.buildElement(provided))
    case None =>
      match info.ensureInstantiable(cls)
      case Fail(err) => Err(err)
      case Pass =>
        match info.findInjectableConstructor(cls)
        case Err(err) => Err(err)
        case Ok(injectionPoint) => Ok(HolderPlan(e, e, injectionPoint, info.isSingleton(cls)))
  }

  /** Without `@ProvidedBy`, the one-element overload is the element bound to itself. */
  lemma CreateBindsUnprovidedElementToItself(info: ClassInfo, e: Element)
    requires info.providedBy(RawType(e.componentType)).None?
    ensures Create(info, e) == CreateBound(info, e, e)
  {
  }

  /**
   * `@ProvidedBy` is followed one step only: the provided class is constructed even when
   * it carries `@ProvidedBy` itself.
   */
  lemma ProvidedByIsFollowedOnce(info: ClassInfo, e: Element)
    requires info.providedBy(RawType(e.componentType)).Some?
    ensures var provided := info.buildElement(info.providedBy(RawType(e.componentType)).value);
      Create(info, e) == CreateBound(info, e, provided)
  {
  }

  // ----- the holder -----

  /** `get(context)`, run: the maker's result, reported for the target and then for the bound element. */
  function GetOutcome(s: Codegen.Shape, bindingType: Element, env: Environment, w: Codegen.World): (Result<Object>, Codegen.World)
    requires Codegen.WellShaped(s)
  {
    var (r, w1) := Codegen.Run(s, env, w);
    match r
    case Err(err) => (Err(err), w1)
    case Ok(created) =>
      var v := created.constructedValue;
      var afterTarget := env.record(w1.constructed, s.currentElement, v, created.doMemberInjection);
      (Ok(v), w1.(constructed := env.record(afterTarget, bindingType, v, false),
                  trace := w1.trace + [Recorded(s.currentElement, v, created.doMemberInjection), Recorded(bindingType, v, false)]))
  }

  class ConstructingBindingHolder {
    const targetType: Element
    const bindingType: Element
    /** the field `constructor`: the instance maker generated for the injection point */
    const maker: Codegen.GeneratedMaker

    ghost predicate Valid()
    {
      maker.Valid() && maker.currentElement == targetType
    }

    /** The holder's constructor generates the maker, keyed by the target element. */
    constructor (targetType: Element, bindingType: Element, injectionPoint: Constructor, shouldBeSingleton: bool, b: Bridge)
      requires forall p | p in injectionPoint.parameters :: WellFormedParameter(p)
      ensures Valid()
      ensures this.targetType == targetType && this.bindingType == bindingType
      ensures maker.declaringClass == injectionPoint.declaringClass
      ensures maker.elements == ParameterElements(b, injectionPoint.parameters)
      ensures shouldBeSingleton <==> maker.holder != null
      ensures maker.holder != null ==> fresh(maker.holder) && maker.holder.value == Null
    {
      var m := Codegen.ForConstructor(targetType, injectionPoint, shouldBeSingleton, b);
      this.targetType := targetType;
      this.bindingType := bindingType;
      this.maker := m;
    }

    /** `get(context)`: construct (or reuse) the value, report it twice, return it. */
    method Get(ctx: InjectionContext) returns (r: Result<Object>)
      requires Valid()
      modifies ctx, maker.holder
      ensures (r, Codegen.World(ctx.constructed, maker.Cell(), ctx.trace)) ==
        GetOutcome(maker.ShapeOf(), bindingType, ctx.env,
          Codegen.World(old(ctx.constructed), old(maker.Cell()), old(ctx.trace)))
    {
      var result := maker.GetInstance(ctx);
      if result.Err? {
        return Err(result.error);
      }
      ghost var afterRun := ctx.trace;
      ghost var afterRunConstructed := ctx.constructed;
      var constructedValue := result.value.constructedValue;
      ctx.ConstructDone(targetType, constructedValue, result.value.doMemberInjection);
      ctx.ConstructDone(bindingType, constructedValue, false);
      assert ctx.constructed == ctx.env.record(ctx.env.record(afterRunConstructed, targetType, constructedValue,
        result.value.doMemberInjection), bindingType, constructedValue, false);
      assert ctx.trace == afterRun +
        [Recorded(targetType, constructedValue, result.value.doMemberInjection), Recorded(bindingType, constructedValue, false)];
      r := Ok(constructedValue);
    }
  }

  /** `create(injector, element)` followed by the holder's constructor; the injector is not modelled. */
  method CreateHolder(info: ClassInfo, e: Element, b: Bridge) returns (r: Result<ConstructingBindingHolder>)
    requires Reflective(info)
    ensures r.Ok? <==> Create(info, e).Ok?
    ensures r.Err? ==> r.error == Create(info, e).error
    ensures r.Ok? ==> fresh(r.value) && r.value.Valid()
    ensures r.Ok? ==> var plan := Create(info, e).value;
      r.value.targetType == plan.targetType && r.value.bindingType == plan.bindingType &&
      r.value.maker.declaringClass == plan.injectionPoint.declaringClass &&
      (plan.singleton <==> r.value.maker.holder != null)
  {
    var plan := Create(info, e);
    if plan.Err? {
      return Err(plan.error);
    }
    var holder := new ConstructingBindingHolder(plan.value.targetType, plan.value.bindingType,
      plan.value.injectionPoint, plan.value.singleton, b);
    r := Ok(holder);
  }

  // ----- properties of `get` -----

  /**
   * A successful `get` ends with two construction notices for the returned value: the
   * target's, asking for member injection exactly when this call invoked the
   * constructor, then the bound element's, never asking for it.
   */
  lemma GetReportsTargetThenBinding(s: Codegen.Shape, bindingType: Element, env: Environment, w: Codegen.World)
    requires Codegen.WellShaped(s)
    ensures var (r, w2) := GetOutcome(s, bindingType, env, w);
      r.Ok? ==>
        |w2.trace| >= |w.trace| + 2 &&
        w2.trace[|w2.trace| - 1] == Recorded(bindingType, r.value, false) &&
        w2.trace[|w2.trace| - 2].element == s.currentElement &&
        w2.trace[|w2.trace| - 2].value == r.value &&
        (w2.trace[|w2.trace| - 2].doMemberInjection <==>
          Codegen.EndsWithInvocation(w.trace, w2.trace[..|w2.trace| - 2]))
    ensures var (r, w2) := GetOutcome(s, bindingType, env, w);
      r.Err? ==> w2 == Codegen.Run(s, env, w).1
  {
    Codegen.MemberInjectionMeansFreshlyConstructed(s, env, w);
    var (r, w1) := Codegen.Run(s, env, w);
    if r.Ok? {
      var w2 := GetOutcome(s, bindingType, env, w).1;
      assert w2.trace[..|w2.trace| - 2] == w1.trace;
      if !Codegen.EndsWithInvocation(w.trace, w1.trace) {
        assert |w1.trace| >= |w.trace| by {
          Codegen.ParametersResolvedInDeclarationOrder(s, env, w);
          TraceOnlyGrows(s, env, w);
        }
      }
    }
  }

  /** A run only appends to the calls made so far. */
  lemma TraceOnlyGrows(s: Codegen.Shape, env: Environment, w: Codegen.World)
    requires Codegen.WellShaped(s)
    ensures |Codegen.Run(s, env, w).1.trace| >= |w.trace|
  {
    if s.singleton {
      var (hit, w1) := Codegen.Check(s, w);
      if hit.None? {
        Codegen.ResolveTraceGrows(s, env, 0, [], w1);
      }
    } else {
      Codegen.ResolveTraceGrows(s, env, 0, [], w);
    }
  }

  /**
   * A singleton already holding its value makes no call, returns that value, and still
   * reports it under both elements, neither asking for member injection.
   */
  lemma HeldSingletonIsReportedAgain(s: Codegen.Shape, bindingType: Element, env: Environment, w: Codegen.World)
    requires Codegen.WellShaped(s) && s.singleton && w.cell != Null
    ensures var v := Codegen.Unmask(w.cell);
      GetOutcome(s, bindingType, env, w) ==
        (Ok(v), w.(constructed := env.record(env.record(w.constructed, s.currentElement, v, false), bindingType, v, false),
                   trace := w.trace + [Recorded(s.currentElement, v, false), Recorded(bindingType, v, false)]))
  {
  }

  /**
   * With a context that records as documented, a successful `get` leaves the returned
   * value findable under the target element and under the bound element alike, and
   * every other element's value as the run left it.
   */
  lemma GetMakesValueFindableUnderBothKeys(s: Codegen.Shape, bindingType: Element, env: Environment, w: Codegen.World, other: Element)
    requires Codegen.WellShaped(s) && RecordsLastWrite(env)
    ensures var (r, w2) := GetOutcome(s, bindingType, env, w);
      r.Ok? ==>
        Lookup(w2.constructed, s.currentElement) == r.value &&
        Lookup(w2.constructed, bindingType) == r.value &&
        (other != s.currentElement && other != bindingType ==>
          Lookup(w2.constructed, other) == Lookup(Codegen.Run(s, env, w).1.constructed, other))
  {
    var (r, w1) := Codegen.Run(s, env, w);
    if r.Ok? {
      var v := r.value.constructedValue;
      var afterTarget := env.record(w1.constructed, s.currentElement, v, r.value.doMemberInjection);
      assert afterTarget == w1.constructed[s.currentElement := v];
      assert env.record(afterTarget, bindingType, v, false) == afterTarget[bindingType := v];
    }
  }
}
