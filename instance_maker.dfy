/**
 * The constructor-injection instance maker generator of `dev.derklaro.aerogel`
 * and the behaviour of the `getInstance(context)` method it emits.
 *
 * `Run` states that behaviour as a pure function over the context's constructed
 * values, the singleton holder's content and the calls made so far. The class
 * `GeneratedMaker` is the emitted code: it works step by step on the context,
 * the holder and a map of local-variable slots, and is proved to agree with
 * `Run`. The generator methods (`ForConstructor`, `StoreParameters`,
 * `UnpackParameter`, `LoadParameters`) produce the maker and its slot layout; the
 * last three take the first parameter slot, so the older generator shares them.
 */
module ClassInstanceMaker {
  import opened Failures
  import opened Jvm
  import opened Elements
  import opened Primitives
  import opened Reflection
  import opened Slots
  import opened Context

  /** Slot 0 holds the maker, slot 1 the context, slot 2 is the temporary the checks write. */
  const TempSlot: nat := 2
  /** Parameter values are stored from slot 3 on. */
  const FirstParameterSlot: nat := 3

  /** `InstanceCreateResult`: the value, and whether members still have to be injected into it. */
  datatype CreateResult = CreateResult(constructedValue: Object, doMemberInjection: bool)

  // ----- the holder cell (`ReferenceUtil`) -----

  /** The holder stores a sentinel in place of `null`, so a constructed `null` still marks the holder as filled. */
  function Mask(v: Object): (m: Object)
    ensures m != Null
    ensures v != NullMask ==> Unmask(m) == v
  {
    if v == Null then NullMask else v
  }

  function Unmask(v: Object): Object
  {
    if v == NullMask then Null else v
  }

  /** `unmaskAndPack(stored)`: a value taken from the holder needs no member injection. */
  function UnmaskAndPack(stored: Object): CreateResult
  {
    CreateResult(Unmask(stored), false)
  }

  /**
   * `storeAndPack(holder, value)`, publishing first-wins: an empty holder takes the
   * masked value and the result asks for member injection; a filled holder keeps its
   * value, which is returned instead.
   */
  function StoreAndPack(cell: Object, v: Object): (CreateResult, Object)
  {
    if cell == Null then (CreateResult(v, true), Mask(v)) else (UnmaskAndPack(cell), cell)
  }

  // ----- the specification of the emitted method -----

  /** What the emitted code fixes at generation time. */
  datatype Shape = Shape(
    currentElement: Element,
    elements: seq<Element>,
    modes: seq<ResolutionMode>,
    singleton: bool,
    declaringClass: JClass)

  predicate WellShaped(s: Shape)
  {
    |s.elements| == |s.modes|
  }

  /** The state the emitted code reads and changes: constructed values, holder content, calls made. */
  datatype World = World(constructed: map<Element, Object>, cell: Object, trace: seq<Event>)

  /**
   * The value stored for a resolved parameter: `CHECKCAST` to the parameter's class,
   * or the unboxing `AsmPrimitives.storeUnbox` emits (a cast to the wrapper and its
   * `xxxValue()` call).
   */
  function Convert(h: Hierarchy, mode: ResolutionMode, v: Object): Result<Arg>
  {
    match mode
    case ByProvider(_) => Ok(RefArg(v))
    case ByInstance(c) =>
      if v == Null || h.isAssignableFrom(c, ClassOf(v)) then Ok(RefArg(v))
      else Err(Raised("ClassCastException"))
    case ByUnboxing(k) =>
      if v == Null then Err(Raised("NullPointerException"))
      else if v.Boxed? && WrapperOf(Primitive(k)) == Some(BoxClass(v.boxed)) then Ok(PrimArg(v.boxed))
      else Err(Raised("ClassCastException"))
  }

  /**
   * `checkForConstructedValue`: a singleton first returns a filled holder's content;
   * then the context is asked for a value constructed for the current element.
   */
  function Check(s: Shape, w: World): (Option<CreateResult>, World)
  {
    if s.singleton && w.cell != Null then (Some(UnmaskAndPack(w.cell)), w)
    else
      var w1 := w.(trace := w.trace + [LookedUp(s.currentElement)]);
      var v := Lookup(w.constructed, s.currentElement);
      if v != Null then (Some(CreateResult(v, false)), w1) else (None, w1)
  }

  /**
   * The code `unpackParameter` emits for one parameter, run: the injector's binding for
   * a provider (bridged when asked), `findInstance` followed by the cast or unboxing
   * otherwise. A nested resolution may fill the holder of a maker that has one.
   */
  function Unpack(env: Environment, e: Element, mode: ResolutionMode, hasHolder: bool, w: World): (Result<Arg>, World)
  {
    match mode
    case ByProvider(jakarta) =>
      var w1 := w.(trace := w.trace + [BindingRequested(e)]);
      (match env.binding(e)
       case Err(err) => (Err(err), w1)
       case Ok(b) => (Ok(RefArg(if jakarta then env.bridgeJakarta(b) else b)), w1))
    case _ =>
      var res := env.findInstance(e, w.constructed, w.cell);
      var w1 := World(res.constructedAfter, if hasHolder then res.holderAfter else w.cell,
        w.trace + [InstanceRequested(e)]);
      (match res.value
       case Err(err) => (Err(err), w1)
       case Ok(v) => (Convert(env.hierarchy, mode, v), w1))
  }

  /** Parameter `i` of a maker, resolved by its own element and mode. */
  function ResolveParameter(s: Shape, env: Environment, i: nat, w: World): (Result<Arg>, World)
    requires WellShaped(s) && i < |s.elements|
  {
    Unpack(env, s.elements[i], s.modes[i], s.singleton, w)
  }

  /** Invoking the constructor, then publishing (singleton) or packing for member injection (transient). */
  function Construct(s: Shape, env: Environment, args: seq<Arg>, w: World): (Result<CreateResult>, World)
  {
    var w1 := w.(trace := w.trace + [Invoked(s.declaringClass, args)]);
    match env.invoke(s.declaringClass, args)
    case Err(err) => (Err(err), w1)
    case Ok(v) =>
      if s.singleton then
        var (r, cell) := StoreAndPack(w.cell, v);
        (Ok(r), w1.(cell := cell))
      else (Ok(CreateResult(v, true)), w1)
  }

  /** Parameters `i..` in order, each followed by the check, then the construction with all arguments. */
  function Resolve(s: Shape, env: Environment, i: nat, args: seq<Arg>, w: World): (Result<CreateResult>, World)
    requires WellShaped(s) && i <= |s.elements|
    decreases |s.elements| - i
  {
    if i == |s.elements| then Construct(s, env, args, w)
    else
      var (a, w1) := ResolveParameter(s, env, i, w);
      match a
      case Err(err) => (Err(err), w1)
      case Ok(arg) =>
        var (hit, w2) := Check(s, w1);
        if hit.Some? then (Ok(hit.value), w2) else Resolve(s, env, i + 1, args + [arg], w2)
  }

  /** The emitted `getInstance(context)`: the entry check for singletons only, then the parameters. */
  function Run(s: Shape, env: Environment, w: World): (Result<CreateResult>, World)
    requires WellShaped(s)
  {
    if s.singleton then
      var (hit, w1) := Check(s, w);
      if hit.Some? then (Ok(hit.value), w1) else Resolve(s, env, 0, [], w1)
    else Resolve(s, env, 0, [], w)
  }

  // ----- the emitted code -----

  /** A local-variable slot: a value, or the upper half of a two-slot primitive. */
  datatype Local = Value(arg: Arg) | UpperHalf

  /** The effect of a store instruction on the local-variable slots. */
  function Store(locals: map<nat, Local>, step: StoreStep, a: Arg): map<nat, Local>
  {
    if StoreWidth(step.mode) == 2 then locals[step.slot := Value(a)][step.slot + 1 := UpperHalf]
    else locals[step.slot := Value(a)]
  }

  /** The slots of parameters `0..i-1` hold their arguments. */
  ghost predicate Stored(stores: seq<StoreStep>, locals: map<nat, Local>, args: seq<Arg>, i: nat)
    requires i <= |stores| && |args| == i
  {
    forall j | 0 <= j < i :: stores[j].slot in locals && locals[stores[j].slot] == Value(args[j])
  }

  /**
   * The loads emitted before the constructor call: reading back the slot each
   * parameter was stored in hands the constructor exactly the stored arguments.
   */
  method LoadArguments(stores: seq<StoreStep>, loads: seq<LoadStep>, locals: map<nat, Local>, ghost args: seq<Arg>)
    returns (loaded: seq<Arg>)
    requires |loads| == |stores| && forall j | 0 <= j < |loads| :: loads[j].slot == stores[j].slot
    requires |args| == |stores| && Stored(stores, locals, args, |stores|)
    ensures loaded == args
  {
    loaded := [];
    var j := 0;
    while j < |loads|
      invariant 0 <= j <= |loads|
      invariant loaded == args[..j]
    {
      loaded := loaded + [locals[loads[j].slot].arg];
      j := j + 1;
    }
  }

  /** An instance of the class the generator defines for one constructor. */
  class GeneratedMaker {
    /** `elements`: the element of every parameter */
    const elements: seq<Element>
    /** `currentElement`: the element this maker constructs, the key of its context lookups */
    const currentElement: Element
    /** `holder`: present exactly for a singleton maker */
    const holder: AtomicReference?
    const declaringClass: JClass
    /** the stores and loads the generator emitted */
    const stores: seq<StoreStep>
    const loads: seq<LoadStep>

    ghost predicate Valid()
    {
      |elements| == |stores| && SlotsAgree(stores, loads, FirstParameterSlot)
    }

    function ShapeOf(): Shape
    {
      Shape(currentElement, elements, Modes(stores), holder != null, declaringClass)
    }

    function Cell(): Object
      reads holder
    {
      if holder == null then Null else holder.value
    }

    /** The generated class's constructor: it keeps the elements and, for a singleton, creates an empty holder. */
    constructor (elements: seq<Element>, currentElement: Element, singleton: bool, declaringClass: JClass,
                 stores: seq<StoreStep>, loads: seq<LoadStep>)
      ensures this.elements == elements && this.currentElement == currentElement
      ensures this.declaringClass == declaringClass && this.stores == stores && this.loads == loads
      ensures singleton <==> holder != null
      ensures holder != null ==> fresh(holder) && holder.value == Null
    {
      this.elements := elements;
      this.currentElement := currentElement;
      this.declaringClass := declaringClass;
      this.stores := stores;
      this.loads := loads;
      if singleton {
        holder := new AtomicReference();
      } else {
        holder := null;
      }
    }

    /** The emitted `checkForConstructedValue` code; `temp` is what it leaves in slot 2. */
    method CheckForConstructedValue(ctx: InjectionContext) returns (hit: Option<CreateResult>, temp: Object)
      modifies ctx
      ensures (hit, World(ctx.constructed, Cell(), ctx.trace)) ==
        Check(ShapeOf(), World(old(ctx.constructed), Cell(), old(ctx.trace)))
    {
      if holder != null {
        var stored := holder.value;
        temp := stored;
        if stored != Null {
          hit := Some(UnmaskAndPack(stored));
          return;
        }
      }
      var v := ctx.FindConstructedValue(currentElement);
      temp := v;
      if v != Null {
        hit := Some(CreateResult(v, false));
      } else {
        hit := None;
      }
    }

    /** The emitted `unpackParameter` code for parameter `i`, up to the store. */
    method ResolveArgument(ctx: InjectionContext, i: nat) returns (a: Result<Arg>)
      requires Valid() && i < |elements|
      modifies ctx, holder
      ensures (a, World(ctx.constructed, Cell(), ctx.trace)) ==
        ResolveParameter(ShapeOf(), ctx.env, i, World(old(ctx.constructed), old(Cell()), old(ctx.trace)))
    {
      var e := elements[i];
      match stores[i].mode
      case ByProvider(jakarta) =>
        var b := ctx.InjectorBinding(e);
        if b.Err? {
          a := Err(b.error);
        } else {
          a := Ok(RefArg(if jakarta then ctx.env.bridgeJakarta(b.value) else b.value));
        }
      case _ =>
        var v := ctx.FindInstance(e, holder);
        if v.Err? {
          a := Err(v.error);
        } else {
          a := Convert(ctx.env.hierarchy, stores[i].mode, v.value);
        }
    }

    /** `appendSingletonWrite`: publish the constructed value through `storeAndPack`. */
    method StoreAndPackInto(v: Object) returns (r: CreateResult)
      requires holder != null
      modifies holder
      ensures (r, holder.value) == StoreAndPack(old(holder.value), v)
    {
      var stored := holder.value;
      if stored == Null {
        holder.value := Mask(v);
        r := CreateResult(v, true);
      } else {
        r := UnmaskAndPack(stored);
      }
    }

    /** The code emitted for parameter `i`: unpack it, store it, then check for a constructed value. */
    method NextParameter(ctx: InjectionContext, i: nat, locals: map<nat, Local>, ghost args: seq<Arg>)
      returns (a: Result<Arg>, hit: Option<CreateResult>, locals': map<nat, Local>)
      requires Valid() && i < |stores| && |args| == i && Stored(stores, locals, args, i)
      modifies ctx, holder
      ensures a.Ok? ==> Stored(stores, locals', args + [a.value], i + 1)
      ensures var w := World(old(ctx.constructed), old(Cell()), old(ctx.trace));
        var w' := World(ctx.constructed, Cell(), ctx.trace);
        Resolve(ShapeOf(), ctx.env, i, args, w) ==
          if a.Err? then (Err(a.error), w')
          else if hit.Some? then (Ok(hit.value), w')
          else Resolve(ShapeOf(), ctx.env, i + 1, args + [a.value], w')
    {
      locals' := locals;
      hit := None;
      a := ResolveArgument(ctx, i);
      if a.Ok? {
        locals' := Store(locals', stores[i], a.value);
        var temp;
        hit, temp := CheckForConstructedValue(ctx);
        locals' := locals'[TempSlot := Value(RefArg(temp))];
      }
    }

    /** The emitted `getInstance(context)`, which behaves as `Run` states. */
    method GetInstance(ctx: InjectionContext) returns (r: Result<CreateResult>)
      requires Valid()
      modifies ctx, holder
      ensures (r, World(ctx.constructed, Cell(), ctx.trace)) ==
        Run(ShapeOf(), ctx.env, World(old(ctx.constructed), old(Cell()), old(ctx.trace)))
    {
      ghost var s := ShapeOf();
      ghost var w0 := World(ctx.constructed, Cell(), ctx.trace);
      if holder != null {
        var hit, _ := CheckForConstructedValue(ctx);
        if hit.Some? {
          return Ok(hit.value);
        }
      }
      var locals: map<nat, Local> := map[];
      ghost var args: seq<Arg> := [];
      var i := 0;
      while i < |stores|
        invariant 0 <= i <= |stores| && |args| == i
        invariant Resolve(s, ctx.env, i, args, World(ctx.constructed, Cell(), ctx.trace)) == Run(s, ctx.env, w0)
        invariant Stored(stores, locals, args, i)
      {
        var a, hit;
        a, hit, locals := NextParameter(ctx, i, locals, args);
        if a.Err? {
          return Err(a.error);
        }
        if hit.Some? {
          return Ok(hit.value);
        }
        args := args + [a.value];
        i := i + 1;
      }
      r := Instantiate(ctx, locals, args);
    }

    /** The loads, the constructor call, and the singleton write or the packing of the new value. */
    method Instantiate(ctx: InjectionContext, locals: map<nat, Local>, ghost args: seq<Arg>) returns (r: Result<CreateResult>)
      requires Valid() && |args| == |stores| && Stored(stores, locals, args, |stores|)
      modifies ctx, holder
      ensures (r, World(ctx.constructed, Cell(), ctx.trace)) ==
        Construct(ShapeOf(), ctx.env, args, World(old(ctx.constructed), old(Cell()), old(ctx.trace)))
    {
      var loaded := LoadArguments(stores, loads, locals, args);
      ctx.trace := ctx.trace + [Invoked(declaringClass, loaded)];
      var v := ctx.env.invoke(declaringClass, loaded);
      if v.Err? {
        return Err(v.error);
      }
      if holder != null {
        var result := StoreAndPackInto(v.value);
        r := Ok(result);
      } else {
        r := Ok(CreateResult(v.value, true));
      }
    }
  }

  // ----- the generator -----

  /**
   * `unpackParameter`: the element parameter `i` is resolved by, and the store emitted
   * for it at the first parameter slot `base` plus the writer index, which then
   * advances by the store's width. Both generators share it: the newer one lays
   * parameters out from slot 3, the older one from slot 2.
   */
  method UnpackParameter(b: Bridge, p: Parameter, base: nat, writerIndex: nat) returns (element: Element, step: StoreStep, nextWriterIndex: nat)
    ensures element == ParameterElement(b, p)
    ensures step == StoreStep(ModeOf(b, p), base + writerIndex)
    ensures nextWriterIndex == writerIndex + StoreWidth(ModeOf(b, p))
  {
    var name := b.nameOf(p);
    var provider := b.isProvider(p.cls);
    var jakartaProvider := b.needsProviderWrapping(p.cls);
    var qualified := Qualifiers(b, p.annotations);
    var generic: JType;
    var cls: JClass;
    if provider {
      generic := GenericSuperType(p.parameterizedType);
      cls := RawType(GenericSuperType(p.parameterizedType));
    } else {
      cls := p.cls;
      generic := p.parameterizedType;
    }
    var mode: ResolutionMode;
    if provider {
      mode := ByProvider(jakartaProvider);
    } else if cls.Primitive? {
      mode := ByUnboxing(cls.kind);
    } else {
      mode := ByInstance(cls);
    }
    step := StoreStep(mode, base + writerIndex);
    if !provider && cls.Primitive? {
      nextWriterIndex := writerIndex + KindWidth(cls.kind);
    } else {
      nextWriterIndex := writerIndex + 1;
    }
    element := RequireName(ForType(generic), name);
    var k := 0;
    while k < |qualified|
      invariant 0 <= k <= |qualified|
      invariant RequireAll(element, qualified[k..]) == ParameterElement(b, p)
    {
      assert qualified[k..][1..] == qualified[k + 1..];
      element := RequireAnnotation(element, qualified[k]);
      k := k + 1;
    }
  }

  /** `storeParameters`: every parameter in declaration order, the writer index running from 0. */
  method StoreParameters(b: Bridge, params: seq<Parameter>, base: nat) returns (elements: seq<Element>, stores: seq<StoreStep>)
    ensures elements == ParameterElements(b, params)
    ensures stores == StoresFrom(b, params, base)
  {
    elements := [];
    stores := [];
    var writerIndex: nat := 0;
    var i := 0;
    while i < |params|
      invariant 0 <= i <= |params|
      invariant elements == ParameterElements(b, params)[..i]
      invariant stores + StoresFrom(b, params[i..], base + writerIndex) == StoresFrom(b, params, base)
    {
      var element, step, next := UnpackParameter(b, params[i], base, writerIndex);
      StoreStepAdvances(b, params, i, base + writerIndex, elements, stores, base);
      elements := elements + [element];
      stores := stores + [step];
      writerIndex := next;
      i := i + 1;
    }
    assert ParameterElements(b, params)[..i] == ParameterElements(b, params);
  }

  /** `loadParameters`: one load per element, the reader index running from 0. */
  method LoadParameters(elements: seq<Element>, base: nat) returns (loads: seq<LoadStep>)
    ensures loads == LoadsFrom(elements, base)
  {
    loads := [];
    var readerIndex: nat := 0;
    var i := 0;
    while i < |elements|
      invariant 0 <= i <= |elements|
      invariant loads + LoadsFrom(elements[i..], base + readerIndex) == LoadsFrom(elements, base)
    {
      var element := elements[i];
      LoadStepAdvances(elements, i, base + readerIndex, loads, base);
      if IsPrimitiveType(element.componentType) {
        loads := loads + [LoadPrimitive(element.componentType.cls.kind, base + readerIndex)];
        readerIndex := readerIndex + KindWidth(element.componentType.cls.kind);
      } else {
        loads := loads + [LoadReference(base + readerIndex)];
        readerIndex := readerIndex + 1;
      }
      i := i + 1;
    }
  }

  /**
   * `forConstructor(self, target, singleton)`: a maker keyed by `self`, with a holder
   * exactly when it is a singleton, whose stores and loads agree on every slot.
   */
  method ForConstructor(self: Element, target: Constructor, singleton: bool, b: Bridge) returns (m: GeneratedMaker)
    requires forall p | p in target.parameters :: WellFormedParameter(p)
    ensures fresh(m) && m.Valid()
    ensures m.currentElement == self && m.declaringClass == target.declaringClass
    ensures m.elements == ParameterElements(b, target.parameters)
    ensures Modes(m.stores) == seq(|target.parameters|, i requires 0 <= i < |target.parameters| => ModeOf(b, target.parameters[i]))
    ensures singleton <==> m.holder != null
    ensures m.holder != null ==> fresh(m.holder) && m.holder.value == Null
  {
    var elements: seq<Element>;
    var stores: seq<StoreStep>;
    var loads: seq<LoadStep>;
    if |target.parameters| == 0 {
      elements, stores, loads := [], [], [];
    } else {
      elements, stores := StoreParameters(b, target.parameters, FirstParameterSlot);
      loads := LoadParameters(elements, FirstParameterSlot);
    }
    PlansAgree(b, target.parameters, FirstParameterSlot);
    StoresFollowParameters(b, target.parameters, FirstParameterSlot);
    m := new GeneratedMaker(elements, self, singleton, target.declaringClass, stores, loads);
  }

  /**
   * Parameter values live in consecutive slots from slot 3 on, read back from the same
   * slots, so neither a store nor a load ever touches the temporary slot 2 that the
   * checks overwrite after every parameter.
   */
  lemma ParameterSlotsAvoidTempSlot(b: Bridge, params: seq<Parameter>)
    requires forall p | p in params :: WellFormedParameter(p)
    ensures |params| > 0 ==> StoresFrom(b, params, FirstParameterSlot)[0].slot == FirstParameterSlot
    ensures forall i | 0 <= i < |params| ::
      StoresFrom(b, params, FirstParameterSlot)[i].slot != TempSlot &&
      LoadsFrom(ParameterElements(b, params), FirstParameterSlot)[i].slot != TempSlot
  {
    PlansAgree(b, params, FirstParameterSlot);
    StoresAreConsecutive(b, params, FirstParameterSlot);
  }

  // ----- properties of the emitted method -----

  /** A singleton whose holder is filled returns the unmasked content: nothing is looked up, resolved or constructed. */
  lemma HolderHitReturnsStoredValue(s: Shape, env: Environment, w: World)
    requires WellShaped(s) && s.singleton && w.cell != Null
    ensures Run(s, env, w) == (Ok(CreateResult(Unmask(w.cell), false)), w)
  {
  }

  /**
   * A singleton with an empty holder whose element already has a constructed value in
   * the context returns that value, without member injection and without resolving anything.
   */
  lemma ContextHitReturnsWithoutMemberInjection(s: Shape, env: Environment, w: World)
    requires WellShaped(s) && s.singleton && w.cell == Null
    requires Lookup(w.constructed, s.currentElement) != Null
    ensures Run(s, env, w) ==
      (Ok(CreateResult(Lookup(w.constructed, s.currentElement), false)),
       w.(trace := w.trace + [LookedUp(s.currentElement)]))
  {
  }

  /** A transient maker for a constructor without parameters never consults the context: it only constructs. */
  lemma ZeroParameterTransientOnlyConstructs(s: Shape, env: Environment, w: World)
    requires WellShaped(s) && !s.singleton && |s.elements| == 0
    ensures Run(s, env, w).1 == w.(trace := w.trace + [Invoked(s.declaringClass, [])])
    ensures env.invoke(s.declaringClass, []).Ok? ==>
      Run(s, env, w).0 == Ok(CreateResult(env.invoke(s.declaringClass, []).value, true))
  {
  }

  /**
   * A transient maker with parameters does consult the context after its first
   * parameter: a value recorded for its own element by then is returned instead of
   * constructing a new instance.
   */
  lemma TransientReusesContextValueAfterFirstParameter(s: Shape, env: Environment, w: World)
    requires WellShaped(s) && !s.singleton && |s.elements| > 0
    requires ResolveParameter(s, env, 0, w).0.Ok?
    requires Lookup(ResolveParameter(s, env, 0, w).1.constructed, s.currentElement) != Null
    ensures Run(s, env, w).0 ==
      Ok(CreateResult(Lookup(ResolveParameter(s, env, 0, w).1.constructed, s.currentElement), false))
    ensures forall ev | ev in Run(s, env, w).1.trace[|w.trace|..] :: !ev.Invoked?
  {
    var w1 := ResolveParameter(s, env, 0, w).1;
    var w2 := w1.(trace := w1.trace + [LookedUp(s.currentElement)]);
    assert Run(s, env, w).1 == w2;
    assert w2.trace[|w.trace|..] == [RequestOf(s.elements[0], s.modes[0]), LookedUp(s.currentElement)];
  }

  /** The call a parameter is resolved by: the injector's binding for a provider, `findInstance` otherwise. */
  function RequestOf(e: Element, mode: ResolutionMode): Event
  {
    if mode.ByProvider? then BindingRequested(e) else InstanceRequested(e)
  }

  /** Resolving one parameter makes exactly one call, the one its mode prescribes, and keeps the earlier calls. */
  lemma UnpackRequestsOnce(env: Environment, e: Element, mode: ResolutionMode, hasHolder: bool, w: World)
    ensures Unpack(env, e, mode, hasHolder, w).1.trace == w.trace + [RequestOf(e, mode)]
  {
  }

  lemma ResolveParameterRequestsOnce(s: Shape, env: Environment, i: nat, w: World)
    requires WellShaped(s) && i < |s.elements|
    ensures ResolveParameter(s, env, i, w).1.trace == w.trace + [RequestOf(s.elements[i], s.modes[i])]
  {
    UnpackRequestsOnce(env, s.elements[i], s.modes[i], s.singleton, w);
  }

  /** The resolution calls parameters `i..k-1` make, in index order. */
  function Requests(s: Shape, i: nat, k: nat): seq<Event>
    requires WellShaped(s) && i <= k <= |s.elements|
    decreases k
  {
    if k == i then [] else Requests(s, i, k - 1) + [RequestOf(s.elements[k - 1], s.modes[k - 1])]
  }

  /** The calls of a trace other than context lookups and construction notices. */
  function Calls(t: seq<Event>): seq<Event>
    decreases |t|
  {
    if |t| == 0 then []
    else Calls(t[..|t| - 1]) + (if t[|t| - 1].LookedUp? || t[|t| - 1].Recorded? then [] else [t[|t| - 1]])
  }

  lemma CallsOfLongerTrace(t: seq<Event>, ev: Event)
    ensures Calls(t + [ev]) == Calls(t) + (if ev.LookedUp? || ev.Recorded? then [] else [ev])
  {
    assert (t + [ev])[..|t|] == t;
  }

  /**
   * The calls a run adds: the resolution calls of parameters `0..k-1` in index order,
   * and, only when every parameter was resolved, one constructor invocation with one
   * argument per parameter.
   */
  ghost predicate InDeclarationOrder(s: Shape, before: seq<Event>, after: seq<Event>)
    requires WellShaped(s)
  {
    (exists k | 0 <= k <= |s.elements| :: Calls(after) == Calls(before) + Requests(s, 0, k)) ||
    (exists args: seq<Arg> | |args| == |s.elements| ::
      Calls(after) == Calls(before) + Requests(s, 0, |s.elements|) + [Invoked(s.declaringClass, args)])
  }

  lemma {:induction false} ResolveInDeclarationOrder(s: Shape, env: Environment, i: nat, args: seq<Arg>, w: World, before: seq<Event>)
    requires WellShaped(s) && i <= |s.elements| && |args| == i
    requires Calls(w.trace) == Calls(before) + Requests(s, 0, i)
    ensures InDeclarationOrder(s, before, Resolve(s, env, i, args, w).1.trace)
    decreases |s.elements| - i
  {
    var after := Resolve(s, env, i, args, w).1.trace;
    if i == |s.elements| {
      CallsOfLongerTrace(w.trace, Invoked(s.declaringClass, args));
      assert Calls(after) == Calls(before) + Requests(s, 0, i) + [Invoked(s.declaringClass, args)];
    } else {
      var (a, w1) := ResolveParameter(s, env, i, w);
      ResolveParameterRequestsOnce(s, env, i, w);
      CallsOfLongerTrace(w.trace, RequestOf(s.elements[i], s.modes[i]));
      assert Calls(w1.trace) == Calls(before) + Requests(s, 0, i + 1);
      if a.Err? {
        assert Calls(after) == Calls(before) + Requests(s, 0, i + 1);
      } else {
        var (hit, w2) := Check(s, w1);
        CallsOfLongerTrace(w1.trace, LookedUp(s.currentElement));
        assert Calls(w2.trace) == Calls(before) + Requests(s, 0, i + 1);
        if hit.Some? {
          assert Calls(after) == Calls(before) + Requests(s, 0, i + 1);
        } else {
          ResolveInDeclarationOrder(s, env, i + 1, args + [a.value], w2, before);
        }
      }
    }
  }

  /**
   * Parameters are resolved strictly in index order, parameter `i` by its own element
   * and by the call its mode prescribes (so a provider never goes through
   * `findInstance`), and the constructor is invoked only after all of them.
   */
  lemma ParametersResolvedInDeclarationOrder(s: Shape, env: Environment, w: World)
    requires WellShaped(s)
    ensures InDeclarationOrder(s, w.trace, Run(s, env, w).1.trace)
  {
    assert Requests(s, 0, 0) == [];
    if s.singleton {
      var (hit, w1) := Check(s, w);
      if w1.trace != w.trace {
        CallsOfLongerTrace(w.trace, LookedUp(s.currentElement));
      }
      if hit.None? {
        ResolveInDeclarationOrder(s, env, 0, [], w1, w.trace);
      } else {
        assert Calls(w1.trace) == Calls(w.trace) + Requests(s, 0, 0);
      }
    } else {
      ResolveInDeclarationOrder(s, env, 0, [], w, w.trace);
    }
  }

  /** The run ended by invoking the constructor. */
  predicate EndsWithInvocation(before: seq<Event>, after: seq<Event>)
  {
    |after| > |before| && after[|after| - 1].Invoked?
  }

  /** What a result flagged for member injection promises. */
  predicate FreshlyConstructed(s: Shape, env: Environment, w: World, r: Result<CreateResult>, w1: World)
  {
    r.Ok? ==>
      (r.value.doMemberInjection <==> EndsWithInvocation(w.trace, w1.trace)) &&
      (r.value.doMemberInjection ==>
        env.invoke(s.declaringClass, w1.trace[|w1.trace| - 1].args) == Ok(r.value.constructedValue) &&
        (s.singleton ==> w1.cell == Mask(r.value.constructedValue)))
  }

  lemma {:induction false} ResolveFlagsFreshConstruction(s: Shape, env: Environment, i: nat, args: seq<Arg>, w: World)
    requires WellShaped(s) && i <= |s.elements|
    requires s.singleton ==> w.cell == Null
    ensures var (r, w1) := Resolve(s, env, i, args, w); FreshlyConstructed(s, env, w, r, w1)
    decreases |s.elements| - i
  {
    if i < |s.elements| {
      var (a, w1) := ResolveParameter(s, env, i, w);
      ResolveParameterRequestsOnce(s, env, i, w);
      if a.Ok? {
        var (hit, w2) := Check(s, w1);
        if hit.None? {
          ResolveFlagsFreshConstruction(s, env, i + 1, args + [a.value], w2);
          ResolveTraceGrows(s, env, i + 1, args + [a.value], w2);
        }
      }
    }
  }

  lemma {:induction false} ResolveTraceGrows(s: Shape, env: Environment, i: nat, args: seq<Arg>, w: World)
    requires WellShaped(s) && i <= |s.elements|
    ensures |Resolve(s, env, i, args, w).1.trace| > |w.trace|
    decreases |s.elements| - i
  {
    if i < |s.elements| {
      var (a, w1) := ResolveParameter(s, env, i, w);
      ResolveParameterRequestsOnce(s, env, i, w);
      if a.Ok? {
        var (hit, w2) := Check(s, w1);
        if hit.None? {
          ResolveTraceGrows(s, env, i + 1, args + [a.value], w2);
        }
      }
    }
  }

  /**
   * `doMemberInjection` is set exactly when this run invoked the constructor, and then
   * the result is what the constructor returned. A singleton that constructs always wins
   * the holder: every check before the construction found it empty, so the result is
   * never another thread's instance and the holder ends up holding the new one.
   */
  lemma MemberInjectionMeansFreshlyConstructed(s: Shape, env: Environment, w: World)
    requires WellShaped(s)
    ensures var (r, w1) := Run(s, env, w); FreshlyConstructed(s, env, w, r, w1)
  {
    if s.singleton {
      var (hit, w1) := Check(s, w);
      if hit.None? {
        ResolveFlagsFreshConstruction(s, env, 0, [], w1);
        ResolveTraceGrows(s, env, 0, [], w1);
      }
    } else {
      ResolveFlagsFreshConstruction(s, env, 0, [], w);
    }
  }

  /**
   * Once a singleton has constructed a value, the next run returns that same value
   * without member injection and without any call, even when the value is `null`:
   * the holder keeps the masked value, which is never empty.
   */
  lemma SingletonRemembersItsValue(s: Shape, env: Environment, w: World)
    requires WellShaped(s) && s.singleton
    requires Run(s, env, w).0.Ok? && Run(s, env, w).0.value.doMemberInjection
    requires Run(s, env, w).0.value.constructedValue != NullMask
    ensures var (r, w1) := Run(s, env, w);
      Run(s, env, w1) == (Ok(CreateResult(r.value.constructedValue, false)), w1)
  {
    MemberInjectionMeansFreshlyConstructed(s, env, w);
  }

  /**
   * The objects Java can hand to a parameter: the holder sentinel never escapes, and an
   * instance of a wrapper class is a boxed value.
   */
  predicate PlainObject(v: Object)
  {
    v != NullMask && !(v.Instance? && v.cls in PrimitiveToWrapper.Values)
  }

  /**
   * For a parameter resolved through `findInstance`, the cast or unboxing the emitted
   * code performs succeeds exactly when `Primitives.isNotPrimitiveOrIsAssignable`
   * accepts the value for the parameter's generic type.
   */
  lemma ConvertAgreesWithIsNotPrimitiveOrIsAssignable(h: Hierarchy, b: Bridge, p: Parameter, v: Object)
    requires FinalWrappers(h) && WellFormedParameter(p) && !b.isProvider(p.cls) && PlainObject(v)
    ensures Convert(h, ModeOf(b, p), v).Ok? <==> IsNotPrimitiveOrIsAssignable(h, p.parameterizedType, v)
  {
    RawTypeIsPrimitiveOnlyForPrimitiveClass(p.parameterizedType);
    if p.cls.Primitive? {
      IsOfBoxedTypeExactly(h, p.cls, v);
      WrapperTableHasOneEntryPerPrimitive();
      if v != Null && ClassOf(v) == PrimitiveToWrapper[Name(p.cls)] {
        assert PrimitiveToWrapper[Name(p.cls)] in PrimitiveToWrapper.Values;
      }
    }
  }
}
