/**
 * The older instance maker generator, `aerogel.internal.codegen.ClassInstanceMaker`,
 * and the `getInstance(context)` it emits. It differs from the newer generator in
 * four ways: parameter values are stored from slot 2 on; a singleton only ever checks
 * its holder, never the context; the singleton write overwrites the holder with the
 * raw value (`set`, no sentinel for `null`); and the method returns the bare value.
 *
 * `Run` states the emitted method as a function; `GeneratedMaker.GetInstance` is the
 * emitted code, proved to agree with it. The parameter code is generated as in the
 * newer generator, whose `UnpackParameter`, `StoreParameters`, `LoadParameters` and
 * `LoadArguments` it calls with slot 2 as the first parameter slot.
 */
module LegacyClassInstanceMaker {
  import opened Failures
  import opened Jvm
  import opened Elements
  import opened Reflection
  import opened Slots
  import opened Context
  import Codegen = ClassInstanceMaker

  /** Slot 0 holds the maker, slot 1 the context; parameter values are stored from slot 2 on. */
  const FirstParameterSlot: nat := 2

  // ----- the specification of the emitted method -----

  /** What the emitted code fixes at generation time; this generator keeps no element of its own. */
  datatype Shape = Shape(elements: seq<Element>, modes: seq<ResolutionMode>, singleton: bool, declaringClass: JClass)

  predicate WellShaped(s: Shape)
  {
    |s.elements| == |s.modes|
  }

  /** `visitSingletonHolder`: a singleton whose holder is not `null` returns the holder's content. */
  function HolderCheck(s: Shape, w: Codegen.World): Option<Object>
  {
    if s.singleton && w.cell != Null then Some(w.cell) else None
  }

  /** Parameter `i`, resolved exactly as the newer generator resolves it. */
  function ResolveParameter(s: Shape, env: Environment, i: nat, w: Codegen.World): (Result<Arg>, Codegen.World)
    requires WellShaped(s) && i < |s.elements|
  {
    Codegen.Unpack(env, s.elements[i], s.modes[i], s.singleton, w)
  }

  /** Invoking the constructor; a singleton then `set`s the holder to the value, whatever it held. */
  function Construct(s: Shape, env: Environment, args: seq<Arg>, w: Codegen.World): (Result<Object>, Codegen.World)
  {
    var w1 := w.(trace := w.trace + [Invoked(s.declaringClass, args)]);
    match env.invoke(s.declaringClass, args)
    case Err(err) => (Err(err), w1)
    case Ok(v) => (Ok(v), if s.singleton then w1.(cell := v) else w1)
  }

  /** Parameters `i..` in order, each followed by the holder check of a singleton, then the construction. */
  function Resolve(s: Shape, env: Environment, i: nat, args: seq<Arg>, w: Codegen.World): (Result<Object>, Codegen.World)
    requires WellShaped(s) && i <= |s.elements|
    decreases |s.elements| - i
  {
    if i == |s.elements| then Construct(s, env, args, w)
    else
      var (a, w1) := ResolveParameter(s, env, i, w);
      match a
      case Err(err) => (Err(err), w1)
      case Ok(arg) =>
        match HolderCheck(s, w1)
        case Some(v) => (Ok(v), w1)
        case None => Resolve(s, env, i + 1, args + [arg], w1)
  }

  /** The emitted `getInstance(context)`: the holder check, then the parameters. */
  function Run(s: Shape, env: Environment, w: Codegen.World): (Result<Object>, Codegen.World)
    requires WellShaped(s)
  {
    match HolderCheck(s, w)
    case Some(v) => (Ok(v), w)
    case None => Resolve(s, env, 0, [], w)
  }

  // ----- the emitted code -----

  /** An instance of the class the older generator defines for one constructor. */
  class GeneratedMaker {
    /** `elements`: the element of every parameter */
    const elements: seq<Element>
    /** `holder`: present exactly for a singleton maker */
    const holder: AtomicReference?
    const declaringClass: JClass
    /** the stores and loads the generator emitted */
    const stores: seq<StoreStep>
    const loads: seq<LoadStep>

    ghost predicate Valid()
    {
      |elements| == |stores| && SlotsAgree(stores, loads, FirstParameterSlot)
    }

    function ShapeOf(): Shape
    {
      Shape(elements, Modes(stores), holder != null, declaringClass)
    }

    function Cell(): Object
      reads holder
    {
      if holder == null then Null else holder.value
    }

    /** The generated class's constructor: it keeps the elements and, for a singleton, creates an empty holder. */
    constructor (elements: seq<Element>, singleton: bool, declaringClass: JClass, stores: seq<StoreStep>, loads: seq<LoadStep>)
      ensures this.elements == elements && this.declaringClass == declaringClass
      ensures this.stores == stores && this.loads == loads
      ensures singleton <==> holder != null
      ensures holder != null ==> fresh(holder) && holder.value == Null
    {
      this.elements := elements;
      this.declaringClass := declaringClass;
      this.stores := stores;
      this.loads := loads;
      if singleton {
        holder := new AtomicReference();
      } else {
        holder := null;
      }
    }

    /** The emitted `unpackParameter` code for parameter `i`, up to the store. */
    method ResolveArgument(ctx: InjectionContext, i: nat) returns (a: Result<Arg>)
      requires Valid() && i < |elements|
      modifies ctx, holder
      ensures (a, Codegen.World(ctx.constructed, Cell(), ctx.trace)) ==
        ResolveParameter(ShapeOf(), ctx.env, i, Codegen.World(old(ctx.constructed), old(Cell()), old(ctx.trace)))
    {
      var e := elements[i];
      match stores[i].mode
      case ByProvider(jakarta) =>
        var b := ctx.InjectorBinding(e);
        if b.Err? {
          a := Err(b.error);
        } else {
          a := Ok(RefArg(if jakarta then ctx.env.bridgeJakarta(b.value) else b.value));
        }
      case _ =>
        var v := ctx.FindInstance(e, holder);
        if v.Err? {
          a := Err(v.error);
        } else {
          a := Codegen.Convert(ctx.env.hierarchy, stores[i].mode, v.value);
        }
    }

    /** The code emitted for parameter `i`: unpack it, store it, then a singleton's holder check. */
    method NextParameter(ctx: InjectionContext, i: nat, locals: map<nat, Codegen.Local>, ghost args: seq<Arg>)
      returns (a: Result<Arg>, held: Option<Object>, locals': map<nat, Codegen.Local>)
      requires Valid() && i < |stores| && |args| == i && Codegen.Stored(stores, locals, args, i)
      modifies ctx, holder
      ensures a.Ok? ==> Codegen.Stored(stores, locals', args + [a.value], i + 1)
      ensures var w := Codegen.World(old(ctx.constructed), old(Cell()), old(ctx.trace));
        var w' := Codegen.World(ctx.constructed, Cell(), ctx.trace);
        Resolve(ShapeOf(), ctx.env, i, args, w) ==
          if a.Err? then (Err(a.error), w')
          else if held.Some? then (Ok(held.value), w')
          else Resolve(ShapeOf(), ctx.env, i + 1, args + [a.value], w')
    {
      locals' := locals;
      held := None;
      a := ResolveArgument(ctx, i);
      if a.Ok? {
        locals' := Codegen.Store(locals', stores[i], a.value);
        if holder != null {
          var stored := holder.value;
          if stored != Null {
            held := Some(stored);
          }
        }
      }
    }

    /** The emitted `getInstance(context)`, which behaves as `Run` states. */
    method GetInstance(ctx: InjectionContext) returns (r: Result<Object>)
      requires Valid()
      modifies ctx, holder
      ensures (r, Codegen.World(ctx.constructed, Cell(), ctx.trace)) ==
        Run(ShapeOf(), ctx.env, Codegen.World(old(ctx.constructed), old(Cell()), old(ctx.trace)))
    {
      ghost var s := ShapeOf();
      ghost var w0 := Codegen.World(ctx.constructed, Cell(), ctx.trace);
      if holder != null {
        var stored := holder.value;
        if stored != Null {
          return Ok(stored);
        }
      }
      var locals: map<nat, Codegen.Local> := map[];
      ghost var args: seq<Arg> := [];
      var i := 0;
      while i < |stores|
        invariant 0 <= i <= |stores| && |args| == i
        invariant Resolve(s, ctx.env, i, args, Codegen.World(ctx.constructed, Cell(), ctx.trace)) == Run(s, ctx.env, w0)
        invariant Codegen.Stored(stores, locals, args, i)
      {
        var a, held;
        a, held, locals := NextParameter(ctx, i, locals, args);
        if a.Err? {
          return Err(a.error);
        }
        if held.Some? {
          return Ok(held.value);
        }
        args := args + [a.value];
        i := i + 1;
      }
      r := Instantiate(ctx, locals, args);
    }

    /** The loads, the constructor call and, for a singleton, `appendSingletonWrite`. */
    method Instantiate(ctx: InjectionContext, locals: map<nat, Codegen.Local>, ghost args: seq<Arg>) returns (r: Result<Object>)
      requires Valid() && |args| == |stores| && Codegen.Stored(stores, locals, args, |stores|)
      modifies ctx, holder
      ensures (r, Codegen.World(ctx.constructed, Cell(), ctx.trace)) ==
        Construct(ShapeOf(), ctx.env, args, Codegen.World(old(ctx.constructed), old(Cell()), old(ctx.trace)))
    {
      var loaded := Codegen.LoadArguments(stores, loads, locals, args);
      ctx.trace := ctx.trace + [Invoked(declaringClass, loaded)];
      var v := ctx.env.invoke(declaringClass, loaded);
      if v.Err? {
        return Err(v.error);
      }
      if holder != null {
        holder.value := v.value;
      }
      r := Ok(v.value);
    }
  }

  // ----- the generator -----

  /**
   * `forConstructor(target, singleton)`: a maker with a holder exactly when it is a
   * singleton, whose stores and loads agree on every slot from slot 2 on.
   */
  method ForConstructor(target: Constructor, singleton: bool, b: Bridge) returns (m: GeneratedMaker)
    requires forall p | p in target.parameters :: WellFormedParameter(p)
    ensures fresh(m) && m.Valid()
    ensures m.declaringClass == target.declaringClass
    ensures m.elements == ParameterElements(b, target.parameters)
    ensures Modes(m.stores) == seq(|target.parameters|, i requires 0 <= i < |target.parameters| => ModeOf(b, target.parameters[i]))
    ensures singleton <==> m.holder != null
    ensures m.holder != null ==> fresh(m.holder) && m.holder.value == Null
  {
    var elements: seq<Element>;
    var stores: seq<StoreStep>;
    var loads: seq<LoadStep>;
    if |target.parameters| == 0 {
      elements, stores, loads := [], [], [];
    } else {
      elements, stores := Codegen.StoreParameters(b, target.parameters, FirstParameterSlot);
      loads := Codegen.LoadParameters(elements, FirstParameterSlot);
    }
    PlansAgree(b, target.parameters, FirstParameterSlot);
    StoresFollowParameters(b, target.parameters, FirstParameterSlot);
    m := new GeneratedMaker(elements, singleton, target.declaringClass, stores, loads);
  }

  // ----- properties of the emitted method -----

  /** A singleton whose holder is not `null` returns its content as it is, making no call at all. */
  lemma HolderHitReturnsStoredValue(s: Shape, env: Environment, w: Codegen.World)
    requires WellShaped(s) && s.singleton && w.cell != Null
    ensures Run(s, env, w) == (Ok(w.cell), w)
  {
  }

  /** The resolution calls parameters `i..k-1` make, in index order. */
  function Requests(s: Shape, i: nat, k: nat): (t: seq<Event>)
    requires WellShaped(s) && i <= k <= |s.elements|
    ensures |t| == k - i
    ensures forall ev | ev in t :: ev.InstanceRequested? || ev.BindingRequested?
    decreases k
  {
    if k == i then [] else Requests(s, i, k - 1) + [Codegen.RequestOf(s.elements[k - 1], s.modes[k - 1])]
  }

  /**
   * The calls a run adds, exactly: the resolution calls of parameters `0..k-1` in index
   * order and, only when every parameter was resolved, one constructor invocation with
   * one argument per parameter. No lookup in the context and no construction notice
   * is among them.
   */
  ghost predicate CallsInDeclarationOrder(s: Shape, before: seq<Event>, after: seq<Event>)
    requires WellShaped(s)
  {
    (exists k | 0 <= k <= |s.elements| :: after == before + Requests(s, 0, k)) ||
    (exists args: seq<Arg> | |args| == |s.elements| ::
      after == before + Requests(s, 0, |s.elements|) + [Invoked(s.declaringClass, args)])
  }

  lemma {:induction false} ResolveInDeclarationOrder(s: Shape, env: Environment, i: nat, args: seq<Arg>, w: Codegen.World, before: seq<Event>)
    requires WellShaped(s) && i <= |s.elements| && |args| == i
    requires w.trace == before + Requests(s, 0, i)
    ensures CallsInDeclarationOrder(s, before, Resolve(s, env, i, args, w).1.trace)
    decreases |s.elements| - i
  {
    if i == |s.elements| {
      assert Resolve(s, env, i, args, w).1.trace == before + Requests(s, 0, i) + [Invoked(s.declaringClass, args)];
    } else {
      var (a, w1) := ResolveParameter(s, env, i, w);
      Codegen.UnpackRequestsOnce(env, s.elements[i], s.modes[i], s.singleton, w);
      assert w1.trace == before + Requests(s, 0, i + 1);
      if a.Ok? && HolderCheck(s, w1).None? {
        ResolveInDeclarationOrder(s, env, i + 1, args + [a.value], w1, before);
      }
    }
  }

  /**
   * Parameters are resolved strictly in index order, each by the call its mode
   * prescribes, the constructor is invoked only after all of them, and the context is
   * never asked for an already constructed value.
   */
  lemma ParametersResolvedInDeclarationOrder(s: Shape, env: Environment, w: Codegen.World)
    requires WellShaped(s)
    ensures CallsInDeclarationOrder(s, w.trace, Run(s, env, w).1.trace)
  {
    assert w.trace == w.trace + Requests(s, 0, 0);
    if HolderCheck(s, w).None? {
      ResolveInDeclarationOrder(s, env, 0, [], w, w.trace);
    }
  }

  /** Hence a run never looks anything up in the context and never reports a construction to it. */
  lemma NeverConsultsContext(s: Shape, env: Environment, w: Codegen.World)
    requires WellShaped(s)
    ensures w.trace <= Run(s, env, w).1.trace
    ensures forall ev | ev in Run(s, env, w).1.trace[|w.trace|..] :: !ev.LookedUp? && !ev.Recorded?
  {
    ParametersResolvedInDeclarationOrder(s, env, w);
    var after := Run(s, env, w).1.trace;
    if exists k | 0 <= k <= |s.elements| :: after == w.trace + Requests(s, 0, k) {
      var k :| 0 <= k <= |s.elements| && after == w.trace + Requests(s, 0, k);
      assert after[|w.trace|..] == Requests(s, 0, k);
    } else {
      var args: seq<Arg> :| |args| == |s.elements| &&
        after == w.trace + Requests(s, 0, |s.elements|) + [Invoked(s.declaringClass, args)];
      assert after[|w.trace|..] == Requests(s, 0, |s.elements|) + [Invoked(s.declaringClass, args)];
    }
  }

  /** The run ended by invoking the constructor. */
  predicate EndsWithInvocation(before: seq<Event>, after: seq<Event>)
  {
    |after| > |before| && after[|after| - 1].Invoked?
  }

  /**
   * What a value returned by the older maker is: either the constructor's result, which
   * a singleton's holder then holds as it is, or the non-`null` content of a
   * singleton's holder, returned without constructing.
   */
  predicate ConstructedOrHeld(s: Shape, env: Environment, w: Codegen.World, r: Result<Object>, w1: Codegen.World)
  {
    r.Ok? ==>
      if EndsWithInvocation(w.trace, w1.trace) then
        env.invoke(s.declaringClass, w1.trace[|w1.trace| - 1].args) == Ok(r.value) &&
        (s.singleton ==> w1.cell == r.value)
      else
        s.singleton && r.value == w1.cell && r.value != Null
  }

  lemma {:induction false} ResolveConstructsOrReturnsHeld(s: Shape, env: Environment, i: nat, args: seq<Arg>, w: Codegen.World)
    requires WellShaped(s) && i <= |s.elements|
    ensures var (r, w1) := Resolve(s, env, i, args, w); ConstructedOrHeld(s, env, w, r, w1)
    ensures |Resolve(s, env, i, args, w).1.trace| > |w.trace|
    decreases |s.elements| - i
  {
    if i < |s.elements| {
      var (a, w1) := ResolveParameter(s, env, i, w);
      Codegen.UnpackRequestsOnce(env, s.elements[i], s.modes[i], s.singleton, w);
      if a.Ok? && HolderCheck(s, w1).None? {
        ResolveConstructsOrReturnsHeld(s, env, i + 1, args + [a.value], w1);
      }
    }
  }

  /**
   * Every value the older maker returns was just constructed or was in the holder; a
   * singleton's holder is overwritten with exactly what the constructor returned.
   */
  lemma ReturnsConstructedOrHeldValue(s: Shape, env: Environment, w: Codegen.World)
    requires WellShaped(s)
    ensures var (r, w1) := Run(s, env, w); ConstructedOrHeld(s, env, w, r, w1)
  {
    if HolderCheck(s, w).None? {
      ResolveConstructsOrReturnsHeld(s, env, 0, [], w);
    }
  }

  /**
   * A singleton that constructed a non-`null` value returns that same value on the
   * next run, making no call.
   */
  lemma SingletonRemembersNonNullValue(s: Shape, env: Environment, w: Codegen.World)
    requires WellShaped(s) && s.singleton
    requires var (r, w1) := Run(s, env, w); r.Ok? && r.value != Null
    ensures var (r, w1) := Run(s, env, w); Run(s, env, w1) == (Ok(r.value), w1)
  {
    ReturnsConstructedOrHeldValue(s, env, w);
  }

  /**
   * A singleton whose constructor produced `null` stores `null`, which reads as an empty
   * holder: the next run starts over and resolves and constructs again.
   */
  lemma NullSingletonIsConstructedAgain(s: Shape, env: Environment, w: Codegen.World)
    requires WellShaped(s) && s.singleton
    requires var (r, w1) := Run(s, env, w); r == Ok(Null)
    ensures var (r, w1) := Run(s, env, w); Run(s, env, w1) == Resolve(s, env, 0, [], w1)
  {
    ReturnsConstructedOrHeldValue(s, env, w);
  }
}
