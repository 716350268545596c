/**
 * The local-variable layout of the emitted `getInstance`: each parameter value is
 * stored in consecutive slots from a base slot on, one slot for a reference and
 * the primitive's width for an unboxed primitive, and read back from the same
 * slots before the constructor is invoked.
 */
module Slots {
  import opened Jvm
  import opened Elements
  import opened Reflection

  /**
   * `AsmPrimitives` slot width of a primitive: `long` and `double` take two slots and
   * every other kind one, as section 2.6.1 of the Java Virtual Machine Specification lays out.
   */
  function KindWidth(k: Prim): (w: nat)
    ensures 1 <= w <= 2
  {
    if k == Long || k == Double then 2 else 1
  }

  /** Slots the store of one parameter takes: the writer index advances by this much. */
  function StoreWidth(m: ResolutionMode): (w: nat)
    ensures 1 <= w <= 2
  {
    match m
    case ByUnboxing(k) => KindWidth(k)
    case _ => 1
  }

  /** Slots the load of one element reads: the reader index advances by this much. */
  function LoadWidth(e: Element): (w: nat)
    ensures 1 <= w <= 2
  {
    if IsPrimitiveType(e.componentType) then KindWidth(e.componentType.cls.kind) else 1
  }

  /** One parameter's store in the emitted code: how its value is obtained and where it goes. */
  datatype StoreStep = StoreStep(mode: ResolutionMode, slot: nat)

  /** How each parameter is resolved, read off the emitted stores. */
  function Modes(stores: seq<StoreStep>): (ms: seq<ResolutionMode>)
    ensures |ms| == |stores|
    ensures forall i | 0 <= i < |stores| :: ms[i] == stores[i].mode
  {
    seq(|stores|, i requires 0 <= i < |stores| => stores[i].mode)
  }

  /** One parameter's load in the emitted code: `ALOAD slot`, or the primitive load of its kind. */
  datatype LoadStep =
    | LoadReference(slot: nat)
    | LoadPrimitive(kind: Prim, slot: nat)

  /** The load `loadParameters` emits for an element read from `slot`. */
  function LoadStepFor(e: Element, slot: nat): LoadStep
  {
    if IsPrimitiveType(e.componentType) then LoadPrimitive(e.componentType.cls.kind, slot) else LoadReference(slot)
  }

  /** The element `e` read back for parameter `p` is read with the width and kind `p` was stored with. */
  predicate ElementFits(b: Bridge, p: Parameter, e: Element)
  {
    LoadWidth(e) == StoreWidth(ModeOf(b, p)) &&
    (IsPrimitiveType(e.componentType) <==> ModeOf(b, p).ByUnboxing?) &&
    (ModeOf(b, p).ByUnboxing? ==> e.componentType.cls.kind == ModeOf(b, p).kind)
  }

  /** The element of every parameter Java can declare fits it. */
  lemma ParameterElementFits(b: Bridge, p: Parameter)
    requires WellFormedParameter(p)
    ensures ElementFits(b, p, ParameterElement(b, p))
  {
    UnboxingMatchesElementType(b, p);
  }

  /**
   * The layout the emitted code relies on: loads read the slots stores wrote, with
   * matching kinds; every slot lies at or above `base`; and the slot intervals of
   * distinct parameters are disjoint.
   */
  predicate SlotsAgree(stores: seq<StoreStep>, loads: seq<LoadStep>, base: nat)
  {
    |stores| == |loads| &&
    (forall i | 0 <= i < |stores| ::
      stores[i].slot >= base &&
      loads[i].slot == stores[i].slot &&
      (loads[i].LoadPrimitive? <==> stores[i].mode.ByUnboxing?) &&
      (loads[i].LoadPrimitive? ==> loads[i].kind == stores[i].mode.kind)) &&
    (forall i, j | 0 <= i < j < |stores| :: stores[i].slot + StoreWidth(stores[i].mode) <= stores[j].slot)
  }

  /** The element of every parameter, in declaration order. */
  function ParameterElements(b: Bridge, params: seq<Parameter>): (es: seq<Element>)
    ensures |es| == |params|
  {
    seq(|params|, i requires 0 <= i < |params| => ParameterElement(b, params[i]))
  }

  /**
   * The stores `storeParameters` emits for `params` with the writer at `slot`: each
   * parameter goes to the current slot, which then advances by the store's width.
   */
  function StoresFrom(b: Bridge, params: seq<Parameter>, slot: nat): (plan: seq<StoreStep>)
    ensures |plan| == |params|
    decreases |params|
  {
    if |params| == 0 then []
    else [StoreStep(ModeOf(b, params[0]), slot)] + StoresFrom(b, params[1..], slot + StoreWidth(ModeOf(b, params[0])))
  }

  /** Store `i` resolves parameter `i` the way its class prescribes. */
  lemma {:induction false} StoresFollowParameters(b: Bridge, params: seq<Parameter>, slot: nat)
    ensures forall i | 0 <= i < |params| :: StoresFrom(b, params, slot)[i].mode == ModeOf(b, params[i])
    decreases |params|
  {
    if |params| > 0 {
      StoresFollowParameters(b, params[1..], slot + StoreWidth(ModeOf(b, params[0])));
      forall i | 1 <= i < |params| ensures StoresFrom(b, params, slot)[i].mode == ModeOf(b, params[i]) {
        assert params[1..][i - 1] == params[i];
      }
    }
  }

  /** The stores are consecutive: the first at the starting slot, each next one right after the previous one's interval. */
  lemma {:induction false} StoresAreConsecutive(b: Bridge, params: seq<Parameter>, slot: nat)
    ensures |params| > 0 ==> StoresFrom(b, params, slot)[0].slot == slot
    ensures forall i | 0 <= i < |params| - 1 ::
      StoresFrom(b, params, slot)[i + 1].slot == StoresFrom(b, params, slot)[i].slot + StoreWidth(ModeOf(b, params[i]))
    decreases |params|
  {
    if |params| > 0 {
      var w := StoreWidth(ModeOf(b, params[0]));
      var rest := StoresFrom(b, params[1..], slot + w);
      StoresAreConsecutive(b, params[1..], slot + w);
      assert StoresFrom(b, params, slot) == [StoreStep(ModeOf(b, params[0]), slot)] + rest;
      forall i | 1 <= i < |params| - 1
        ensures StoresFrom(b, params, slot)[i + 1].slot == StoresFrom(b, params, slot)[i].slot + StoreWidth(ModeOf(b, params[i]))
      {
        assert params[1..][i - 1] == params[i];
        assert rest[i].slot == rest[i - 1].slot + StoreWidth(ModeOf(b, params[1..][i - 1]));
      }
    }
  }

  /** One step of `storeParameters`: parameter `i`'s element and store move from the plan's rest to what is done. */
  lemma StoreStepAdvances(b: Bridge, params: seq<Parameter>, i: nat, slot: nat,
                          elements: seq<Element>, stores: seq<StoreStep>, base: nat)
    requires i < |params|
    requires elements == ParameterElements(b, params)[..i]
    requires stores + StoresFrom(b, params[i..], slot) == StoresFrom(b, params, base)
    ensures elements + [ParameterElement(b, params[i])] == ParameterElements(b, params)[..i + 1]
    ensures (stores + [StoreStep(ModeOf(b, params[i]), slot)]) +
      StoresFrom(b, params[i + 1..], slot + StoreWidth(ModeOf(b, params[i]))) == StoresFrom(b, params, base)
  {
    assert params[i..][1..] == params[i + 1..];
    assert stores + ([StoreStep(ModeOf(b, params[i]), slot)] + StoresFrom(b, params[i + 1..], slot + StoreWidth(ModeOf(b, params[i])))) ==
      (stores + [StoreStep(ModeOf(b, params[i]), slot)]) + StoresFrom(b, params[i + 1..], slot + StoreWidth(ModeOf(b, params[i])));
  }

  /** One step of `loadParameters`. */
  lemma LoadStepAdvances(elements: seq<Element>, i: nat, slot: nat, loads: seq<LoadStep>, base: nat)
    requires i < |elements|
    requires loads + LoadsFrom(elements[i..], slot) == LoadsFrom(elements, base)
    ensures (loads + [LoadStepFor(elements[i], slot)]) + LoadsFrom(elements[i + 1..], slot + LoadWidth(elements[i])) ==
      LoadsFrom(elements, base)
  {
    assert elements[i..][1..] == elements[i + 1..];
    assert loads + ([LoadStepFor(elements[i], slot)] + LoadsFrom(elements[i + 1..], slot + LoadWidth(elements[i]))) ==
      (loads + [LoadStepFor(elements[i], slot)]) + LoadsFrom(elements[i + 1..], slot + LoadWidth(elements[i]));
  }

  /** The loads `loadParameters` emits for `elements` with the reader at `slot`. */
  function LoadsFrom(elements: seq<Element>, slot: nat): (plan: seq<LoadStep>)
    ensures |plan| == |elements|
    decreases |elements|
  {
    if |elements| == 0 then []
    else [LoadStepFor(elements[0], slot)] + LoadsFrom(elements[1..], slot + LoadWidth(elements[0]))
  }

  /** Prepending one parameter whose interval ends where the rest begins keeps the slots in agreement. */
  lemma SlotsAgreeCons(s: StoreStep, l: LoadStep, stores: seq<StoreStep>, loads: seq<LoadStep>, base: nat)
    requires SlotsAgree(stores, loads, s.slot + StoreWidth(s.mode))
    requires s.slot >= base && l.slot == s.slot
    requires l.LoadPrimitive? <==> s.mode.ByUnboxing?
    requires l.LoadPrimitive? ==> l.kind == s.mode.kind
    ensures SlotsAgree([s] + stores, [l] + loads, base)
  {
    var ss, ls := [s] + stores, [l] + loads;
    forall i, j | 0 <= i < j < |ss| ensures ss[i].slot + StoreWidth(ss[i].mode) <= ss[j].slot {
      if i > 0 {
        assert ss[i] == stores[i - 1] && ss[j] == stores[j - 1];
      } else {
        assert ss[j] == stores[j - 1];
      }
    }
    forall i | 0 <= i < |ss|
      ensures ss[i].slot >= base && ls[i].slot == ss[i].slot
      ensures ls[i].LoadPrimitive? <==> ss[i].mode.ByUnboxing?
      ensures ls[i].LoadPrimitive? ==> ls[i].kind == ss[i].mode.kind
    {
      if i > 0 {
        assert ss[i] == stores[i - 1] && ls[i] == loads[i - 1];
      }
    }
  }

  /** The elements of a non-empty parameter list: the first parameter's, then the rest's. */
  lemma ParameterElementsCons(b: Bridge, params: seq<Parameter>)
    requires |params| > 0
    ensures ParameterElements(b, params) == [ParameterElement(b, params[0])] + ParameterElements(b, params[1..])
  {
    assert ParameterElements(b, params)[1..] == ParameterElements(b, params[1..]);
  }

  lemma LoadsFromCons(e: Element, rest: seq<Element>, slot: nat)
    ensures LoadsFrom([e] + rest, slot) == [LoadStepFor(e, slot)] + LoadsFrom(rest, slot + LoadWidth(e))
  {
    assert ([e] + rest)[1..] == rest;
  }

  /**
   * The layout as `storeParameters` and `loadParameters` build it, one parameter at a
   * time: the first load reads the slot of the first store, with its kind, and the
   * rest agree from the slot after the first store's interval.
   */
  predicate Chained(stores: seq<StoreStep>, loads: seq<LoadStep>, base: nat)
    decreases |stores|
  {
    |stores| == |loads| &&
    (|stores| > 0 ==>
      stores[0].slot >= base &&
      loads[0].slot == stores[0].slot &&
      (loads[0].LoadPrimitive? <==> stores[0].mode.ByUnboxing?) &&
      (loads[0].LoadPrimitive? ==> loads[0].kind == stores[0].mode.kind) &&
      Chained(stores[1..], loads[1..], stores[0].slot + StoreWidth(stores[0].mode)))
  }

  /** A chained layout agrees everywhere: slots match pairwise and intervals never overlap. */
  lemma {:induction false} ChainedAgree(stores: seq<StoreStep>, loads: seq<LoadStep>, base: nat)
    requires Chained(stores, loads, base)
    ensures SlotsAgree(stores, loads, base)
    decreases |stores|
  {
    if |stores| > 0 {
      ChainedAgree(stores[1..], loads[1..], stores[0].slot + StoreWidth(stores[0].mode));
      assert stores == [stores[0]] + stores[1..];
      assert loads == [loads[0]] + loads[1..];
      SlotsAgreeCons(stores[0], loads[0], stores[1..], loads[1..], base);
    }
  }

  /** Stores for `params` and loads for elements that fit them are chained from any starting slot. */
  lemma {:induction false} PlansChain(b: Bridge, params: seq<Parameter>, elements: seq<Element>, slot: nat)
    requires |elements| == |params|
    requires forall i | 0 <= i < |params| :: ElementFits(b, params[i], elements[i])
    ensures Chained(StoresFrom(b, params, slot), LoadsFrom(elements, slot), slot)
    decreases |params|
  {
    if |params| > 0 {
      var w := StoreWidth(ModeOf(b, params[0]));
      assert ElementFits(b, params[0], elements[0]);
      forall i | 0 <= i < |params| - 1 ensures ElementFits(b, params[1..][i], elements[1..][i]) {
        assert ElementFits(b, params[i + 1], elements[i + 1]);
      }
      PlansChain(b, params[1..], elements[1..], slot + w);
      var stores := StoresFrom(b, params, slot);
      var loads := LoadsFrom(elements, slot);
      assert stores[1..] == StoresFrom(b, params[1..], slot + w);
      assert loads[1..] == LoadsFrom(elements[1..], slot + w);
    }
  }

  /**
   * Slot agreement from any starting slot: for parameters Java can declare, the loads
   * generated from the parameters' elements read exactly the slots the stores wrote,
   * with the same kinds, and no two parameters share a slot.
   */
  lemma PlansAgree(b: Bridge, params: seq<Parameter>, slot: nat)
    requires forall p | p in params :: WellFormedParameter(p)
    ensures SlotsAgree(StoresFrom(b, params, slot), LoadsFrom(ParameterElements(b, params), slot), slot)
  {
    var elements := ParameterElements(b, params);
    forall i | 0 <= i < |params| ensures ElementFits(b, params[i], elements[i]) {
      assert params[i] in params;
      ParameterElementFits(b, params[i]);
    }
    PlansChain(b, params, elements, slot);
    ChainedAgree(StoresFrom(b, params, slot), LoadsFrom(ParameterElements(b, params), slot), slot);
  }
}
