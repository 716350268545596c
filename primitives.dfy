/**
 * `Primitives`: the primitive-to-wrapper table, the default value of each
 * primitive, and the two compatibility checks between a (possibly primitive)
 * type and a boxed runtime value.
 */
module Primitives {
  import opened Failures
  import opened Jvm
  import opened Preconditions

  /** `PRIMITIVE_TO_WRAPPER`, keyed by the class name as `mask` produces it. */
  const PrimitiveToWrapper: map<string, JClass> := map[
    "void" := ClassNamed("java.lang.Void", false),
    "byte" := ClassNamed("java.lang.Byte", false),
    "long" := ClassNamed("java.lang.Long", false),
    "short" := ClassNamed("java.lang.Short", false),
    "int" := ClassNamed("java.lang.Integer", false),
    "float" := ClassNamed("java.lang.Float", false),
    "double" := ClassNamed("java.lang.Double", false),
    "char" := ClassNamed("java.lang.Character", false),
    "boolean" := ClassNamed("java.lang.Boolean", false)
  ]

  /** `PRIMITIVE_TO_WRAPPER.get(mask(c))`. */
  function WrapperOf(c: JClass): Option<JClass>
  {
    if Name(c) in PrimitiveToWrapper then Some(PrimitiveToWrapper[Name(c)]) else None
  }

  /** The keys of the table, in the order it is filled. */
  const TableKeys: seq<string> := ["void", "byte", "long", "short", "int", "float", "double", "char", "boolean"]

  /** A sequence without repetitions has as many distinct elements as it is long. */
  lemma {:induction false} DistinctElementsCount<T>(s: seq<T>)
    requires forall i, j | 0 <= i < j < |s| :: s[i] != s[j]
    ensures |set x | x in s| == |s|
  {
    if |s| > 0 {
      var init := s[..|s| - 1];
      DistinctElementsCount(init);
      assert (set x | x in s) == (set x | x in init) + {s[|s| - 1]};
    }
  }

  /** The nine keys are distinct and are all the table holds. */
  lemma TableHasNineKeys()
    ensures PrimitiveToWrapper.Keys == set k | k in TableKeys
    ensures |PrimitiveToWrapper| == 9
  {
    forall i, j | 0 <= i < j < |TableKeys| ensures TableKeys[i] != TableKeys[j] {
      if |TableKeys[i]| == |TableKeys[j]| {
        assert TableKeys[i][0] != TableKeys[j][0];
      }
    }
    DistinctElementsCount(TableKeys);
    forall k | k in PrimitiveToWrapper.Keys ensures k in TableKeys {
      assert k == TableKeys[0] || k == TableKeys[1] || k == TableKeys[2] || k == TableKeys[3] ||
        k == TableKeys[4] || k == TableKeys[5] || k == TableKeys[6] || k == TableKeys[7] || k == TableKeys[8];
    }
  }

  /** The keys are exactly the names of the primitive classes. */
  lemma TableKeysArePrimitiveNames()
    ensures forall p: Prim :: PrimitiveName(p) in TableKeys
    ensures forall k | k in TableKeys :: exists p: Prim :: k == PrimitiveName(p)
  {
    var order := [Void, Byte, Long, Short, Int, Float, Double, Char, Boolean];
    forall i | 0 <= i < |TableKeys| ensures TableKeys[i] == PrimitiveName(order[i]) {
    }
  }

  /** The table has nine entries, exactly one per primitive class, `void` included. */
  lemma WrapperTableHasOneEntryPerPrimitive()
    ensures |PrimitiveToWrapper| == 9
    ensures forall p: Prim :: PrimitiveName(p) in PrimitiveToWrapper
    ensures forall k | k in PrimitiveToWrapper :: exists p: Prim :: k == PrimitiveName(p)
  {
    TableHasNineKeys();
    TableKeysArePrimitiveNames();
  }

  /** Only primitive classes have a wrapper: no named class and no array class is named like a primitive. */
  lemma WrapperOnlyForPrimitives(c: JClass)
    requires WellFormedClass(c)
    ensures WrapperOf(c).Some? <==> c.Primitive?
  {
    WrapperTableHasOneEntryPerPrimitive();
    if c.ArrayClass? {
      assert Name(c)[0] == '[';
      forall p: Prim ensures Name(c) != PrimitiveName(p) {
        assert PrimitiveName(p)[0] != '[';
      }
    }
  }

  /** The wrapper classes are final, so the hierarchy relates each of them to itself only. */
  ghost predicate FinalWrappers(h: Hierarchy)
  {
    forall w, c | w in PrimitiveToWrapper.Values :: h.isAssignableFrom(w, c) <==> w == c
  }

  /** `isOfBoxedType(primitive, boxed)`. */
  predicate IsOfBoxedType(h: Hierarchy, primitive: JClass, boxed: Object)
  {
    var box := WrapperOf(primitive);
    box.Some? && boxed != Null && h.isAssignableFrom(box.value, ClassOf(boxed))
  }

  /**
   * With final wrappers, `isOfBoxedType(p, b)` holds exactly when `p` is primitive and
   * `b` is a non-null instance of the wrapper the table gives for `p`.
   */
  lemma IsOfBoxedTypeExactly(h: Hierarchy, primitive: JClass, boxed: Object)
    requires FinalWrappers(h) && WellFormedClass(primitive)
    ensures IsOfBoxedType(h, primitive, boxed) <==>
      primitive.Primitive? && boxed != Null && ClassOf(boxed) == PrimitiveToWrapper[Name(primitive)]
  {
    WrapperOnlyForPrimitives(primitive);
    if primitive.Primitive? {
      assert PrimitiveToWrapper[Name(primitive)] in PrimitiveToWrapper.Values;
    }
  }

  /** `isNotPrimitiveOrIsAssignable(type, boxed)`. */
  predicate IsNotPrimitiveOrIsAssignable(h: Hierarchy, t: JType, boxed: Object)
  {
    if IsPrimitiveType(t) then boxed != Null && IsOfBoxedType(h, t.cls, boxed)
    else if boxed == Null then true
    else h.isAssignableFrom(RawType(t), ClassOf(boxed))
  }

  /** The zero of each primitive kind; floating-point zeros are the all-zero bit patterns of `0F` and `0D`. */
  predicate IsZero(v: BoxedValue)
  {
    match v
    case BooleanValue(z) => !z
    case CharValue(c) => c == '\0'
    case ByteValue(b) => b == 0
    case ShortValue(s) => s == 0
    case IntValue(i) => i == 0
    case LongValue(j) => j == 0
    case FloatValue(bits) => bits == 0
    case DoubleValue(bits) => bits == 0
  }

  /**
   * `defaultValue(type)`: the boxed zero of a primitive class. A non-primitive class
   * fails the precondition check; `void` passes it but matches no branch and reaches
   * the `AssertionError`.
   */
  function DefaultValue(t: JClass): (r: Result<Object>)
    ensures !t.Primitive? ==> r == Err(AerogelException("type " + Describe(t) + " is not primitive"))
    ensures t == Primitive(Void) ==> r == Err(AssertionError)
    ensures t.Primitive? && t.kind != Void ==>
      r.Ok? && r.value.Boxed? && IsZero(r.value.boxed) &&
      BoxClass(r.value.boxed) == PrimitiveToWrapper[Name(t)]
  {
    match CheckArgument(t.Primitive?, "type " + Describe(t) + " is not primitive")
    case Fail(e) => Err(e)
    case Pass =>
      if t.kind == Boolean then Ok(Boxed(BooleanValue(false)))
      else if t.kind == Char then Ok(Boxed(CharValue('\0')))
      else if t.kind == Byte then Ok(Boxed(ByteValue(0)))
      else if t.kind == Short then Ok(Boxed(ShortValue(0)))
      else if t.kind == Int then Ok(Boxed(IntValue(0)))
      else if t.kind == Long then Ok(Boxed(LongValue(0)))
      else if t.kind == Float then Ok(Boxed(FloatValue(0)))
      else if t.kind == Double then Ok(Boxed(DoubleValue(0)))
      else Err(AssertionError)
  }

  /**
   * The two tables agree: the default of every non-void primitive is accepted where
   * that primitive is expected, while `null` never is.
   */
  lemma DefaultValueIsAssignableToItsPrimitive(h: Hierarchy, p: Prim)
    requires FinalWrappers(h) && p != Void
    ensures DefaultValue(Primitive(p)).Ok?
    ensures IsNotPrimitiveOrIsAssignable(h, ClassType(Primitive(p)), DefaultValue(Primitive(p)).value)
    ensures !IsNotPrimitiveOrIsAssignable(h, ClassType(Primitive(p)), Null)
  {
    var v := DefaultValue(Primitive(p)).value;
    IsOfBoxedTypeExactly(h, Primitive(p), v);
  }

  /**
   * The check follows the class hierarchy: a value accepted for `u` (a boxed primitive
   * when `u` is primitive) is accepted for every reference type whose raw type is
   * assignable from `u`'s raw type (from its wrapper when `u` is primitive).
   */
  lemma AcceptanceFollowsTheHierarchy(h: Hierarchy, t: JType, u: JType, boxed: Object)
    requires Transitive(h) && !IsPrimitiveType(t)
    requires IsNotPrimitiveOrIsAssignable(h, u, boxed)
    requires if IsPrimitiveType(u) then
        var box := WrapperOf(u.cls); box.Some? && h.isAssignableFrom(RawType(t), box.value)
      else h.isAssignableFrom(RawType(t), RawType(u))
    ensures IsNotPrimitiveOrIsAssignable(h, t, boxed)
  {
    if boxed != Null {
      var above := if IsPrimitiveType(u) then WrapperOf(u.cls).value else RawType(u);
      assert h.isAssignableFrom(above, ClassOf(boxed));
      assert h.isAssignableFrom(RawType(t), above);
    }
  }
}
