/**
 * The small part of the Java platform the construction core talks about:
 * classes, reflected (possibly generic) types and runtime objects.
 */
module Jvm {

  /** The nine primitive classes, `void` included. */
  datatype Prim = Void | Boolean | Char | Byte | Short | Int | Long | Float | Double

  /**
   * A `java.lang.Class`: a primitive, a named class or interface (annotation types are
   * interfaces), or an array class.
   */
  datatype JClass =
    | Primitive(kind: Prim)
    | ClassNamed(name: string, isInterface: bool)
    | ArrayClass(component: JClass)

  const ObjectClass: JClass := ClassNamed("java.lang.Object", false)

  /** The keyword a primitive class is named by. */
  function PrimitiveName(p: Prim): string
  {
    match p
    case Void => "void"
    case Boolean => "boolean"
    case Char => "char"
    case Byte => "byte"
    case Short => "short"
    case Int => "int"
    case Long => "long"
    case Float => "float"
    case Double => "double"
  }

  /** The one-letter descriptor a primitive contributes to an array class name. */
  function PrimitiveDescriptor(p: Prim): string
  {
    match p
    case Void => "V"
    case Boolean => "Z"
    case Char => "C"
    case Byte => "B"
    case Short => "S"
    case Int => "I"
    case Long => "J"
    case Float => "F"
    case Double => "D"
  }

  function Descriptor(c: JClass): string
  {
    match c
    case Primitive(p) => PrimitiveDescriptor(p)
    case ClassNamed(n, _) => "L" + n + ";"
    case ArrayClass(e) => "[" + Descriptor(e)
  }

  /** `Class.getName()`: the keyword of a primitive, the binary name of a class, `[`-descriptors for arrays. */
  function Name(c: JClass): string
  {
    match c
    case Primitive(p) => PrimitiveName(p)
    case ClassNamed(n, _) => n
    case ArrayClass(e) => "[" + Descriptor(e)
  }

  /** `Class.toString()`: interfaces are prefixed with "interface ", primitives print their keyword alone, other classes are prefixed with "class ". */
  function Describe(c: JClass): string
  {
    if c.ClassNamed? && c.isInterface then "interface " + Name(c)
    else if c.Primitive? then Name(c)
    else "class " + Name(c)
  }

  /** No named class is called by a primitive keyword, and no array holds `void`. */
  predicate WellFormedClass(c: JClass)
  {
    match c
    case Primitive(_) => true
    case ClassNamed(n, _) => forall p: Prim :: n != PrimitiveName(p)
    case ArrayClass(e) => e != Primitive(Void) && WellFormedClass(e)
  }

  /** A `java.lang.reflect.Type`, in the five shapes the reflection API produces. */
  datatype JType =
    | ClassType(cls: JClass)
    | GenericArrayType(genericComponentType: JType)
    | ParameterizedType(rawType: JClass, typeArguments: seq<JType>)
    | TypeVariable(variableName: string, bounds: seq<JType>)
    | WildcardType(upperBounds: seq<JType>, lowerBounds: seq<JType>)

  /** The reflective check `type instanceof Class && ((Class) type).isPrimitive()`. */
  predicate IsPrimitiveType(t: JType)
  {
    t.ClassType? && t.cls.Primitive?
  }

  /** The raw class a type erases to. */
  function RawType(t: JType): JClass
  {
    match t
    case ClassType(c) => c
    case GenericArrayType(e) => ArrayClass(RawType(e))
    case ParameterizedType(raw, _) => raw
    case TypeVariable(_, bounds) => if |bounds| > 0 then RawType(bounds[0]) else ObjectClass
    case WildcardType(upper, lower) =>
      if |lower| > 0 then RawType(lower[0])
      else if |upper| > 0 then RawType(upper[0])
      else ObjectClass
  }

  /**
   * The shapes Java itself can produce: type arguments, bounds and generic array
   * components are reference types, and a parameterized type's raw type is a named class.
   */
  predicate WellFormedType(t: JType)
  {
    match t
    case ClassType(_) => true
    case GenericArrayType(e) => !IsPrimitiveType(e) && WellFormedType(e)
    case ParameterizedType(raw, args) =>
      raw.ClassNamed? && forall a | a in args :: !IsPrimitiveType(a) && WellFormedType(a)
    case TypeVariable(_, bounds) =>
      forall b | b in bounds :: !IsPrimitiveType(b) && WellFormedType(b)
    case WildcardType(upper, lower) =>
      (forall b | b in upper :: !IsPrimitiveType(b) && WellFormedType(b)) &&
      (forall b | b in lower :: !IsPrimitiveType(b) && WellFormedType(b))
  }

  /**
   * Erasure keeps primitives where they are: a well-formed type erases to a primitive
   * class exactly when it is that primitive class itself.
   */
  lemma {:induction false} RawTypeIsPrimitiveOnlyForPrimitiveClass(t: JType)
    requires WellFormedType(t)
    ensures RawType(t).Primitive? <==> IsPrimitiveType(t)
    ensures IsPrimitiveType(t) ==> t == ClassType(RawType(t))
  {
    match t
    case ClassType(_) =>
    case GenericArrayType(_) =>
    case ParameterizedType(_, _) =>
    case TypeVariable(_, bounds) =>
      if |bounds| > 0 {
        assert bounds[0] in bounds;
        RawTypeIsPrimitiveOnlyForPrimitiveClass(bounds[0]);
      }
    case WildcardType(upper, lower) =>
      if |lower| > 0 {
        assert lower[0] in lower;
        RawTypeIsPrimitiveOnlyForPrimitiveClass(lower[0]);
      } else if |upper| > 0 {
        assert upper[0] in upper;
        RawTypeIsPrimitiveOnlyForPrimitiveClass(upper[0]);
      }
  }

  /** The value carried by a boxed primitive. Floating-point values are kept as their IEEE 754 bit patterns. */
  datatype BoxedValue =
    | BooleanValue(z: bool)
    | CharValue(c: char)
    | ByteValue(b: int)
    | ShortValue(s: int)
    | IntValue(i: int)
    | LongValue(j: int)
    | FloatValue(floatBits: bv32)
    | DoubleValue(doubleBits: bv64)

  /** A Java reference. `NullMask` is the private sentinel that stands for a stored `null` in a singleton holder. */
  datatype Object =
    | Null
    | NullMask
    | Boxed(boxed: BoxedValue)
    | Instance(cls: JClass, identity: nat)

  /** The wrapper class of a boxed value. */
  function BoxClass(v: BoxedValue): JClass
  {
    match v
    case BooleanValue(_) => ClassNamed("java.lang.Boolean", false)
    case CharValue(_) => ClassNamed("java.lang.Character", false)
    case ByteValue(_) => ClassNamed("java.lang.Byte", false)
    case ShortValue(_) => ClassNamed("java.lang.Short", false)
    case IntValue(_) => ClassNamed("java.lang.Integer", false)
    case LongValue(_) => ClassNamed("java.lang.Long", false)
    case FloatValue(_) => ClassNamed("java.lang.Float", false)
    case DoubleValue(_) => ClassNamed("java.lang.Double", false)
  }

  /** `o.getClass()` for a non-null reference. */
  function ClassOf(o: Object): JClass
    requires o != Null
  {
    match o
    case NullMask => ObjectClass
    case Boxed(v) => BoxClass(v)
    case Instance(c, _) => c
  }

  /** `Class.isAssignableFrom` of the running program's class hierarchy, which the core only queries. */
  datatype Hierarchy = Hierarchy(isAssignableFrom: (JClass, JClass) -> bool)

  /** Assignability composes: what a subclass accepts, its superclasses accept too. */
  ghost predicate Transitive(h: Hierarchy)
  {
    forall a, b, c :: h.isAssignableFrom(a, b) && h.isAssignableFrom(b, c) ==> h.isAssignableFrom(a, c)
  }
}
