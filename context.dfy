/**
 * The injection context the emitted code runs against, the singleton holder cell,
 * and the rest of the running program the context delegates to. Only what the
 * construction core calls is modelled: `findConstructedValue`, `findInstance`,
 * `injector().binding` and `constructDone`.
 */
module Context {
  import opened Failures
  import opened Jvm
  import opened Elements
  import opened Reflection

  /** The calls the construction core makes, in the order it makes them. */
  datatype Event =
    /** `context.findConstructedValue(element)` */
    | LookedUp(element: Element)
    /** `context.findInstance(element)` */
    | InstanceRequested(element: Element)
    /** `context.injector().binding(element)` */
    | BindingRequested(element: Element)
    /** the target constructor, invoked with these arguments */
    | Invoked(declaringClass: JClass, args: seq<Arg>)
    /** `context.constructDone(element, value, doMemberInjection)` */
    | Recorded(element: Element, value: Object, doMemberInjection: bool)

  /**
   * The outcome of a nested `findInstance`: the value (or what it threw), the context's
   * constructed values afterwards, and what re-entrant code left in the singleton
   * holder of the maker that asked.
   */
  datatype Resolution = Resolution(value: Result<Object>, constructedAfter: map<Element, Object>, holderAfter: Object)

  /** The rest of the running program, which the core only calls. */
  datatype Environment = Environment(
    /** nested resolution, given the constructed values and the asking maker's holder content */
    findInstance: (Element, map<Element, Object>, Object) -> Resolution,
    /** `injector.binding(element)`, as the `Provider` the binding holder is */
    binding: Element -> Result<Object>,
    /** `JakartaBridge.bridgeJakartaProvider` */
    bridgeJakarta: Object -> Object,
    /** invoking a constructor of a class with the given arguments */
    invoke: (JClass, seq<Arg>) -> Result<Object>,
    /** the class hierarchy `CHECKCAST` consults */
    hierarchy: Hierarchy,
    /** what `constructDone(element, value, doMemberInjection)` makes of the constructed values */
    record: (map<Element, Object>, Element, Object, bool) -> map<Element, Object>)

  /**
   * The documented behaviour of `constructDone`: the value is recorded for the element,
   * the last write winning, and nothing else changes.
   */
  ghost predicate RecordsLastWrite(env: Environment)
  {
    forall constructed, e, v, doMemberInjection ::
      env.record(constructed, e, v, doMemberInjection) == constructed[e := v]
  }

  /** `findConstructedValue`: the value constructed for an element in this context, `null` if none. */
  function Lookup(constructed: map<Element, Object>, e: Element): Object
  {
    if e in constructed then constructed[e] else Null
  }

  /** The `AtomicReference` a singleton maker keeps its instance in, used sequentially. */
  class AtomicReference {
    var value: Object

    constructor ()
      ensures value == Null
    {
      value := Null;
    }
  }

  class InjectionContext {
    const env: Environment
    var constructed: map<Element, Object>
    /** Every call the core has made on this context so far. */
    ghost var trace: seq<Event>

    constructor (env: Environment, constructed: map<Element, Object>)
      ensures this.env == env && this.constructed == constructed && trace == []
    {
      this.env := env;
      this.constructed := constructed;
      trace := [];
    }

    method FindConstructedValue(e: Element) returns (v: Object)
      modifies this
      ensures v == Lookup(constructed, e)
      ensures constructed == old(constructed) && trace == old(trace) + [LookedUp(e)]
    {
      v := Lookup(constructed, e);
      trace := trace + [LookedUp(e)];
    }

    /** `findInstance(e)`: a nested resolution, which may also fill the asking maker's holder. */
    method FindInstance(e: Element, holder: AtomicReference?) returns (r: Result<Object>)
      modifies this, holder
      ensures var res := env.findInstance(e, old(constructed), if holder == null then Null else old(holder.value));
        r == res.value && constructed == res.constructedAfter &&
        (holder != null ==> holder.value == res.holderAfter)
      ensures trace == old(trace) + [InstanceRequested(e)]
    {
      var res := env.findInstance(e, constructed, if holder == null then Null else holder.value);
      r := res.value;
      constructed := res.constructedAfter;
      if holder != null {
        holder.value := res.holderAfter;
      }
      trace := trace + [InstanceRequested(e)];
    }

    /** `injector().binding(e)`: the binding holder for an element, handed out as a provider. */
    method InjectorBinding(e: Element) returns (r: Result<Object>)
      modifies this
      ensures r == env.binding(e)
      ensures constructed == old(constructed) && trace == old(trace) + [BindingRequested(e)]
    {
      r := env.binding(e);
      trace := trace + [BindingRequested(e)];
    }

    /** `constructDone(e, value, doMemberInjection)`: the context records the value as its `record` collaborator says. */
    method ConstructDone(e: Element, value: Object, doMemberInjection: bool)
      modifies this
      ensures constructed == env.record(old(constructed), e, value, doMemberInjection)
      ensures trace == old(trace) + [Recorded(e, value, doMemberInjection)]
    {
      constructed := env.record(constructed, e, value, doMemberInjection);
      trace := trace + [Recorded(e, value, doMemberInjection)];
    }
  }
}
