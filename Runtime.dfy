/** The part of the Java runtime the reflector consults, made explicit.

    Where the Java code asks `java.lang.reflect` about the suspect's class, the
    model reads an immutable description of that class: its declared fields,
    methods and constructors, the simple names of its interfaces and its
    superclass.  Invoking a method or constructor reflectively is described by
    an outcome per argument list, so no target code is executed. */
module Runtime {

  datatype Option<+T> = None | Some(value: T)

  /** A Java `int`. */
  newtype int32 = x: int | -0x8000_0000 <= x < 0x8000_0000

  /** The values a reflective call passes and returns: `null`, a boxed
      `java.lang.Integer`, or any other object, known only by identity. */
  datatype Value = Null | IntVal(i: int32) | Ref(id: nat)

  /** The exceptions that reflective calls and the `(int)` cast can raise. */
  datatype Exception =
    | IllegalAccess       // IllegalAccessException
    | InvocationTarget    // InvocationTargetException: the target code threw
    | Instantiation       // InstantiationException
    | IllegalArgument     // IllegalArgumentException: arguments do not fit
    | NullPointer         // NullPointerException
    | ClassCast           // ClassCastException

  /** What one reflective invocation does: return a value or throw. */
  datatype Outcome = Returned(value: Value) | Threw(exception: Exception)

  /** How a call of the reflector itself completes: normally with a result, or
      abruptly with an exception it does not catch. */
  datatype Completion<+T> = Normal(value: T) | Abrupt(exception: Exception)

  datatype FieldInfo = FieldInfo(name: string, isFinal: bool)

  /** A declared method.  `behaviour` gives the outcome of invoking it on the
      suspect with each argument list it accepts. */
  datatype MethodInfo = MethodInfo(
    name: string,
    isStatic: bool,
    parameterTypes: seq<string>,
    behaviour: map<seq<Value>, Outcome>)

  datatype ConstructorInfo = ConstructorInfo(
    parameterCount: nat,
    behaviour: map<seq<Value>, Outcome>)

  /** The metadata of one class.  `superclass` is `None` exactly where
      `getSuperclass()` answers `null`. */
  datatype ClassInfo = ClassInfo(
    qualifiedName: string,
    simpleName: string,
    isAbstract: bool,
    fields: seq<FieldInfo>,
    methods: seq<MethodInfo>,
    constructors: seq<ConstructorInfo>,
    interfaces: seq<string>,
    superclass: Option<ClassInfo>)

  /** The fully qualified name that identifies `Object.class`. */
  const ObjectName: string := "java.lang.Object"

  /** Every argument list `behaviour` accepts has `arity` elements: the
      behaviour of a member declaring `arity` parameters. */
  predicate AcceptsOnly(behaviour: map<seq<Value>, Outcome>, arity: nat)
  {
    forall a :: a in behaviour ==> |a| == arity
  }

  /** Invoking with an argument list the method or constructor does not accept
      raises IllegalArgumentException; in particular a member that accepts only
      lists of its declared arity rejects a wrong number of arguments. */
  function Invoke(behaviour: map<seq<Value>, Outcome>, args: seq<Value>): (r: Outcome)
    ensures args !in behaviour ==> r == Threw(IllegalArgument)
    ensures args in behaviour ==> r == behaviour[args]
    ensures forall arity: nat :: AcceptsOnly(behaviour, arity) && |args| != arity ==> r == Threw(IllegalArgument)
  {
    if args in behaviour then behaviour[args] else Threw(IllegalArgument)
  }
}
