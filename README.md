# Reflector: a verified model of a Java introspection facade

The modelled component is `reflection.api.Reflector`. It holds one mutable
"suspect" object, which `load` sets. It answers questions about the suspect's
runtime class:

- how many methods, constructors and fields the class declares;
- which interfaces it declares, and how many of its fields are final and how many of its methods static;
- facts about its direct superclass;
- every field name declared along the superclass chain;
- the inheritance chain as a delimited string.

It also invokes methods and constructors reflectively and turns some failures
into sentinels (`0` or `null`).

Every answer in Java comes from `java.lang.reflect`. The model replaces the
JVM with an explicit, immutable description of class metadata:

- `Runtime.ClassInfo` holds a qualified name, a simple name and an abstract flag.
  It also holds the declared fields (name, final flag), the declared methods
  (name, static flag, parameter type names, behaviour) and the declared
  constructors (parameter count, behaviour). Last come the interface simple names
  and an optional superclass.
- A behaviour maps each accepted argument list to an `Outcome`: a returned
  `Value` or a thrown `Exception`. An argument list the member does not accept
  raises IllegalArgumentException. A behaviour that accepts only lists of the
  member's declared arity (`AcceptsOnly`) thus rejects a wrong number of
  arguments, as `Method.invoke` and `Constructor.newInstance` do. A
  well-formed constructor (`ConstructorWellFormed`) also never returns `null`
  or a boxed Integer.
- `Value` is `null`, a boxed `Integer` (a 32-bit `int32`), or another object
  known only by identity.
- `Completion` records how a reflector call ends. `Normal` carries its result.
  `Abrupt` carries an exception the Java code does not catch, such as the
  NullPointerException or ClassCastException of the `(int)` cast.
- `Object.class` is recognised by identity, modelled as its qualified name
  `java.lang.Object`, not by its simple name.

Modules:

- `Runtime`: the JVM metadata datatypes.
- `Counting`: the counting and set-collecting specifications, with lemmas.
- `Hierarchy`: the superclass chain, the field names collected along it, and the
  chain text, with lemmas.
- `Reflection`: `class Reflector`. Its `suspect` field is the only state. `Load`
  is its only mutator. The query methods use the same loops as the Java code.
- `Examples`: a three-level hierarchy and clients that investigate it.

Behaviour worth knowing, all proved:

- `IsExtending` is true when the superclass is absent. So a plain `Object`
  suspect "extends". The code compares the superclass with `Object.class`, and
  `null` differs from it. The name `isExtending` suggests false for a class
  with no parent; the code answers true, and the model follows the code.
- In `InheritanceChain`, a user class whose simple name is `"Object"` loses
  its delimiter. Directly below `java.lang.Object` it prints as `ObjectObject`.
- `InvokeMethodThatReturnsInt` moves past a same-named method whose invocation
  throws IllegalAccessException or InvocationTargetException. `CreateInstance`
  uses only the first constructor with the requested arity, even when that
  constructor fails.

## Model

| member | source | states |
|---|---|---|
| `Reflection.Reflector.constructor` | src/reflection/api/Reflector.java:7-8 | a fresh reflector holds no suspect |
| `Reflection.Reflector.Load` | src/reflection/api/Reflector.java:10-13 | the suspect becomes the given class, and this field is the only state that changes |
| `Reflection.Reflector.TotalNumberOfMethods` | src/reflection/api/Reflector.java:15-19 | the number of methods declared on the suspect's own class; never below the number of static ones |
| `Reflection.Reflector.TotalNumberOfConstructors` | src/reflection/api/Reflector.java:21-25 | the number of constructors declared on the suspect's own class, inherited ones excluded |
| `Reflection.Reflector.TotalNumberOfFields` | src/reflection/api/Reflector.java:27-31 | the number of fields declared on the suspect's own class; never below the number of final ones |
| `Reflection.Reflector.AllImplementedInterfaces` | src/reflection/api/Reflector.java:33-41 | a name is in the result exactly when it is among the declared interfaces' simple names; the set is no larger than that list |
| `Reflection.Reflector.CountOfConstantFields` | src/reflection/api/Reflector.java:43-53 | the loop counts the final fields; the count lies between 0 and TotalNumberOfFields; it is 0 exactly when no field is final and the total exactly when all are |
| `Reflection.Reflector.CountOfStaticMethods` | src/reflection/api/Reflector.java:55-64 | the loop counts the static methods; the count lies between 0 and TotalNumberOfMethods; it is 0 exactly when none is static and the total exactly when all are |
| `Reflection.Reflector.IsExtending` | src/reflection/api/Reflector.java:66-69 | true exactly when the superclass is absent or is not java.lang.Object; on a real chain, false exactly when the chain holds two classes |
| `Reflection.Reflector.ParentClassSimpleName` | src/reflection/api/Reflector.java:71-75 | None (null) exactly when the superclass is absent, else its simple name; on a real chain, None exactly for an Object suspect |
| `Reflection.Reflector.IsParentClassAbstract` | src/reflection/api/Reflector.java:77-81 | false without a superclass, else the superclass's abstract flag; on a real chain, true implies IsExtending |
| `Reflection.Reflector.NamesOfAllFieldsIncludingInheritanceChain` | src/reflection/api/Reflector.java:83-97 | the walk up the chain collects exactly the names some class on the chain declares, own class included, each once |
| `Reflection.Reflector.InvokeMethodThatReturnsInt` | src/reflection/api/Reflector.java:99-114 | 0 when no same-named method ends the search; otherwise the cast result of the first same-named method, in declaration order, whose invocation does not throw IllegalAccess/InvocationTarget (those are skipped); uncaught exceptions propagate |
| `Reflection.Reflector.CreateInstance` | src/reflection/api/Reflector.java:116-131 | null when no constructor has the arity; otherwise only the first such constructor is used: its instance, null if it throws Instantiation/IllegalAccess/InvocationTarget, other exceptions propagate; when that constructor is well-formed, a wrong-length argument list raises IllegalArgumentException and the result is null exactly when it threw a caught exception |
| `Reflection.FindDeclaredMethod` | src/reflection/api/Reflector.java:136 | the lookup finds the first method with exactly this name and these parameter types, and finds none exactly when none matches |
| `Reflection.Reflector.ElevateMethodAndInvoke` | src/reflection/api/Reflector.java:133-142 | null when no method has exactly this name and parameter types; otherwise the invocation's value, null on IllegalAccess/InvocationTarget, other exceptions propagate |
| `Reflection.Reflector.InheritanceChain` | src/reflection/api/Reflector.java:144-157 | the prepending loop yields the contributions root first; on a real chain the text starts with "Object" without a delimiter; it ends with the suspect's simple name; with no impostor "Object" it is the conventional join of the root-first names |
| `Runtime.Invoke` | src/reflection/api/Reflector.java:106 | an argument list the method or constructor does not accept raises IllegalArgumentException; an accepted one gives its recorded outcome; for a member accepting only its declared arity, any argument list of another length raises IllegalArgumentException |
| `Reflection.CastToInt` | src/reflection/api/Reflector.java:106 | the `(int)` cast completes normally exactly when the invocation returned a boxed Integer, and then with that int; a returned null gives NullPointerException, another object ClassCastException, and a thrown exception propagates unchanged |
| `Reflection.NullOnCaught` | src/reflection/api/Reflector.java:123-127 | a returned value is passed on; a caught exception gives null; any other exception propagates unchanged; the result is null exactly when the call returned null or threw a caught exception |
| `Counting.CountSnoc` | src/reflection/api/Reflector.java:47-51 | counting one more element adds one exactly when it satisfies the predicate, which is the loop body's step |
| `Counting.CountBounded` | src/reflection/api/Reflector.java:44-53 | a count lies between 0 and the number of elements |
| `Counting.CountZeroIff` | src/reflection/api/Reflector.java:44-53 | a count is 0 exactly when no element satisfies the predicate |
| `Counting.CountFullIff` | src/reflection/api/Reflector.java:56-64 | a count equals the length exactly when every element satisfies the predicate |
| `Counting.ElementsIff` | src/reflection/api/Reflector.java:35-40 | adding each element to an empty set holds exactly the sequence's elements |
| `Counting.ElementsBounded` | src/reflection/api/Reflector.java:35-40 | the collected set is no larger than the sequence |
| `Hierarchy.DirectlyBelowObject` | src/reflection/api/Reflector.java:68 | on a real chain, the superclass is Object.class exactly when the chain has two classes |
| `Hierarchy.ChainFieldNames` | src/reflection/api/Reflector.java:88-94 | a class collects every field name it declares and every name its superclass collects |
| `Hierarchy.ChainFieldNamesIff` | src/reflection/api/Reflector.java:88-94 | a name is collected exactly when some class on the chain declares a field of that name |
| `Hierarchy.LineageReversesAncestry` | src/reflection/api/Reflector.java:149-155 | the root-first name order of the chain text is the walk's order reversed |
| `Hierarchy.ContributionShape` | src/reflection/api/Reflector.java:150-153 | what one class inserts ends with its simple name; a class named "Object" inserts only its name, any other class the delimiter followed by its name |
| `Hierarchy.ChainTextBelow` | src/reflection/api/Reflector.java:153 | a class not named "Object" appends the delimiter and its simple name to its superclass's text |
| `Hierarchy.ChainTextEnds` | src/reflection/api/Reflector.java:145-157 | on a real chain the text starts with "Object"; on any chain it ends with the own class's simple name |
| `Hierarchy.ChainTextIsJoin` | src/reflection/api/Reflector.java:145-157 | with no user class simply named "Object", the text equals the root-first names joined by the delimiter |
| `Hierarchy.ImpostorObjectLosesDelimiter` | src/reflection/api/Reflector.java:150-153 | a user class named "Object" directly below java.lang.Object prints as "ObjectObject", whereas the join would print "Object" + d + "Object" |
| `Examples.ChildFieldNames` | src/reflection/api/Reflector.java:84-97 | on a three-level hierarchy with a shadowed field, the collected names are {a, b, c} |
| `Examples.ObjectChainText` | src/reflection/api/Reflector.java:150-151 | `Object.class` alone prints as "Object", whatever the delimiter |
| `Examples.ChildChainText` | src/reflection/api/Reflector.java:145-157 | the three-level hierarchy prints as "Object" + d + "Grand" + d + "Parent" + d + "Child" for any delimiter d |
| `Examples.ReloadForgetsFirstSuspect` | src/reflection/api/Reflector.java:10-13 | after loading a second suspect, the counts, field names and chain text concern only the second |
| `Examples.CountChild` | src/reflection/api/Reflector.java:15-64 | a concrete class reports 3 methods, 1 final field, 1 static method and its two distinct interface names |
| `Examples.InvestigateChildAncestry` | src/reflection/api/Reflector.java:66-157 | the same class extends, has parent "Parent" (not abstract), fields {a, b, c} and the chain Object->Grand->Parent->Child |
| `Examples.InvokeOnChild` | src/reflection/api/Reflector.java:99-114 | the search skips a failing same-named method; an unknown name gives 0; a void method's null fails the cast |
| `Examples.ConstructChild` | src/reflection/api/Reflector.java:116-131 | a missing arity and a failing constructor both give null; too few arguments for the matching constructor raise IllegalArgumentException |
| `Examples.ObjectIsExtending` | src/reflection/api/Reflector.java:66-75 | a plain Object suspect is extending and has no parent name |

## Left out

- The JVM reflection API is not modelled. This covers `getDeclaredMethods`,
  `getSuperclass`, `getModifiers`, `setAccessible`, `Method.invoke` and
  `Constructor.newInstance`. The class metadata and each member's behaviour are
  inputs, so no target code runs.
- Side effects of invoked code are not modelled. A method or constructor that
  changes the suspect's state or any global state has no effect in the model.
- The order of declared methods and constructors is taken as given. The JDK
  does not specify it.
- `Reflection.FindDeclaredMethod`: `getDeclaredMethod` resolves several
  methods with the same name and parameter types by the most specific return
  type. The model takes the first in declaration order.
- Exceptions from `setAccessible` are not modelled. These are
  SecurityException and InaccessibleObjectException.
- Querying before `load`, or after `load(null)`, throws NullPointerException
  in Java; `load(null)` itself only clears the field, and a later `load(x)`
  recovers. Every query requires `Loaded()`, and the model's `Load` takes a
  class, so `load(null)` is not modelled.
- Null arguments are not modelled, because a model `string` is never null.
  In Java, `getInheritanceChain(null)` prints "null" in place of each
  delimiter; `invokeMethodThatReturnsInt(null, ...)` matches no method and
  answers 0; `elevateMethodAndInvoke(null, ...)` throws NullPointerException
  out of `getDeclaredMethod`, which is not caught.
- ExceptionInInitializerError, which `Method.invoke` and
  `Constructor.newInstance` propagate when a class fails to initialise, is not
  among the modelled outcomes; it is an Error, outside the exceptions the
  reflector handles.
- `getSimpleName` rules for anonymous, array and nested classes are not
  modelled. Simple names are opaque strings.
- Varargs packaging is not modelled. `args` is the argument list as the target
  member receives it.
- The `Investigator` interface is not part of this model. Neither is
  concurrent use of one reflector.
