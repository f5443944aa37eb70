/** The investigator facade: one mutable slot holding the suspect, and queries
    and reflective invocations against the suspect's runtime class. */
module Reflection {
  import opened Runtime
  import opened Counting
  import opened Hierarchy

  predicate IsConstant(f: FieldInfo) { f.isFinal }

  predicate IsStaticMethod(m: MethodInfo) { m.isStatic }

  /** The failures the by-name invocation catches and moves past. */
  predicate SkippedByInvoke(o: Outcome)
  {
    o == Threw(IllegalAccess) || o == Threw(InvocationTarget)
  }

  /** A same-named method whose invocation ends the by-name search: it returns,
      or throws something that is not caught. */
  predicate Decisive(m: MethodInfo, name: string, args: seq<Value>)
  {
    m.name == name && !SkippedByInvoke(Invoke(m.behaviour, args))
  }

  /** `k` is the index of the first method that ends the by-name search. */
  predicate FirstDecisive(ms: seq<MethodInfo>, name: string, args: seq<Value>, k: int)
  {
    0 <= k < |ms| && Decisive(ms[k], name, args) && forall j :: 0 <= j < k ==> !Decisive(ms[j], name, args)
  }

  /** `k` is the index of the first constructor taking `arity` parameters. */
  predicate FirstWithArity(cs: seq<ConstructorInfo>, arity: int, k: int)
  {
    0 <= k < |cs| && cs[k].parameterCount == arity && forall j :: 0 <= j < k ==> cs[j].parameterCount != arity
  }

  /** A constructor as the JVM provides it: it accepts only argument lists of
      its declared arity, and a successful `newInstance` yields an object,
      never `null` or a boxed Integer. */
  predicate ConstructorWellFormed(k: ConstructorInfo)
  {
    AcceptsOnly(k.behaviour, k.parameterCount) &&
    forall a :: a in k.behaviour && k.behaviour[a].Returned? ==> k.behaviour[a].value.Ref?
  }

  /** The exceptions `createInstance` turns into `null`. */
  const ConstructionFailures: set<Exception> := {Instantiation, IllegalAccess, InvocationTarget}

  /** The exceptions `elevateMethodAndInvoke` turns into `null` besides a
      failed lookup. */
  const InvocationFailures: set<Exception> := {IllegalAccess, InvocationTarget}

  /** The `(int)` cast of what `Method.invoke` returned: a boxed Integer is
      unboxed, `null` throws NullPointerException, any other object
      ClassCastException; an exception thrown by the invocation propagates. */
  function CastToInt(o: Outcome): (r: Completion<int32>)
    ensures r.Normal? <==> o.Returned? && o.value.IntVal?
    ensures r.Normal? ==> o == Returned(IntVal(r.value))
    ensures o == Returned(Null) ==> r == Abrupt(NullPointer)
    ensures o.Returned? && o.value.Ref? ==> r == Abrupt(ClassCast)
    ensures o.Threw? ==> r == Abrupt(o.exception)
  {
    match o
    case Returned(IntVal(i)) => Normal(i)
    case Returned(Null) => Abrupt(NullPointer)
    case Returned(Ref(_)) => Abrupt(ClassCast)
    case Threw(e) => Abrupt(e)
  }

  /** The result of a reflective call whose listed exceptions are caught and
      turned into `null`; any other exception propagates. */
  function NullOnCaught(o: Outcome, caught: set<Exception>): (r: Completion<Value>)
    ensures r.Abrupt? <==> o.Threw? && o.exception !in caught
    ensures r.Abrupt? ==> r.exception == o.exception
    ensures o.Returned? ==> r == Normal(o.value)
    ensures r == Normal(Null) <==> o == Returned(Null) || (o.Threw? && o.exception in caught)
  {
    match o
    case Returned(v) => Normal(v)
    case Threw(e) => if e in caught then Normal(Null) else Abrupt(e)
  }

  /** `k` is the index of the first method with exactly this name and these
      parameter types. */
  predicate FirstExact(ms: seq<MethodInfo>, name: string, parameterTypes: seq<string>, k: int)
  {
    0 <= k < |ms| && ms[k].name == name && ms[k].parameterTypes == parameterTypes &&
    forall j :: 0 <= j < k ==> !(ms[j].name == name && ms[j].parameterTypes == parameterTypes)
  }

  /** The first declared method with exactly this name and these parameter
      types, as `getDeclaredMethod` looks it up. */
  function FindDeclaredMethod(ms: seq<MethodInfo>, name: string, parameterTypes: seq<string>): (r: Option<nat>)
    ensures r.None? <==>
      forall k :: 0 <= k < |ms| ==> !(ms[k].name == name && ms[k].parameterTypes == parameterTypes)
    ensures r.Some? ==> FirstExact(ms, name, parameterTypes, r.value)
  {
    if ms == [] then None
    else if ms[0].name == name && ms[0].parameterTypes == parameterTypes then Some(0)
    else
      match FindDeclaredMethod(ms[1..], name, parameterTypes)
      case None => None
      case Some(k) => Some(k + 1)
  }

  class Reflector {
    /** The class of the loaded suspect; `None` until `Load` is called. */
    var suspect: Option<ClassInfo>

    constructor ()
      ensures suspect == None
    {
      suspect := None;
    }

    predicate Loaded()
      reads this
    {
      suspect.Some?
    }

    /** Replaces the suspect; nothing else changes. */
    method Load(subject: ClassInfo)
      modifies this`suspect
      ensures suspect == Some(subject)
    {
      suspect := Some(subject);
    }

    /** The number of methods declared directly on the suspect's class; no
        fewer than the static ones among them. */
    function TotalNumberOfMethods(): (n: nat)
      reads this
      requires Loaded()
      ensures n == |suspect.value.methods|
      ensures Count(suspect.value.methods, IsStaticMethod) <= n
    {
      CountBounded(suspect.value.methods, IsStaticMethod);
      |suspect.value.methods|
    }

    function TotalNumberOfConstructors(): (n: nat)
      reads this
      requires Loaded()
      ensures n == |suspect.value.constructors|
    {
      |suspect.value.constructors|
    }

    /** The number of fields declared directly on the suspect's class; no fewer
        than the final ones among them. */
    function TotalNumberOfFields(): (n: nat)
      reads this
      requires Loaded()
      ensures n == |suspect.value.fields|
      ensures Count(suspect.value.fields, IsConstant) <= n
    {
      CountBounded(suspect.value.fields, IsConstant);
      |suspect.value.fields|
    }

    /** The simple names of the interfaces the suspect's class declares,
        duplicates removed. */
    method AllImplementedInterfaces() returns (names: set<string>)
      requires Loaded()
      ensures forall x :: x in names <==> x in suspect.value.interfaces
      ensures |names| <= |suspect.value.interfaces|
    {
      var interfaces := suspect.value.interfaces;
      names := {};
      for i := 0 to |interfaces|
        invariant names == Elements(interfaces[..i])
      {
        assert interfaces[..i + 1][..i] == interfaces[..i];
        names := names + {interfaces[i]};
      }
      assert interfaces[..|interfaces|] == interfaces;
      forall x ensures x in names <==> x in interfaces {
        ElementsIff(interfaces, x);
      }
      ElementsBounded(interfaces);
    }

    /** The number of final fields declared on the suspect's class. */
    method CountOfConstantFields() returns (counter: int)
      requires Loaded()
      ensures counter == Count(suspect.value.fields, IsConstant)
      ensures 0 <= counter <= TotalNumberOfFields()
      ensures counter == 0 <==> forall j :: 0 <= j < |suspect.value.fields| ==> !suspect.value.fields[j].isFinal
      ensures counter == TotalNumberOfFields() <==>
        forall j :: 0 <= j < |suspect.value.fields| ==> suspect.value.fields[j].isFinal
    {
      var fields := suspect.value.fields;
      counter := 0;
      for i := 0 to |fields|
        invariant counter == Count(fields[..i], IsConstant)
      {
        assert fields[..i + 1] == fields[..i] + [fields[i]];
        CountSnoc(fields[..i], fields[i], IsConstant);
        if fields[i].isFinal {
          counter := counter + 1;
        }
      }
      assert fields[..|fields|] == fields;
      CountZeroIff(fields, IsConstant);
      CountFullIff(fields, IsConstant);
    }

    /** The number of static methods declared on the suspect's class. */
    method CountOfStaticMethods() returns (counter: int)
      requires Loaded()
      ensures counter == Count(suspect.value.methods, IsStaticMethod)
      ensures 0 <= counter <= TotalNumberOfMethods()
      ensures counter == 0 <==> forall j :: 0 <= j < |suspect.value.methods| ==> !suspect.value.methods[j].isStatic
      ensures counter == TotalNumberOfMethods() <==>
        forall j :: 0 <= j < |suspect.value.methods| ==> suspect.value.methods[j].isStatic
    {
      var methods := suspect.value.methods;
      counter := 0;
      for i := 0 to |methods|
        invariant counter == Count(methods[..i], IsStaticMethod)
      {
        assert methods[..i + 1] == methods[..i] + [methods[i]];
        CountSnoc(methods[..i], methods[i], IsStaticMethod);
        if methods[i].isStatic {
          counter := counter + 1;
        }
      }
      assert methods[..|methods|] == methods;
      CountZeroIff(methods, IsStaticMethod);
      CountFullIff(methods, IsStaticMethod);
    }

    /** True unless the superclass is `Object.class` itself, which includes the
        case of no superclass at all.  On a real chain that makes it false
        exactly when the chain has two classes, the suspect's and Object. */
    function IsExtending(): (r: bool)
      reads this
      requires Loaded()
      ensures r <==> suspect.value.superclass.None? || suspect.value.superclass.value.qualifiedName != ObjectName
      ensures WellFormed(suspect) ==> (r <==> |Ancestry(suspect)| != 2)
    {
      var sup := suspect.value.superclass;
      DirectlyBelowObject(suspect.value);
      sup.None? || sup.value.qualifiedName != ObjectName
    }

    /** The direct superclass's simple name, or `None` (Java's `null`) when
        there is no superclass, which on a real chain is exactly when the
        suspect is an `Object`. */
    function ParentClassSimpleName(): (r: Option<string>)
      reads this
      requires Loaded()
      ensures r.None? <==> suspect.value.superclass.None?
      ensures r.Some? ==> r.value == suspect.value.superclass.value.simpleName
      ensures WellFormed(suspect) ==> (r.None? <==> suspect.value.qualifiedName == ObjectName)
    {
      match suspect.value.superclass
      case None => None
      case Some(p) => Some(p.simpleName)
    }

    /** False without a superclass, otherwise the superclass's abstract flag. */
    function IsParentClassAbstract(): (r: bool)
      reads this
      requires Loaded()
      ensures suspect.value.superclass.None? ==> !r
      ensures suspect.value.superclass.Some? ==> (r <==> suspect.value.superclass.value.isAbstract)
      ensures WellFormed(suspect) && r ==> IsExtending()
    {
      var sup := suspect.value.superclass;
      assert WellFormed(suspect) ==> WellFormed(sup);
      sup.Some? && sup.value.isAbstract
    }

    /** Every field name declared anywhere from the suspect's class up to the
        root, each once. */
    method NamesOfAllFieldsIncludingInheritanceChain() returns (allFields: set<string>)
      requires Loaded()
      ensures allFields == ChainFieldNames(suspect)
      ensures forall x :: x in allFields <==>
        exists k, j :: 0 <= k < |Ancestry(suspect)| && 0 <= j < |Ancestry(suspect)[k].fields| &&
                       Ancestry(suspect)[k].fields[j].name == x
    {
      allFields := {};
      var currentClass := suspect;
      while currentClass.Some?
        invariant allFields + ChainFieldNames(currentClass) == ChainFieldNames(suspect)
        decreases currentClass
      {
        var fields := currentClass.value.fields;
        ghost var before := allFields;
        for i := 0 to |fields|
          invariant allFields == before + Elements(FieldNameSeq(fields)[..i])
        {
          assert FieldNameSeq(fields)[..i + 1][..i] == FieldNameSeq(fields)[..i];
          allFields := allFields + {fields[i].name};
        }
        assert FieldNameSeq(fields)[..|fields|] == FieldNameSeq(fields);
        currentClass := currentClass.value.superclass;
      }
      forall x
        ensures x in allFields <==>
          exists k, j :: 0 <= k < |Ancestry(suspect)| && 0 <= j < |Ancestry(suspect)[k].fields| &&
                         Ancestry(suspect)[k].fields[j].name == x
      {
        ChainFieldNamesIff(suspect, x);
      }
    }

    /** Invokes the first method named `methodName`, in declaration order, whose
        invocation returns or throws an exception that is not caught; methods of
        that name failing with IllegalAccessException or
        InvocationTargetException are passed over.  Yields 0 when there is no
        such method. */
    method InvokeMethodThatReturnsInt(methodName: string, args: seq<Value>) returns (r: Completion<int32>)
      requires Loaded()
      ensures (forall k :: 0 <= k < |suspect.value.methods| ==> !Decisive(suspect.value.methods[k], methodName, args))
        ==> r == Normal(0)
      ensures forall k :: FirstDecisive(suspect.value.methods, methodName, args, k) ==>
        r == CastToInt(Invoke(suspect.value.methods[k].behaviour, args))
    {
      var methods := suspect.value.methods;
      for i := 0 to |methods|
        invariant forall j :: 0 <= j < i ==> !Decisive(methods[j], methodName, args)
      {
        if methods[i].name == methodName {
          var outcome := Invoke(methods[i].behaviour, args);
          if !SkippedByInvoke(outcome) {
            assert forall k :: FirstDecisive(methods, methodName, args, k) ==> k == i;
            return CastToInt(outcome);
          }
        }
      }
      return Normal(0);
    }

    /** Uses only the first declared constructor taking `numberOfArgs`
        parameters: yields what it constructs, or `null` when it fails with
        InstantiationException, IllegalAccessException or
        InvocationTargetException; `null` too when no constructor has that
        many parameters. */
    method CreateInstance(numberOfArgs: int, args: seq<Value>) returns (r: Completion<Value>)
      requires Loaded()
      ensures (forall k :: 0 <= k < |suspect.value.constructors| ==> suspect.value.constructors[k].parameterCount != numberOfArgs)
        ==> r == Normal(Null)
      ensures forall k :: FirstWithArity(suspect.value.constructors, numberOfArgs, k) ==>
        r == NullOnCaught(Invoke(suspect.value.constructors[k].behaviour, args), ConstructionFailures)
      ensures forall k :: FirstWithArity(suspect.value.constructors, numberOfArgs, k) &&
                          ConstructorWellFormed(suspect.value.constructors[k]) ==>
        (|args| != numberOfArgs ==> r == Abrupt(IllegalArgument)) &&
        (r == Normal(Null) <==> Invoke(suspect.value.constructors[k].behaviour, args).Threw? &&
                                Invoke(suspect.value.constructors[k].behaviour, args).exception in ConstructionFailures)
    {
      var constructors := suspect.value.constructors;
      for i := 0 to |constructors|
        invariant forall j :: 0 <= j < i ==> constructors[j].parameterCount != numberOfArgs
      {
        if constructors[i].parameterCount == numberOfArgs {
          assert forall k :: FirstWithArity(constructors, numberOfArgs, k) ==> k == i;
          var outcome := Invoke(constructors[i].behaviour, args);
          match outcome
          case Returned(v) =>
            return Normal(v);
          case Threw(e) =>
            if e in ConstructionFailures {
              return Normal(Null);
            }
            return Abrupt(e);
        }
      }
      return Normal(Null);
    }

    /** Looks up the method with exactly this name and these parameter types
        and invokes it; `null` when there is none, or when the invocation fails
        with IllegalAccessException or InvocationTargetException. */
    function ElevateMethodAndInvoke(name: string, parameterTypes: seq<string>, args: seq<Value>): (r: Completion<Value>)
      reads this
      requires Loaded()
      ensures (forall k :: 0 <= k < |suspect.value.methods| ==>
                 !(suspect.value.methods[k].name == name && suspect.value.methods[k].parameterTypes == parameterTypes))
        ==> r == Normal(Null)
      ensures forall k :: FirstExact(suspect.value.methods, name, parameterTypes, k) ==>
        r == NullOnCaught(Invoke(suspect.value.methods[k].behaviour, args), InvocationFailures)
    {
      var ms := suspect.value.methods;
      match FindDeclaredMethod(ms, name, parameterTypes)
      case None => Normal(Null)
      case Some(k) =>
        assert forall i :: FirstExact(ms, name, parameterTypes, i) ==> i == k;
        NullOnCaught(Invoke(ms[k].behaviour, args), InvocationFailures)
    }

    /** The inheritance chain as text: the suspect's class and its ancestors,
        root first, each simple name preceded by the delimiter except the name
        "Object". */
    method InheritanceChain(delimiter: string) returns (s: string)
      requires Loaded()
      ensures s == ChainText(suspect, delimiter)
      ensures WellFormed(suspect) ==> |s| >= 6 && s[..6] == "Object"
      ensures |s| >= |suspect.value.simpleName| && s[|s| - |suspect.value.simpleName|..] == suspect.value.simpleName
      ensures WellFormed(suspect) && NoImpostorObject(suspect) ==> s == JoinWith(Lineage(suspect), delimiter)
    {
      s := "";
      var currentClass := suspect;
      while currentClass.Some?
        invariant ChainText(currentClass, delimiter) + s == ChainText(suspect, delimiter)
        decreases currentClass
      {
        var c := currentClass.value;
        ghost var built := s;
        assert ChainText(currentClass, delimiter) == ChainText(c.superclass, delimiter) + Contribution(c, delimiter);
        if c.simpleName == "Object" {
          s := c.simpleName + s;
        } else {
          s := delimiter + c.simpleName + s;
        }
        assert s == Contribution(c, delimiter) + built;
        currentClass := c.superclass;
      }
      ChainTextEnds(suspect, delimiter, s);
      ChainTextIsJoin(suspect, delimiter);
    }
  }
}
