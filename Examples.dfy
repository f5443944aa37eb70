/** A small hierarchy described by hand, and clients that use the reflector on
    it: what each query answers for concrete classes. */
module Examples {
  import opened Runtime
  import opened Counting
  import opened Hierarchy
  import opened Reflection

  const ObjectClass: ClassInfo :=
    ClassInfo(ObjectName, "Object", false, [], [], [ConstructorInfo(0, map[[] := Returned(Ref(0))])], [], None)

  /** An abstract class declaring field `a`. */
  const Grand: ClassInfo :=
    ClassInfo("demo.Grand", "Grand", true, [FieldInfo("a", false)], [], [], [], Some(ObjectClass))

  /** Declares the final field `b` and implements `Runnable`. */
  const Parent: ClassInfo :=
    ClassInfo("demo.Parent", "Parent", false, [FieldInfo("b", true)], [], [], ["Runnable"], Some(Grand))

  /** Declares `c` (final) and shadows `a`; two methods named `size`, the first
      of which fails inside its body, and a void `reset`; one constructor of
      one parameter, which throws. */
  const Child: ClassInfo :=
    ClassInfo(
      "demo.Child", "Child", false,
      [FieldInfo("c", true), FieldInfo("a", false)],
      [MethodInfo("size", false, ["int"], map[[IntVal(1)] := Threw(InvocationTarget)]),
       MethodInfo("size", true, ["java.lang.Integer"], map[[IntVal(1)] := Returned(IntVal(7))]),
       MethodInfo("reset", false, [], map[[] := Returned(Null)])],
      [ConstructorInfo(1, map[[IntVal(1)] := Threw(InvocationTarget)])],
      // Two distinct interfaces, `java.lang.Comparable` and a `demo.Comparable`,
      // share a simple name; `Serializable` is the third.
      ["Comparable", "Serializable", "Comparable"],
      Some(Parent))

  /** Field names are collected along the whole chain; the shadowed `a`
      appears once. */
  lemma ChildFieldNames()
    ensures ChainFieldNames(Some(Child)) == {"a", "b", "c"}
  {
  }

  /** `Object.class` alone prints as its bare name, whatever the delimiter. */
  lemma ObjectChainText(delimiter: string)
    ensures ChainText(Some(ObjectClass), delimiter) == "Object"
  {
  }

  /** The chain is printed root first, without a delimiter before "Object". */
  lemma ChildChainText(delimiter: string)
    ensures ChainText(Some(Child), delimiter) == "Object" + delimiter + "Grand" + delimiter + "Parent" + delimiter + "Child"
  {
    ObjectChainText(delimiter);
    ChainTextBelow(Grand, delimiter, "Object");
    ChainTextBelow(Parent, delimiter, "Object" + delimiter + "Grand");
    ChainTextBelow(Child, delimiter, "Object" + delimiter + "Grand" + delimiter + "Parent");
  }

  /** Loading a second suspect discards the first: every answer afterwards is
      about the second suspect's class only. */
  method ReloadForgetsFirstSuspect(first: ClassInfo, second: ClassInfo, delimiter: string)
    returns (constants: int, statics: int, allFields: set<string>, chain: string)
    ensures constants == Count(second.fields, IsConstant)
    ensures statics == Count(second.methods, IsStaticMethod)
    ensures allFields == ChainFieldNames(Some(second))
    ensures chain == ChainText(Some(second), delimiter)
  {
    var reflector := new Reflector();
    reflector.Load(first);
    reflector.Load(second);
    constants := reflector.CountOfConstantFields();
    statics := reflector.CountOfStaticMethods();
    allFields := reflector.NamesOfAllFieldsIncludingInheritanceChain();
    chain := reflector.InheritanceChain(delimiter);
  }

  /** What the reflector counts on `Child`. */
  method CountChild() returns (methods: nat, constants: int, statics: int, interfaces: set<string>)
    ensures methods == 3 && constants == 1 && statics == 1
    ensures interfaces == {"Comparable", "Serializable"}
  {
    var reflector := new Reflector();
    reflector.Load(Child);
    methods := reflector.TotalNumberOfMethods();
    constants := reflector.CountOfConstantFields();
    assert Count(Child.fields, IsConstant) == 1 by {
      assert Child.fields[1..][1..] == [];
    }
    statics := reflector.CountOfStaticMethods();
    assert Count(Child.methods, IsStaticMethod) == 1 by {
      assert Child.methods[1..][1..][1..] == [];
    }
    interfaces := reflector.AllImplementedInterfaces();
    assert interfaces == {"Comparable", "Serializable"};
  }

  /** What the reflector reports about `Child`'s ancestry. */
  method InvestigateChildAncestry()
    returns (extending: bool, parent: Option<string>, parentAbstract: bool, allFields: set<string>, chain: string)
    ensures extending && parent == Some("Parent") && !parentAbstract
    ensures allFields == {"a", "b", "c"}
    ensures chain == "Object" + "->" + "Grand" + "->" + "Parent" + "->" + "Child"
  {
    var reflector := new Reflector();
    reflector.Load(Child);
    extending := reflector.IsExtending();
    parent := reflector.ParentClassSimpleName();
    parentAbstract := reflector.IsParentClassAbstract();
    allFields := reflector.NamesOfAllFieldsIncludingInheritanceChain();
    ChildFieldNames();
    chain := reflector.InheritanceChain("->");
    ChildChainText("->");
  }

  /** The by-name invocation passes over the first `size`, which failed, and
      answers with the second; an unknown name yields the sentinel 0.  Casting
      the `null` a void method returns fails with NullPointerException, which
      is not caught. */
  method InvokeOnChild() returns (size: Completion<int32>, missing: Completion<int32>, reset: Completion<int32>)
    ensures size == Normal(7)
    ensures missing == Normal(0)
    ensures reset == Abrupt(NullPointer)
  {
    var reflector := new Reflector();
    reflector.Load(Child);
    size := reflector.InvokeMethodThatReturnsInt("size", [IntVal(1)]);
    assert FirstDecisive(Child.methods, "size", [IntVal(1)], 1);
    missing := reflector.InvokeMethodThatReturnsInt("missing", []);
    reset := reflector.InvokeMethodThatReturnsInt("reset", []);
    assert FirstDecisive(Child.methods, "reset", [], 2);
  }

  /** Construction yields `null` alike when no constructor has the arity and
      when the one that has it fails; an argument list of the wrong length for
      that constructor raises IllegalArgumentException. */
  method ConstructChild() returns (none: Completion<Value>, failed: Completion<Value>, wrong: Completion<Value>)
    ensures none == Normal(Null) && failed == Normal(Null)
    ensures wrong == Abrupt(IllegalArgument)
  {
    var reflector := new Reflector();
    reflector.Load(Child);
    none := reflector.CreateInstance(2, []);
    failed := reflector.CreateInstance(1, [IntVal(1)]);
    assert FirstWithArity(Child.constructors, 1, 0);
    assert ConstructorWellFormed(Child.constructors[0]);
    wrong := reflector.CreateInstance(1, []);
  }

  /** A plain `Object` suspect counts as extending, because its superclass is
      `null` rather than `Object.class`. */
  method ObjectIsExtending() returns (extending: bool, parent: Option<string>)
    ensures extending && parent == None
  {
    var reflector := new Reflector();
    reflector.Load(ObjectClass);
    extending := reflector.IsExtending();
    parent := reflector.ParentClassSimpleName();
  }
}
