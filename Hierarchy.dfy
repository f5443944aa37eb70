/** The superclass chain of a class and the two things the reflector derives
    from it: the names of all fields declared along it, and the inheritance
    chain rendered as a string. */
module Hierarchy {
  import opened Runtime
  import opened Counting

  /** The classes visited by following `getSuperclass()` from `o` until it
      answers `null`, own class first. */
  function Ancestry(o: Option<ClassInfo>): seq<ClassInfo>
  {
    match o
    case None => []
    case Some(c) => [c] + Ancestry(c.superclass)
  }

  /** The simple names along the chain, root first: the order in which the
      inheritance chain is printed. */
  function Lineage(o: Option<ClassInfo>): seq<string>
  {
    match o
    case None => []
    case Some(c) => Lineage(c.superclass) + [c.simpleName]
  }

  /** The chain as a real JVM reports it: `Object.class` is the one class
      without a superclass, and it is simply named "Object" and not
      abstract. */
  predicate WellFormed(o: Option<ClassInfo>)
  {
    match o
    case None => true
    case Some(c) =>
      (c.superclass.None? <==> c.qualifiedName == ObjectName) &&
      (c.qualifiedName == ObjectName ==> c.simpleName == "Object" && !c.isAbstract) &&
      WellFormed(c.superclass)
  }

  /** No class on the chain other than `Object.class` itself is simply named
      "Object". */
  predicate NoImpostorObject(o: Option<ClassInfo>)
  {
    match o
    case None => true
    case Some(c) =>
      (c.qualifiedName != ObjectName ==> c.simpleName != "Object") &&
      NoImpostorObject(c.superclass)
  }

  /** On a real chain, a class sits directly below `Object.class` exactly when
      its chain holds two classes. */
  lemma DirectlyBelowObject(c: ClassInfo)
    ensures WellFormed(Some(c)) ==>
      (|Ancestry(Some(c))| == 2 <==> c.superclass.Some? && c.superclass.value.qualifiedName == ObjectName)
  {
    match c.superclass
    case None =>
      assert |Ancestry(Some(c))| == 1;
    case Some(p) =>
      match p.superclass
      case None =>
        assert Ancestry(Some(p)) == [p];
        assert |Ancestry(Some(c))| == 2;
      case Some(q) =>
        assert WellFormed(Some(c)) ==> WellFormed(Some(p));
        assert Ancestry(Some(p)) == [p] + Ancestry(Some(q));
        assert |Ancestry(Some(c))| == 2 + |Ancestry(Some(q))|;
  }

  /** The names of the fields declared by one class, in declaration order. */
  function FieldNameSeq(fs: seq<FieldInfo>): (names: seq<string>)
    ensures |names| == |fs|
    ensures forall j :: 0 <= j < |fs| ==> names[j] == fs[j].name
  {
    seq(|fs|, j requires 0 <= j < |fs| => fs[j].name)
  }

  /** Every field name declared on the chain from `o` upward: a class collects
      the names it declares itself and every name its superclass collects. */
  function ChainFieldNames(o: Option<ClassInfo>): (names: set<string>)
    ensures o.Some? ==> forall j :: 0 <= j < |o.value.fields| ==> o.value.fields[j].name in names
    ensures o.Some? ==> ChainFieldNames(o.value.superclass) <= names
  {
    match o
    case None => {}
    case Some(c) =>
      ElementsContains(FieldNameSeq(c.fields));
      Elements(FieldNameSeq(c.fields)) + ChainFieldNames(c.superclass)
  }

  /** A name is collected exactly when some class on the chain declares a
      field with that name. */
  lemma {:induction false} ChainFieldNamesIff(o: Option<ClassInfo>, x: string)
    ensures x in ChainFieldNames(o) <==>
      exists k, j :: 0 <= k < |Ancestry(o)| && 0 <= j < |Ancestry(o)[k].fields| &&
                     Ancestry(o)[k].fields[j].name == x
  {
    match o
    case None =>
    case Some(c) =>
      var a, b := Ancestry(o), Ancestry(c.superclass);
      ChainFieldNamesIff(c.superclass, x);
      ElementsIff(FieldNameSeq(c.fields), x);
      assert forall k :: 1 <= k < |a| ==> a[k] == b[k - 1];
      if x in Elements(FieldNameSeq(c.fields)) {
        var j :| 0 <= j < |c.fields| && FieldNameSeq(c.fields)[j] == x;
        assert 0 <= 0 < |a| && 0 <= j < |a[0].fields| && a[0].fields[j].name == x;
        assert exists k, j :: 0 <= k < |Ancestry(o)| && 0 <= j < |Ancestry(o)[k].fields| && Ancestry(o)[k].fields[j].name == x;
      } else if x in ChainFieldNames(c.superclass) {
        var k, j :| 0 <= k < |b| && 0 <= j < |b[k].fields| && b[k].fields[j].name == x;
        assert 0 <= k + 1 < |a| && 0 <= j < |a[k + 1].fields| && a[k + 1].fields[j].name == x;
        assert x in ChainFieldNames(o);
        assert exists k, j :: 0 <= k < |Ancestry(o)| && 0 <= j < |Ancestry(o)[k].fields| && Ancestry(o)[k].fields[j].name == x;
      } else {
        forall k, j | 0 <= k < |a| && 0 <= j < |a[k].fields|
          ensures a[k].fields[j].name != x
        {
          if k == 0 {
            assert FieldNameSeq(c.fields)[j] == a[k].fields[j].name;
          } else {
            assert a[k] == b[k - 1];
          }
        }
      }
  }

  /** What one class adds in front of the text built so far: its simple name,
      preceded by the delimiter unless that name is "Object". */
  function Contribution(c: ClassInfo, delimiter: string): string
  {
    if c.simpleName == "Object" then c.simpleName else delimiter + c.simpleName
  }

  /** A contribution `r` ends with the class's simple name; only a class not
      named "Object" puts the delimiter, and nothing else, in front of it. */
  lemma ContributionShape(c: ClassInfo, delimiter: string, r: string)
    requires r == Contribution(c, delimiter)
    ensures |r| >= |c.simpleName| && r[|r| - |c.simpleName|..] == c.simpleName
    ensures c.simpleName == "Object" ==> r == c.simpleName
    ensures c.simpleName != "Object" ==> |r| == |delimiter| + |c.simpleName| && r[..|delimiter|] == delimiter
  {
    if c.simpleName != "Object" {
      assert r[..|delimiter|] == delimiter;
    }
  }

  /** The inheritance chain of `o` as text: the contributions of its classes,
      root first, so that the own class's simple name comes last. */
  function ChainText(o: Option<ClassInfo>, delimiter: string): string
  {
    match o
    case None => ""
    case Some(c) => ChainText(c.superclass, delimiter) + Contribution(c, delimiter)
  }

  /** A class not named "Object" adds the delimiter and its name after the
      text of its superclass. */
  lemma ChainTextBelow(c: ClassInfo, delimiter: string, above: string)
    requires c.superclass.Some? && c.simpleName != "Object"
    requires above == ChainText(c.superclass, delimiter)
    ensures ChainText(Some(c), delimiter) == above + delimiter + c.simpleName
  {
    assert ChainText(Some(c), delimiter) == above + (delimiter + c.simpleName);
  }

  /** The conventional join: the names with the delimiter between each two
      neighbours, none in front and none at the end. */
  function JoinWith(names: seq<string>, delimiter: string): string
  {
    if |names| == 0 then ""
    else if |names| == 1 then names[0]
    else JoinWith(names[..|names| - 1], delimiter) + delimiter + names[|names| - 1]
  }

  /** `Lineage` is `Ancestry` read backwards. */
  lemma {:induction false} LineageReversesAncestry(o: Option<ClassInfo>)
    ensures |Lineage(o)| == |Ancestry(o)|
    ensures forall k :: 0 <= k < |Lineage(o)| ==>
      Lineage(o)[k] == Ancestry(o)[|Ancestry(o)| - 1 - k].simpleName
  {
    match o
    case None =>
    case Some(c) =>
      LineageReversesAncestry(c.superclass);
  }

  /** On a real chain the text starts with "Object", with no delimiter in front
      of it; on any chain it ends with the own class's simple name. */
  lemma {:induction false} ChainTextEnds(o: Option<ClassInfo>, delimiter: string, t: string)
    requires o.Some? && t == ChainText(o, delimiter)
    ensures WellFormed(o) ==> |t| >= 6 && t[..6] == "Object"
    ensures |t| >= |o.value.simpleName| && t[|t| - |o.value.simpleName|..] == o.value.simpleName
  {
    var c := o.value;
    var rest := ChainText(c.superclass, delimiter);
    assert t == rest + Contribution(c, delimiter);
    if c.superclass.Some? {
      ChainTextEnds(c.superclass, delimiter, rest);
      if WellFormed(o) {
        assert (rest + Contribution(c, delimiter))[..6] == rest[..6];
      }
    }
  }

  /** When no user class borrows the name "Object", the inheritance chain is
      the root-first list of simple names joined by the delimiter. */
  lemma {:induction false} ChainTextIsJoin(o: Option<ClassInfo>, delimiter: string)
    ensures WellFormed(o) && NoImpostorObject(o) ==> ChainText(o, delimiter) == JoinWith(Lineage(o), delimiter)
  {
    if o.Some? && o.value.superclass.Some? && WellFormed(o) && NoImpostorObject(o) {
      var c := o.value;
      ChainTextIsJoin(c.superclass, delimiter);
      var names := Lineage(o);
      assert names[..|names| - 1] == Lineage(c.superclass);
      assert ChainText(o, delimiter) == ChainText(c.superclass, delimiter) + (delimiter + c.simpleName);
    }
  }

  /** A user class simply named "Object" loses its delimiter: directly below
      `Object.class` it renders as "ObjectObject", whatever the delimiter,
      where the join would put the delimiter between the two names. */
  lemma ImpostorObjectLosesDelimiter(root: ClassInfo, c: ClassInfo, delimiter: string)
    requires root.qualifiedName == ObjectName && root.simpleName == "Object" && !root.isAbstract
    requires root.superclass.None?
    requires c.qualifiedName != ObjectName && c.simpleName == "Object" && c.superclass == Some(root)
    ensures WellFormed(Some(c))
    ensures ChainText(Some(c), delimiter) == "ObjectObject"
    ensures JoinWith(Lineage(Some(c)), delimiter) == "Object" + delimiter + "Object"
  {
    assert WellFormed(Some(root));
    assert Lineage(Some(root)) == ["Object"];
    var names := Lineage(Some(c));
    assert names == ["Object", "Object"];
    assert names[..1] == ["Object"];
    assert JoinWith(names, delimiter) == JoinWith(["Object"], delimiter) + delimiter + "Object";
    assert ChainText(Some(root), delimiter) == "Object";
    assert ChainText(Some(c), delimiter) == "Object" + "Object";
  }
}
