/**
 * The Java language plug-in: the Java type value, the transformations and
 * queries on it, import collection, type formatting, string quoting and
 * whole-file assembly.
 */
module JavaPlugin {
  import opened Wrappers
  import opened OrderedSets
  import opened TokenTree
  import opened Macros

  const JAVA_LANG: string := "java.lang"
  const SEP: string := "."

  /** A class type: its package and name, the path of nested classes below it, its generic arguments. */
  datatype Type = Type(package: string, name: string, path: seq<string>, arguments: seq<Java>)

  /** A Java type as it appears in generated code. */
  datatype Java =
    | Primitive(boxed: string, primitive: string)
    | Class(cls: Type)
    | Local(name: string)
    | Optional(value: Java, field: Java)
  {
    /** A nested class below this one; its arguments are discarded. */
    function Path(part: string): Java
    {
      match this
      case Class(cls) => Class(Type(cls.package, cls.name, cls.path + [part], []))
      case _ => this
    }

    function WithArguments(arguments: seq<Java>): Java
    {
      match this
      case Class(cls) => Class(Type(cls.package, cls.name, cls.path, arguments))
      case _ => this
    }

    /** The raw type, without generic arguments. */
    function AsRaw(): Java
    {
      match this
      case Class(cls) => Class(Type(cls.package, cls.name, cls.path, []))
      case _ => this
    }

    /** A primitive becomes its boxed class in `java.lang`; every other type is already boxed. */
    function AsBoxed(): Java
    {
      match this
      case Primitive(boxed, _) => Class(Type(JAVA_LANG, boxed, [], []))
      case _ => this
    }

    function Name(): string
    {
      match this
      case Primitive(_, primitive) => primitive
      case Class(cls) => cls.name
      case Local(name) => name
      case Optional(value, _) => value.Name()
    }

    function Package(): Option<string>
    {
      match this
      case Primitive(_, _) => Some(JAVA_LANG)
      case Class(cls) => Some(cls.package)
      case Local(_) => Option.None
      case Optional(value, _) => value.Package()
    }

    function Arguments(): Option<seq<Java>>
    {
      match this
      case Class(cls) => Some(cls.arguments)
      case Optional(value, _) => value.Arguments()
      case _ => Option.None
    }

    predicate IsOptional()
    {
      Optional?
    }

    /** `void` is a primitive in form only: it does not count as one. */
    predicate IsPrimitive()
    {
      if this == VOID then false else Primitive?
    }

    /** The field type, optionality included. */
    function AsField(): Java
    {
      if Optional? then field else this
    }

    /** The value type, optionality stripped. */
    function AsValue(): Java
    {
      if Optional? then value else this
    }

    predicate IsGeneric()
    {
      match Arguments()
      case Some(a) => a != []
      case None => false
    }

    /** Structural comparison: primitives by primitive name, classes by package, name and arguments. */
    predicate Equals(other: Java)
    {
      match (this, other)
      case (Primitive(_, l), Primitive(_, r)) => l == r
      case (Class(l), Class(r)) =>
        l.package == r.package && l.name == r.name && |l.arguments| == |r.arguments|
        && AllEqual(l.arguments, r.arguments)
      case _ => false
    }
  }

  /** Pairwise `Equals` of two argument lists of the same length. */
  predicate AllEqual(ls: seq<Java>, rs: seq<Java>)
    requires |ls| == |rs|
  {
    ls == [] || (ls[0].Equals(rs[0]) && AllEqual(ls[1..], rs[1..]))
  }

  const SHORT: Java := Primitive("Short", "short")
  const INTEGER: Java := Primitive("Integer", "int")
  const LONG: Java := Primitive("Long", "long")
  const FLOAT: Java := Primitive("Float", "float")
  const DOUBLE: Java := Primitive("Double", "double")
  const CHAR: Java := Primitive("Character", "char")
  const BOOLEAN: Java := Primitive("Boolean", "boolean")
  const BYTE: Java := Primitive("Byte", "byte")
  const VOID: Java := Primitive("Void", "void")

  /** A class imported from `package`. */
  function Imported(package: string, name: string): (r: Java)
    ensures r.Package() == Some(package) && r.Name() == name && !r.IsGeneric() && !r.IsPrimitive()
  {
    Class(Type(package, name, [], []))
  }

  /** A name with no qualification. */
  function LocalType(name: string): (r: Java)
    ensures r.Package().None? && r.Name() == name && r.Arguments().None?
  {
    Local(name)
  }

  function OptionalType(value: Java, field: Java): (r: Java)
    ensures r.IsOptional() && r.AsValue() == value && r.AsField() == field
    ensures r.Name() == value.Name() && r.Package() == value.Package()
  {
    Optional(value, field)
  }

  // ---------------------------------------------------------------------
  // Queries and transformations

  /** The primitives the test lists count as primitive, and `void` does not. */
  lemma PrimitiveConstants()
    ensures SHORT.IsPrimitive() && INTEGER.IsPrimitive() && LONG.IsPrimitive() && FLOAT.IsPrimitive()
    ensures DOUBLE.IsPrimitive() && BOOLEAN.IsPrimitive() && CHAR.IsPrimitive() && BYTE.IsPrimitive()
    ensures !VOID.IsPrimitive()
  {
  }

  /**
   * What the queries answer for each kind of type: a primitive is in
   * `java.lang` and takes no arguments, a local type has no package, an
   * optional answers for its value type, and only a class with arguments,
   * directly or as an optional's value, is generic.
   */
  lemma QueriesByKind(j: Java)
    ensures j.Primitive? ==> j.Package() == Some(JAVA_LANG) && j.Name() == j.primitive && j.Arguments().None?
    ensures j.Local? ==> j.Package().None? && j.Name() == j.name && j.Arguments().None?
    ensures j.Class? ==> j.Package() == Some(j.cls.package) && j.Name() == j.cls.name
    ensures j.Class? ==> (j.IsGeneric() <==> j.cls.arguments != [])
    ensures j.Optional? ==> j.Name() == j.value.Name() && j.Package() == j.value.Package()
    ensures j.Optional? ==> j.Arguments() == j.value.Arguments() && (j.IsGeneric() <==> j.value.IsGeneric())
    ensures j.IsGeneric() ==> !j.Primitive? && !j.Local?
    ensures j.IsPrimitive() <==> j.Primitive? && (j.primitive != "void" || j.boxed != "Void")
    ensures !j.Optional? ==> j.AsField() == j && j.AsValue() == j && !j.IsOptional()
  {
  }

  /** The transformations change classes only, and never their package or name. */
  lemma TransformationsKeepIdentity(j: Java, part: string, arguments: seq<Java>)
    ensures !j.Class? ==> j.Path(part) == j && j.WithArguments(arguments) == j && j.AsRaw() == j
    ensures j.Path(part).Name() == j.Name() && j.Path(part).Package() == j.Package()
    ensures j.WithArguments(arguments).Name() == j.Name() && j.WithArguments(arguments).Package() == j.Package()
    ensures j.AsRaw().Name() == j.Name() && j.AsRaw().Package() == j.Package()
  {
  }

  /** A nested path and the raw type are never generic; `with_arguments` makes a class generic iff the arguments are non-empty. */
  lemma GenericAfterTransformations(j: Java, part: string, arguments: seq<Java>)
    requires j.Class?
    ensures !j.Path(part).IsGeneric() && !j.AsRaw().IsGeneric()
    ensures j.WithArguments(arguments).IsGeneric() <==> arguments != []
    ensures j.WithArguments(arguments).AsRaw() == j.AsRaw()
    ensures j.AsRaw().AsRaw() == j.AsRaw()
    ensures j.Path(part).Arguments() == Some([])
  {
  }

  /** Boxing a primitive gives a non-primitive `java.lang` class with the boxed name. */
  lemma BoxedPrimitive(j: Java)
    requires j.Primitive?
    ensures j.AsBoxed().Package() == Some(JAVA_LANG) && j.AsBoxed().Name() == j.boxed
    ensures !j.AsBoxed().IsPrimitive() && !j.AsBoxed().IsGeneric()
    ensures !j.Primitive? ==> j.AsBoxed() == j
  {
  }

  /** Equality ignores the path of a class. */
  lemma EqualsIgnoresPath(j: Java, part: string)
    requires j.Class?
    ensures j.Path(part).Equals(j.AsRaw())
  {
  }

  /** A type whose every part can be compared: no local name or optional anywhere. */
  predicate Comparable(j: Java)
  {
    match j
    case Primitive(_, _) => true
    case Class(cls) => AllComparable(cls.arguments)
    case _ => false
  }

  predicate AllComparable(args: seq<Java>)
  {
    args == [] || (Comparable(args[0]) && AllComparable(args[1..]))
  }

  /** `equals` is reflexive exactly on comparable types: a local name is not equal even to itself. */
  lemma {:induction false} EqualsReflexive(j: Java)
    ensures j.Equals(j) <==> Comparable(j)
    decreases j, 1
  {
    if j.Class? { AllEqualReflexive(j.cls.arguments); }
  }

  lemma {:induction false} AllEqualReflexive(args: seq<Java>)
    ensures AllEqual(args, args) <==> AllComparable(args)
    decreases args, 0
  {
    if args != [] {
      EqualsReflexive(args[0]);
      AllEqualReflexive(args[1..]);
    }
  }

  lemma {:induction false} EqualsSymmetric(a: Java, b: Java)
    ensures a.Equals(b) <==> b.Equals(a)
    decreases a, 1
  {
    if a.Class? && b.Class? && |a.cls.arguments| == |b.cls.arguments| {
      AllEqualSymmetric(a.cls.arguments, b.cls.arguments);
    }
  }

  lemma {:induction false} AllEqualSymmetric(ls: seq<Java>, rs: seq<Java>)
    requires |ls| == |rs|
    ensures AllEqual(ls, rs) <==> AllEqual(rs, ls)
    decreases ls, 0
  {
    if ls != [] {
      EqualsSymmetric(ls[0], rs[0]);
      AllEqualSymmetric(ls[1..], rs[1..]);
    }
  }

  lemma {:induction false} EqualsTransitive(a: Java, b: Java, c: Java)
    requires a.Equals(b) && b.Equals(c)
    ensures a.Equals(c)
    decreases a, 1
  {
    if a.Class? {
      AllEqualTransitive(a.cls.arguments, b.cls.arguments, c.cls.arguments);
    }
  }

  lemma {:induction false} AllEqualTransitive(ls: seq<Java>, ms: seq<Java>, rs: seq<Java>)
    requires |ls| == |ms| == |rs|
    requires AllEqual(ls, ms) && AllEqual(ms, rs)
    ensures AllEqual(ls, rs)
    decreases ls, 0
  {
    if ls != [] {
      EqualsTransitive(ls[0], ms[0], rs[0]);
      AllEqualTransitive(ls[1..], ms[1..], rs[1..]);
    }
  }

  /** Equal types have the same name and package. */
  lemma EqualsSameIdentity(a: Java, b: Java)
    requires a.Equals(b)
    ensures a.Name() == b.Name() && a.Package() == b.Package()
  {
  }

  // ---------------------------------------------------------------------
  // Import collection

  /** The (package, name) pairs a type needs imported: every class in it, arguments included. */
  function ImportPairs(j: Java): set<(string, string)>
  {
    match j
    case Class(cls) => ArgumentPairs(cls.arguments) + {(cls.package, cls.name)}
    case _ => {}
  }

  function ArgumentPairs(args: seq<Java>): set<(string, string)>
  {
    if args == [] then {} else ArgumentPairs(args[..|args| - 1]) + ImportPairs(args[|args| - 1])
  }

  /** The ordered set after `type_imports`: the arguments' classes first, then the class itself. */
  function InsertImports(j: Java, s: seq<(string, string)>): seq<(string, string)>
  {
    match j
    case Class(cls) => Inserted(InsertArgumentImports(cls.arguments, s), (cls.package, cls.name), PairLess)
    case _ => s
  }

  function InsertArgumentImports(args: seq<Java>, s: seq<(string, string)>): seq<(string, string)>
  {
    if args == [] then s else InsertImports(args[|args| - 1], InsertArgumentImports(args[..|args| - 1], s))
  }

  /** Collecting adds exactly the type's import pairs and keeps the set ascending. */
  lemma {:induction false} InsertImportsSpec(j: Java, s: seq<(string, string)>)
    requires Increasing(s, PairLess)
    ensures Increasing(InsertImports(j, s), PairLess)
    ensures forall p :: p in InsertImports(j, s) <==> p in s || p in ImportPairs(j)
    decreases j, 1
  {
    if j.Class? {
      PairLessOrder();
      InsertArgumentImportsSpec(j.cls.arguments, s);
      InsertIncreasing(InsertArgumentImports(j.cls.arguments, s), (j.cls.package, j.cls.name), PairLess);
      InsertMembers(InsertArgumentImports(j.cls.arguments, s), (j.cls.package, j.cls.name), PairLess);
    }
  }

  lemma {:induction false} InsertArgumentImportsSpec(args: seq<Java>, s: seq<(string, string)>)
    requires Increasing(s, PairLess)
    ensures Increasing(InsertArgumentImports(args, s), PairLess)
    ensures forall p :: p in InsertArgumentImports(args, s) <==> p in s || p in ArgumentPairs(args)
    decreases args, 0
  {
    if args != [] {
      InsertArgumentImportsSpec(args[..|args| - 1], s);
      InsertImportsSpec(args[|args| - 1], InsertArgumentImports(args[..|args| - 1], s));
    }
  }

  /** `type_imports`: inserts the imports of a type into the ordered set. */
  method TypeImports(j: Java, modules: OrderedSet<(string, string)>)
    requires modules.Valid() && modules.less == PairLess
    modifies modules
    ensures modules.Valid() && modules.less == PairLess
    ensures modules.items == InsertImports(j, old(modules.items))
    decreases j
  {
    match j {
      case Class(cls) =>
        var i := 0;
        while i < |cls.arguments|
          invariant 0 <= i <= |cls.arguments|
          invariant modules.Valid() && modules.less == PairLess
          invariant modules.items == InsertArgumentImports(cls.arguments[..i], old(modules.items))
        {
          assert cls.arguments[..i + 1][..i] == cls.arguments[..i];
          TypeImports(cls.arguments[i], modules);
          i := i + 1;
        }
        assert cls.arguments[..i] == cls.arguments;
        modules.Insert((cls.package, cls.name));
      case _ =>
    }
  }

  /** The ordered set collected from the customs of a tree, in walk order. */
  function CollectImports(customs: seq<Java>): seq<(string, string)>
  {
    if customs == [] then [] else InsertImports(customs[|customs| - 1], CollectImports(customs[..|customs| - 1]))
  }

  /** The collected set is ascending and holds the import pairs of every custom, and nothing else. */
  lemma {:induction false} CollectImportsSpec(customs: seq<Java>)
    ensures Increasing(CollectImports(customs), PairLess)
    ensures forall p :: p in CollectImports(customs) <==> exists k :: 0 <= k < |customs| && p in ImportPairs(customs[k])
  {
    if customs != [] {
      var init := customs[..|customs| - 1];
      CollectImportsSpec(init);
      InsertImportsSpec(customs[|customs| - 1], CollectImports(init));
      forall p ensures p in CollectImports(customs) <==> exists k :: 0 <= k < |customs| && p in ImportPairs(customs[k]) {
        if p in CollectImports(customs) && p !in ImportPairs(customs[|customs| - 1]) {
          var k :| 0 <= k < |init| && p in ImportPairs(init[k]);
          assert customs[k] == init[k];
        }
        if exists k :: 0 <= k < |customs| && p in ImportPairs(customs[k]) {
          var k :| 0 <= k < |customs| && p in ImportPairs(customs[k]);
          if k < |init| { assert init[k] == customs[k]; }
        }
      }
    }
  }

  /**
   * The import loop over the ascending pairs: a pair is skipped when its name
   * is already imported, when its package is `java.lang` or when it is the
   * file's own package; otherwise it is emitted and its name recorded.
   * Yields the emitted pairs and the updated name-to-package map.
   */
  function PlanImports(items: seq<(string, string)>, imported: map<string, string>, filePackage: Option<string>)
    : (seq<(string, string)>, map<string, string>)
  {
    if items == [] then ([], imported)
    else
      var plan := PlanImports(items[..|items| - 1], imported, filePackage);
      var (package, name) := items[|items| - 1];
      if name in plan.1 || package == JAVA_LANG || Some(package) == filePackage then plan
      else (plan.0 + [(package, name)], plan.1[name := package])
  }

  /** The `import package.name;` line of a pair. */
  function ImportLine(p: (string, string)): Element<Java>
  {
    Push([Literal("import "), Literal(p.0), Literal(SEP), Literal(p.1), Literal(";")])
  }

  function ImportLines(pairs: seq<(string, string)>): (r: seq<Element<Java>>)
    ensures |r| == |pairs|
    ensures forall k :: 0 <= k < |pairs| ==> r[k] == ImportLine(pairs[k])
  {
    if pairs == [] then [] else ImportLines(pairs[..|pairs| - 1]) + [ImportLine(pairs[|pairs| - 1])]
  }

  lemma ImportLinesSnoc(pairs: seq<(string, string)>, p: (string, string))
    ensures ImportLines(pairs + [p]) == ImportLines(pairs) + [ImportLine(p)]
  {
    assert (pairs + [p])[..|pairs|] == pairs;
  }

  /** Passes the two filters that do not depend on earlier imports. */
  predicate Importable(p: (string, string), filePackage: Option<string>)
  {
    p.0 != JAVA_LANG && Some(p.0) != filePackage
  }

  /**
   * What the import loop keeps true of the pairs it has emitted and the names
   * it has recorded: each emitted pair is a pair of the set, importable, and
   * its name was not imported before; no two emitted pairs share a name;
   * every emitted name is recorded with its package; the earlier records are
   * kept; and nothing else is recorded.
   */
  ghost predicate Planned(items: seq<(string, string)>, imported: map<string, string>, filePackage: Option<string>,
                          emitted: seq<(string, string)>, now: map<string, string>)
  {
    && (forall k :: 0 <= k < |emitted| ==>
          emitted[k] in items && Importable(emitted[k], filePackage) && emitted[k].1 !in imported)
    && (forall k, l :: 0 <= k < l < |emitted| ==> emitted[k].1 != emitted[l].1)
    && (forall k :: 0 <= k < |emitted| ==> emitted[k].1 in now && now[emitted[k].1] == emitted[k].0)
    && (forall n :: n in imported ==> n in now && now[n] == imported[n])
    && (forall n :: n in now ==> n in imported || exists k :: 0 <= k < |emitted| && emitted[k].1 == n)
  }

  /** Emitting an importable pair whose name is not yet recorded keeps the facts. */
  lemma EmitKeepsPlanned(init: seq<(string, string)>, last: (string, string), imported: map<string, string>,
                         filePackage: Option<string>, emitted: seq<(string, string)>, now: map<string, string>)
    requires Planned(init, imported, filePackage, emitted, now)
    requires last.1 !in now && Importable(last, filePackage)
    ensures Planned(init + [last], imported, filePackage, emitted + [last], now[last.1 := last.0])
  {
    var items, emitted', now' := init + [last], emitted + [last], now[last.1 := last.0];
    forall k | 0 <= k < |emitted'|
      ensures emitted'[k] in items && Importable(emitted'[k], filePackage) && emitted'[k].1 !in imported
    {
      if k < |emitted| {
        assert emitted'[k] == emitted[k] && emitted[k] in init;
      }
    }
    forall k, l | 0 <= k < l < |emitted'| ensures emitted'[k].1 != emitted'[l].1 {
      assert emitted[k].1 in now;
    }
    forall k | 0 <= k < |emitted'| ensures emitted'[k].1 in now' && now'[emitted'[k].1] == emitted'[k].0 {
      if k < |emitted| {
        assert emitted[k].1 in now;
      }
    }
    forall n | n in now' ensures n in imported || exists k :: 0 <= k < |emitted'| && emitted'[k].1 == n {
      if n == last.1 {
        assert emitted'[|emitted'| - 1].1 == n;
      } else if n !in imported {
        var k :| 0 <= k < |emitted| && emitted[k].1 == n;
        assert emitted'[k].1 == n;
      }
    }
  }

  /** Skipping a pair keeps the facts. */
  lemma SkipKeepsPlanned(init: seq<(string, string)>, last: (string, string), imported: map<string, string>,
                         filePackage: Option<string>, emitted: seq<(string, string)>, now: map<string, string>)
    requires Planned(init, imported, filePackage, emitted, now)
    ensures Planned(init + [last], imported, filePackage, emitted, now)
  {
    forall k | 0 <= k < |emitted| ensures emitted[k] in init + [last] {
      assert emitted[k] in init;
    }
  }

  /** The import loop's plan keeps the facts of `Planned`. */
  lemma {:induction false} PlanImportsEmits(items: seq<(string, string)>, imported: map<string, string>, filePackage: Option<string>)
    ensures var plan := PlanImports(items, imported, filePackage);
      Planned(items, imported, filePackage, plan.0, plan.1)
  {
    if items != [] {
      var init, last := items[..|items| - 1], items[|items| - 1];
      assert items == init + [last];
      PlanImportsEmits(init, imported, filePackage);
      var plan := PlanImports(init, imported, filePackage);
      if !(last.1 in plan.1 || last.0 == JAVA_LANG || Some(last.0) == filePackage) {
        EmitKeepsPlanned(init, last, imported, filePackage, plan.0, plan.1);
      } else {
        SkipKeepsPlanned(init, last, imported, filePackage, plan.0, plan.1);
      }
    }
  }

  /** Every emitted pair is a pair of the set. */
  lemma PlanImportsFromSet(items: seq<(string, string)>, imported: map<string, string>, filePackage: Option<string>, k: nat)
    requires k < |PlanImports(items, imported, filePackage).0|
    ensures PlanImports(items, imported, filePackage).0[k] in items
  {
    PlanImportsEmits(items, imported, filePackage);
  }

  /** Emitted pairs keep the ascending order of the set. */
  lemma {:induction false} PlanImportsAscending(items: seq<(string, string)>, imported: map<string, string>, filePackage: Option<string>)
    requires Increasing(items, PairLess)
    ensures Increasing(PlanImports(items, imported, filePackage).0, PairLess)
  {
    if items != [] {
      var init := items[..|items| - 1];
      assert Increasing(init, PairLess);
      PlanImportsAscending(init, imported, filePackage);
      PlanImportsEmits(init, imported, filePackage);
      var plan := PlanImports(init, imported, filePackage);
      forall k | 0 <= k < |plan.0| ensures PairLess(plan.0[k], items[|items| - 1]) {
        PlanImportsFromSet(init, imported, filePackage, k);
        var i :| 0 <= i < |init| && init[i] == plan.0[k];
        assert items[i] == init[i];
      }
    }
  }

  /**
   * Among the importable pairs of the set whose name was not imported before,
   * the first one in ascending order wins its name: some pair at or before it
   * is emitted under that name, so a later pair with the same name is not.
   */
  lemma {:induction false} PlanImportsFirstWins(items: seq<(string, string)>, imported: map<string, string>, filePackage: Option<string>, i: nat)
    requires i < |items|
    requires Importable(items[i], filePackage) && items[i].1 !in imported
    ensures exists j :: 0 <= j <= i && items[j] in PlanImports(items, imported, filePackage).0 && items[j].1 == items[i].1
    decreases |items|
  {
    var init := items[..|items| - 1];
    var plan := PlanImports(init, imported, filePackage);
    if i < |init| {
      PlanImportsFirstWins(init, imported, filePackage, i);
      var j :| 0 <= j <= i && init[j] in plan.0 && init[j].1 == init[i].1;
      assert items[j] == init[j];
    } else {
      var name := items[i].1;
      if name in plan.1 {
        PlanImportsEmits(init, imported, filePackage);
        var k :| 0 <= k < |plan.0| && plan.0[k].1 == name;
        var j :| 0 <= j < |init| && init[j] == plan.0[k];
        assert items[j] == init[j];
      } else {
        assert items[i] in PlanImports(items, imported, filePackage).0;
      }
    }
  }

  /** Java's `Extra`: the file's package and the names imported so far, each mapped to its package. */
  class Extra {
    var package: Option<string>
    var imported: map<string, string>

    constructor New(package: string)
      ensures this.package == Some(package) && imported == map[]
    {
      this.package := Some(package);
      imported := map[];
    }

    constructor Default()
      ensures package.None? && imported == map[]
    {
      package := Option.None;
      imported := map[];
    }

    method SetPackage(package: string)
      modifies this
      ensures this.package == Some(package) && imported == old(imported)
    {
      this.package := Some(package);
    }
  }

  /**
   * `imports`: collects the import pairs of every custom of the tree; `None`
   * when there are none, otherwise the import lines of the pairs that pass
   * the filters, whose names are then recorded in `extra`.
   */
  method Imports(tokens: seq<Element<Java>>, extra: Extra) returns (r: Option<seq<Element<Java>>>)
    modifies extra
    ensures extra.package == old(extra.package)
    ensures var items := CollectImports(Walk(tokens));
      var plan := PlanImports(items, old(extra.imported), extra.package);
      && (r.None? <==> items == [])
      && (r.None? ==> extra.imported == old(extra.imported))
      && (r.Some? ==> r.value == ImportLines(plan.0) && extra.imported == plan.1)
  {
    var items := CollectModules(tokens);
    if items == [] {
      return Option.None;
    }
    var lines := EmitImports(items, extra);
    return Some(lines);
  }

  /** One step of the collecting walk: the yielded custom moves from the rest of the walk to the part seen. */
  lemma CollectImportsStep(walked: seq<Java>, seen: seq<Java>, c: Java, before: seq<Java>, after: seq<Java>)
    requires walked == seen + before && before == [c] + after
    ensures walked == (seen + [c]) + after
    ensures CollectImports(seen + [c]) == InsertImports(c, CollectImports(seen))
  {
    var next := seen + [c];
    assert next[..|seen|] == seen && next[|seen|] == c;
  }

  /** The first half of `imports`: every custom of the tree walked, its pairs gathered in a `BTreeSet`. */
  method CollectModules(tokens: seq<Element<Java>>) returns (items: seq<(string, string)>)
    ensures items == CollectImports(Walk(tokens))
  {
    PairLessOrder();
    var modules := new OrderedSet<(string, string)>(PairLess);
    var walk := new WalkCustom<Java>(tokens);
    ghost var seen: seq<Java> := [];
    while true
      invariant fresh(modules) && fresh(walk)
      invariant modules.Valid() && modules.less == PairLess
      invariant Walk(tokens) == seen + Walk(walk.queue)
      invariant modules.items == CollectImports(seen)
      decreases |Walk(walk.queue)|
    {
      ghost var before := Walk(walk.queue);
      var custom := walk.Next();
      if custom.None? {
        break;
      }
      TypeImports(custom.value, modules);
      CollectImportsStep(Walk(tokens), seen, custom.value, before, Walk(walk.queue));
      seen := seen + [custom.value];
    }
    assert walk.queue == [] && Walk<Java>([]) == [];
    assert seen == Walk(tokens);
    items := modules.items;
  }

  /** The tokens of one `import package.name;` line. */
  method BuildImportLine(package: string, name: string) returns (r: seq<Element<Java>>)
    ensures r == ImportLine((package, name)).tokens
  {
    r := Toks([Literal("import "), Literal(package), Literal(SEP), Literal(name), Literal(";")]);
  }

  /** The second half of `imports`: the filter loop over the ascending pairs. */
  method EmitImports(items: seq<(string, string)>, extra: Extra) returns (lines: seq<Element<Java>>)
    modifies extra
    ensures extra.package == old(extra.package)
    ensures var plan := PlanImports(items, old(extra.imported), extra.package);
      lines == ImportLines(plan.0) && extra.imported == plan.1
  {
    var filePackage := extra.package;
    var out := new Tokens<Java>();
    var i := 0;
    while i < |items|
      invariant 0 <= i <= |items|
      invariant fresh(out)
      invariant extra.package == filePackage
      invariant out.elements == ImportLines(PlanImports(items[..i], old(extra.imported), filePackage).0)
      invariant extra.imported == PlanImports(items[..i], old(extra.imported), filePackage).1
    {
      var (package, name) := items[i];
      ghost var plan := PlanImports(items[..i], old(extra.imported), filePackage);
      PlanImportsPrefix(items, i, old(extra.imported), filePackage);
      if name in extra.imported || package == JAVA_LANG || Some(package) == filePackage {
      } else {
        var line := BuildImportLine(package, name);
        ImportLinesSnoc(plan.0, (package, name));
        out.Push(line);
        extra.imported := extra.imported[name := package];
      }
      i := i + 1;
    }
    assert items[..i] == items;
    lines := out.elements;
  }

  // ---------------------------------------------------------------------
  // Formatting

  /** The `package.` qualifier a class is written with, or nothing when it needs none. */
  function Qualifier(cls: Type, filePackage: Option<string>, imported: map<string, string>): string
  {
    var importedAs := if cls.name in imported then Some(imported[cls.name]) else Option.None;
    var pkg := Some(cls.package);
    if cls.package != JAVA_LANG && importedAs != pkg && filePackage != pkg then cls.package + SEP else ""
  }

  /** `.segment` for each segment of a nested path. */
  function PathText(path: seq<string>): string
  {
    if path == [] then "" else PathText(path[..|path| - 1]) + "." + path[|path| - 1]
  }

  /** The text `format` writes for a type at a nesting level (0 outside any generic argument list). */
  function Render(j: Java, filePackage: Option<string>, imported: map<string, string>, level: nat): string
  {
    match j
    case Primitive(boxed, primitive) => if level > 0 then boxed else primitive
    case Class(cls) =>
      Qualifier(cls, filePackage, imported) + cls.name + PathText(cls.path)
      + (if cls.arguments == [] then "" else "<" + RenderArguments(cls.arguments, filePackage, imported, level + 1) + ">")
    case Local(name) => name
    case Optional(_, field) => Render(field, filePackage, imported, level)
  }

  /** The arguments, each at `level`, separated by `, ` with no trailing separator. */
  function RenderArguments(args: seq<Java>, filePackage: Option<string>, imported: map<string, string>, level: nat): string
  {
    if args == [] then ""
    else if |args| == 1 then Render(args[0], filePackage, imported, level)
    else RenderArguments(args[..|args| - 1], filePackage, imported, level) + ", " + Render(args[|args| - 1], filePackage, imported, level)
  }

  /** `Custom::format` for Java types. */
  method Format(j: Java, extra: Extra, level: nat) returns (out: string)
    ensures out == Render(j, extra.package, extra.imported, level)
    decreases j
  {
    match j {
      case Primitive(boxed, primitive) =>
        if level > 0 {
          out := boxed;
        } else {
          out := primitive;
        }
      case Class(cls) =>
        out := FormatClass(cls, extra, level);
      case Local(name) =>
        out := name;
      case Optional(_, field) =>
        out := Format(field, extra, level);
    }
  }

  /** The class arm of `format`: qualifier, name, nested path and generic arguments. */
  method FormatClass(cls: Type, extra: Extra, level: nat) returns (out: string)
    ensures out == Render(Class(cls), extra.package, extra.imported, level)
    decreases cls
  {
    out := "";
    var filePackage := extra.package;
    var importedAs := if cls.name in extra.imported then Some(extra.imported[cls.name]) else Option.None;
    var pkg := Some(cls.package);
    if cls.package != JAVA_LANG && importedAs != pkg && filePackage != pkg {
      out := out + cls.package;
      out := out + SEP;
    }
    out := out + cls.name;
    assert out == Qualifier(cls, extra.package, extra.imported) + cls.name;
    ghost var named := out;
    var i := 0;
    while i < |cls.path|
      invariant 0 <= i <= |cls.path|
      invariant out == named + PathText(cls.path[..i])
    {
      assert cls.path[..i + 1][..i] == cls.path[..i];
      out := out + ".";
      out := out + cls.path[i];
      i := i + 1;
    }
    assert cls.path[..i] == cls.path;
    if cls.arguments != [] {
      out := out + "<";
      var args := FormatArguments(cls.arguments, extra, level + 1);
      out := out + args;
      out := out + ">";
    }
  }

  /** The argument loop of `format`: each argument, then `, ` while another one follows. */
  method FormatArguments(args: seq<Java>, extra: Extra, level: nat) returns (out: string)
    ensures out == RenderArguments(args, extra.package, extra.imported, level)
    decreases args
  {
    out := "";
    var k := 0;
    while k < |args|
      invariant 0 <= k <= |args|
      invariant out == RenderArguments(args[..k], extra.package, extra.imported, level)
                       + (if 0 < k < |args| then ", " else "")
    {
      assert args[..k + 1][..k] == args[..k];
      var a := Format(args[k], extra, level);
      out := out + a;
      if k + 1 < |args| {
        out := out + ", ";
      }
      k := k + 1;
    }
    assert args[..k] == args;
  }

  /** A primitive is written boxed exactly inside a generic argument list. */
  lemma RenderPrimitive(j: Java, filePackage: Option<string>, imported: map<string, string>, level: nat)
    requires j.Primitive? && j.boxed != j.primitive
    ensures Render(j, filePackage, imported, level) == j.boxed <==> level > 0
    ensures Render(j.AsBoxed(), filePackage, imported, level) == Render(j, filePackage, imported, level + 1)
  {
  }

  /** The nested path is written segment by segment, each as `.segment`. */
  lemma {:induction false} PathTextConcat(p: seq<string>, q: seq<string>)
    ensures PathText(p + q) == PathText(p) + PathText(q)
    ensures PathText([]) == "" && (|q| == 1 ==> PathText(q) == "." + q[0])
    decreases |q|
  {
    if q == [] {
      assert p + q == p;
    } else {
      assert (p + q)[..|p + q| - 1] == p + q[..|q| - 1];
      PathTextConcat(p, q[..|q| - 1]);
    }
  }

  /** Every segment adds at least its dot, so only an empty path writes nothing. */
  lemma {:induction false} PathTextLength(p: seq<string>)
    ensures |PathText(p)| >= |p|
    ensures PathText(p) == "" <==> p == []
  {
    if p != [] {
      PathTextLength(p[..|p| - 1]);
    }
  }

  /** Two runs of arguments are written with exactly one `, ` between them. */
  lemma {:induction false} RenderArgumentsConcat(a: seq<Java>, b: seq<Java>, filePackage: Option<string>, imported: map<string, string>, level: nat)
    requires a != [] && b != []
    ensures RenderArguments(a + b, filePackage, imported, level)
         == RenderArguments(a, filePackage, imported, level) + ", " + RenderArguments(b, filePackage, imported, level)
    decreases |b|
  {
    assert (a + b)[..|a + b| - 1] == a + b[..|b| - 1];
    assert (a + b)[|a + b| - 1] == b[|b| - 1];
    if |b| > 1 {
      RenderArgumentsConcat(a, b[..|b| - 1], filePackage, imported, level);
    }
  }

  /**
   * A class is written as its qualifier, its name, `.segment` for each path
   * segment and, when it has any, its arguments one level deeper inside `<`
   * and `>`. The qualifier is empty exactly when the package is `java.lang`,
   * the file's package or the package its name was imported from, and is
   * `package.` otherwise; the text is the bare name exactly when, in
   * addition, there is no path and there are no arguments.
   */
  lemma RenderClassQualification(cls: Type, filePackage: Option<string>, imported: map<string, string>, level: nat)
    ensures var q := Qualifier(cls, filePackage, imported);
      && (q == "" <==> cls.package == JAVA_LANG || filePackage == Some(cls.package) || (cls.name in imported && imported[cls.name] == cls.package))
      && (q == "" || q == cls.package + ".")
    ensures Render(Class(cls), filePackage, imported, level)
         == Qualifier(cls, filePackage, imported) + cls.name + PathText(cls.path)
            + (if cls.arguments == [] then "" else "<" + RenderArguments(cls.arguments, filePackage, imported, level + 1) + ">")
    ensures Render(Class(cls), filePackage, imported, level) == cls.name
        <==> Qualifier(cls, filePackage, imported) == "" && cls.path == [] && cls.arguments == []
  {
    var q := Qualifier(cls, filePackage, imported);
    var text := Render(Class(cls), filePackage, imported, level);
    if !(cls.package == JAVA_LANG || filePackage == Some(cls.package) || (cls.name in imported && imported[cls.name] == cls.package)) {
      assert q == cls.package + SEP;
    }
    PathTextLength(cls.path);
    var tail := if cls.arguments == [] then "" else "<" + RenderArguments(cls.arguments, filePackage, imported, level + 1) + ">";
    assert |text| == |q| + |cls.name| + |PathText(cls.path)| + |tail|;
    assert tail == "" <==> cls.arguments == [];
  }

  /** The arguments up to and including one index: those before it, then that argument. */
  lemma RenderArgumentsUpTo(args: seq<Java>, i: nat, filePackage: Option<string>, imported: map<string, string>, level: nat)
    requires i < |args|
    ensures RenderArguments(args[..i + 1], filePackage, imported, level)
         == (if i == 0 then "" else RenderArguments(args[..i], filePackage, imported, level) + ", ")
            + Render(args[i], filePackage, imported, level)
  {
    var upTo := args[..i + 1];
    assert upTo[..i] == args[..i] && upTo[i] == args[i];
  }

  /** The argument list at one index: the arguments before it, that argument, and the arguments after it. */
  lemma RenderArgumentsAt(args: seq<Java>, i: nat, filePackage: Option<string>, imported: map<string, string>, level: nat)
    requires i < |args|
    ensures RenderArguments(args, filePackage, imported, level)
         == (if i == 0 then "" else RenderArguments(args[..i], filePackage, imported, level) + ", ")
            + Render(args[i], filePackage, imported, level)
            + (if i == |args| - 1 then "" else ", " + RenderArguments(args[i + 1..], filePackage, imported, level))
  {
    RenderArgumentsUpTo(args, i, filePackage, imported, level);
    if i < |args| - 1 {
      assert args == args[..i + 1] + args[i + 1..];
      RenderArgumentsConcat(args[..i + 1], args[i + 1..], filePackage, imported, level);
    } else {
      assert args[..i + 1] == args;
    }
  }

  /**
   * A primitive among a class's generic arguments is written boxed, whatever
   * level the class itself is written at, between the arguments before it
   * and after it.
   */
  lemma ClassArgumentBoxed(cls: Type, i: nat, filePackage: Option<string>, imported: map<string, string>, level: nat)
    requires i < |cls.arguments| && cls.arguments[i].Primitive?
    ensures var args := cls.arguments;
      var before := if i == 0 then "" else RenderArguments(args[..i], filePackage, imported, level + 1) + ", ";
      var after := if i == |args| - 1 then "" else ", " + RenderArguments(args[i + 1..], filePackage, imported, level + 1);
      Render(Class(cls), filePackage, imported, level)
      == Qualifier(cls, filePackage, imported) + cls.name + PathText(cls.path) + "<" + before + args[i].boxed + after + ">"
  {
    RenderArgumentsAt(cls.arguments, i, filePackage, imported, level + 1);
  }

  /**
   * After the import loop, every importable pair of the set is written
   * unqualified if its own import was emitted, and qualified if its name was
   * taken by an earlier import of another package.
   */
  lemma ImportedThenRendered(items: seq<(string, string)>, imported: map<string, string>, filePackage: Option<string>, p: (string, string))
    requires p in PlanImports(items, imported, filePackage).0
    ensures Render(Imported(p.0, p.1), filePackage, PlanImports(items, imported, filePackage).1, 0) == p.1
  {
    PlanImportsEmits(items, imported, filePackage);
    RenderClassQualification(Imported(p.0, p.1).cls, filePackage, PlanImports(items, imported, filePackage).1, 0);
  }

  // ---------------------------------------------------------------------
  // String quoting

  /** How `quote_string` writes one character. */
  function EscapeChar(c: char): string
  {
    if c == '\t' then "\\t"
    else if c == '\U{0007}' then "\\b"
    else if c == '\n' then "\\n"
    else if c == '\r' then "\\r"
    else if c == '\U{0014}' then "\\f"
    else if c == '\'' then "\\'"
    else if c == '"' then "\\\""
    else if c == '\\' then "\\\\"
    else [c]
  }

  /** The escapes of every character, in order. */
  function Escaped(s: string): string
  {
    if s == [] then "" else EscapeChar(s[0]) + Escaped(s[1..])
  }

  lemma {:induction false} EscapedConcat(a: string, b: string)
    ensures Escaped(a + b) == Escaped(a) + Escaped(b)
  {
    if a != [] {
      assert (a + b)[0] == a[0] && (a + b)[1..] == a[1..] + b;
      EscapedConcat(a[1..], b);
    } else {
      assert a + b == b;
    }
  }

  /** `quote_string`: the escaped text between double quotes. */
  method QuoteString(input: string) returns (out: string)
    ensures out == "\"" + Escaped(input) + "\""
  {
    out := "\"";
    for i := 0 to |input|
      invariant out + Escaped(input[i..]) == "\"" + Escaped(input)
    {
      assert input[i..][1..] == input[i + 1..];
      out := out + EscapeChar(input[i]);
    }
    out := out + "\"";
  }

  /** The character a Java compiler reads for the escape `\x` (section 3.10.6 of the Java Language Specification). */
  function JavaEscapeValue(x: char): Option<char>
  {
    if x == 'b' then Some('\U{0008}')
    else if x == 't' then Some('\t')
    else if x == 'n' then Some('\n')
    else if x == 'f' then Some('\U{000C}')
    else if x == 'r' then Some('\r')
    else if x == '"' then Some('"')
    else if x == '\'' then Some('\'')
    else if x == '\\' then Some('\\')
    else Option.None
  }

  /** How the body of a Java string literal reads: escapes decoded, a bare `"` or `\` refused. */
  function JavaUnescape(body: string): Option<string>
  {
    if body == [] then Some("")
    else if body[0] == '\\' then
      if |body| < 2 || JavaEscapeValue(body[1]).None? then Option.None
      else
        var rest := JavaUnescape(body[2..]);
        if rest.None? then Option.None else Some([JavaEscapeValue(body[1]).value] + rest.value)
    else if body[0] == '"' then Option.None
    else
      var rest := JavaUnescape(body[1..]);
      if rest.None? then Option.None else Some([body[0]] + rest.value)
  }

  /** What a Java compiler reads back for a `quote_string` literal's character: the bell and U+0014 are misread. */
  function ReadBack(c: char): char
  {
    if c == '\U{0007}' then '\U{0008}' else if c == '\U{0014}' then '\U{000C}' else c
  }

  function ReadBackAll(s: string): (r: string)
    ensures |r| == |s|
    ensures forall k :: 0 <= k < |s| ==> r[k] == ReadBack(s[k])
  {
    if s == [] then "" else [ReadBack(s[0])] + ReadBackAll(s[1..])
  }

  /** A two-character escape in front of a readable body reads as the character it names. */
  lemma EscapeReadsBack(x: char, v: char, t: string, rt: string)
    requires JavaEscapeValue(x) == Some(v) && JavaUnescape(t) == Some(rt)
    ensures JavaUnescape(['\\', x] + t) == Some([v] + rt)
  {
    var e := ['\\', x] + t;
    assert e[0] == '\\' && e[1] == x && e[2..] == t;
  }

  /** A character written as itself in front of a readable body reads as itself. */
  lemma PlainReadsBack(c: char, t: string, rt: string)
    requires c != '\\' && c != '"' && JavaUnescape(t) == Some(rt)
    ensures JavaUnescape([c] + t) == Some([c] + rt)
  {
    var e := [c] + t;
    assert e[0] == c && e[1..] == t;
  }

  lemma EscapeCharReadsBack(c: char, t: string, rt: string)
    requires JavaUnescape(t) == Some(rt)
    ensures JavaUnescape(EscapeChar(c) + t) == Some([ReadBack(c)] + rt)
  {
    if c == '\t' { EscapeReadsBack('t', c, t, rt); }
    else if c == '\U{0007}' { EscapeReadsBack('b', '\U{0008}', t, rt); }
    else if c == '\n' { EscapeReadsBack('n', c, t, rt); }
    else if c == '\r' { EscapeReadsBack('r', c, t, rt); }
    else if c == '\U{0014}' { EscapeReadsBack('f', '\U{000C}', t, rt); }
    else if c == '\'' { EscapeReadsBack('\'', c, t, rt); }
    else if c == '"' { EscapeReadsBack('"', c, t, rt); }
    else if c == '\\' { EscapeReadsBack('\\', c, t, rt); }
    else { PlainReadsBack(c, t, rt); }
  }

  lemma EscapeCharCorrectedReadsBack(c: char, t: string, rt: string)
    requires JavaUnescape(t) == Some(rt)
    ensures JavaUnescape(EscapeCharCorrected(c) + t) == Some([c] + rt)
  {
    if c == '\t' { EscapeReadsBack('t', c, t, rt); }
    else if c == '\U{0008}' { EscapeReadsBack('b', c, t, rt); }
    else if c == '\n' { EscapeReadsBack('n', c, t, rt); }
    else if c == '\r' { EscapeReadsBack('r', c, t, rt); }
    else if c == '\U{000C}' { EscapeReadsBack('f', c, t, rt); }
    else if c == '\'' { EscapeReadsBack('\'', c, t, rt); }
    else if c == '"' { EscapeReadsBack('"', c, t, rt); }
    else if c == '\\' { EscapeReadsBack('\\', c, t, rt); }
    else { PlainReadsBack(c, t, rt); }
  }

  /** Every character of the input survives quoting and reading back, except the two misread ones. */
  lemma {:induction false} QuotedReadsBack(s: string)
    ensures JavaUnescape(Escaped(s)) == Some(ReadBackAll(s))
  {
    if s != [] {
      QuotedReadsBack(s[1..]);
      EscapeCharReadsBack(s[0], Escaped(s[1..]), ReadBackAll(s[1..]));
    }
  }

  /** A quoted bell character reads back as a backspace. */
  lemma QuotedBellMisread()
    ensures JavaUnescape(Escaped("\U{0007}")) == Some("\U{0008}")
    ensures JavaUnescape(Escaped("\U{0007}")) != Some("\U{0007}")
  {
    QuotedReadsBack("\U{0007}");
    var r := ReadBackAll("\U{0007}");
    assert |r| == 1 && r[0] == '\U{0008}';
    assert r == "\U{0008}";
  }

  /** The escape `quote_string` evidently intends: backspace as `\b`, form feed as `\f`. */
  function EscapeCharCorrected(c: char): string
  {
    if c == '\t' then "\\t"
    else if c == '\U{0008}' then "\\b"
    else if c == '\n' then "\\n"
    else if c == '\r' then "\\r"
    else if c == '\U{000C}' then "\\f"
    else if c == '\'' then "\\'"
    else if c == '"' then "\\\""
    else if c == '\\' then "\\\\"
    else [c]
  }

  function EscapedCorrected(s: string): string
  {
    if s == [] then "" else EscapeCharCorrected(s[0]) + EscapedCorrected(s[1..])
  }

  lemma {:induction false} EscapedCorrectedConcat(a: string, b: string)
    ensures EscapedCorrected(a + b) == EscapedCorrected(a) + EscapedCorrected(b)
  {
    if a != [] {
      assert (a + b)[0] == a[0] && (a + b)[1..] == a[1..] + b;
      EscapedCorrectedConcat(a[1..], b);
    } else {
      assert a + b == b;
    }
  }

  /** The corrected quoting reads back as exactly the input. */
  lemma {:induction false} QuotedCorrectedRoundTrip(s: string)
    ensures JavaUnescape(EscapedCorrected(s)) == Some(s)
  {
    if s != [] {
      QuotedCorrectedRoundTrip(s[1..]);
      EscapeCharCorrectedReadsBack(s[0], EscapedCorrected(s[1..]), s[1..]);
      assert [s[0]] + s[1..] == s;
    }
  }

  /** `quote_string` with the corrected escapes. */
  method QuoteStringCorrected(input: string) returns (out: string)
    ensures out == "\"" + EscapedCorrected(input) + "\""
    ensures JavaUnescape(out[1..|out| - 1]) == Some(input)
  {
    out := "\"";
    for i := 0 to |input|
      invariant out + EscapedCorrected(input[i..]) == "\"" + EscapedCorrected(input)
    {
      assert input[i..][1..] == input[i + 1..];
      out := out + EscapeCharCorrected(input[i]);
    }
    out := out + "\"";
    QuotedCorrectedRoundTrip(input);
    ghost var body := EscapedCorrected(input);
    assert out == "\"" + body + "\"";
    assert out[1..|out| - 1] == body;
  }

  // ---------------------------------------------------------------------
  // Whole files

  /** The `package …;` line, when the file has a package. */
  function PackageLines(filePackage: Option<string>): seq<Element<Java>>
  {
    if filePackage.Some? then [Push([Literal("package "), Literal(filePackage.value), Literal(";")])] else []
  }

  /** The tree of a file: its package line, its import lines when there are any, and its body, each pushed. */
  function FileTree(filePackage: Option<string>, imports: Option<seq<Element<Java>>>, tokens: seq<Element<Java>>): seq<Element<Java>>
  {
    PackageLines(filePackage) + (if imports.Some? then [Push(imports.value)] else []) + [Push(tokens)]
  }

  /**
   * `write_file`: the package line, the imports and the body, each pushed
   * and separated by blank lines; this is the tree handed to the renderer.
   */
  method WriteFile(tokens: seq<Element<Java>>, extra: Extra) returns (file: seq<Element<Java>>)
    modifies extra
    ensures extra.package == old(extra.package)
    ensures var items := CollectImports(Walk(tokens));
      var plan := PlanImports(items, old(extra.imported), extra.package);
      && file == Joined(FileTree(extra.package, if items == [] then Option.None else Some(ImportLines(plan.0)), tokens), LineSpacing)
      && extra.imported == (if items == [] then old(extra.imported) else plan.1)
  {
    var toks := new Tokens<Java>();
    if extra.package.Some? {
      var line := Toks([Literal("package "), Literal(extra.package.value), Literal(";")]);
      toks.Push(line);
    }
    assert toks.elements == PackageLines(extra.package);
    var imports := Imports(tokens, extra);
    if imports.Some? {
      toks.Push(imports.value);
    }
    toks.Push(tokens);
    assert toks.elements == FileTree(extra.package, imports, tokens);
    file := JoinLineSpacing(toks.elements);
  }


  /** One more pair for the import loop. */
  lemma PlanImportsSnoc(init: seq<(string, string)>, p: (string, string), imported: map<string, string>, filePackage: Option<string>)
    ensures var plan := PlanImports(init, imported, filePackage);
      PlanImports(init + [p], imported, filePackage)
        == if p.1 in plan.1 || p.0 == JAVA_LANG || Some(p.0) == filePackage then plan
           else (plan.0 + [p], plan.1[p.1 := p.0])
  {
    assert (init + [p])[..|init|] == init;
  }

  /** The plan for one more pair of the set, stated on prefixes. */
  lemma PlanImportsPrefix(items: seq<(string, string)>, i: nat, imported: map<string, string>, filePackage: Option<string>)
    requires i < |items|
    ensures var plan := PlanImports(items[..i], imported, filePackage);
      var p := items[i];
      PlanImports(items[..i + 1], imported, filePackage)
        == if p.1 in plan.1 || p.0 == JAVA_LANG || Some(p.0) == filePackage then plan
           else (plan.0 + [p], plan.1[p.1 := p.0])
  {
    assert items[..i + 1] == items[..i] + [items[i]];
    PlanImportsSnoc(items[..i], items[i], imported, filePackage);
  }

  /**
   * The import loop of `test_imported`: `java.lang.Integer` needs no import,
   * `java.io.A` and `java.io.B` are imported, and `java.util.B` is skipped
   * because the name `B` is already taken.
   */
  lemma ImportedExamplePlan()
    ensures var items := [("java.io", "A"), ("java.io", "B"), ("java.lang", "Integer"), ("java.util", "B")];
      PlanImports(items, map[], Option.None) == ([("java.io", "A"), ("java.io", "B")], map["A" := "java.io", "B" := "java.io"])
  {
    var a, b, i, ob := ("java.io", "A"), ("java.io", "B"), ("java.lang", "Integer"), ("java.util", "B");
    var none: Option<string> := Option.None;
    var m1 := map["A" := "java.io"];
    var m2 := map["A" := "java.io", "B" := "java.io"];
    PlanImportsSnoc([], a, map[], none);
    assert [] + [a] == [a];
    PlanImportsSnoc([a], b, map[], none);
    assert [a] + [b] == [a, b];
    assert "B" != "A";
    PlanImportsSnoc([a, b], i, map[], none);
    assert [a, b] + [i] == [a, b, i];
    PlanImportsSnoc([a, b, i], ob, map[], none);
    assert [a, b, i] + [ob] == [a, b, i, ob];
    assert "B" in m2;
  }

  /** How `test_imported` renders its types once `java.io.A` and `java.io.B` are imported. */
  lemma ImportedExampleRenders()
    ensures var imported := map["A" := "java.io", "B" := "java.io"];
      && Render(Imported("java.lang", "Integer"), Option.None, imported, 0) == "Integer"
      && Render(Imported("java.io", "A"), Option.None, imported, 0) == "A"
      && Render(Imported("java.util", "B"), Option.None, imported, 0) == "java.util.B"
      && Render(Imported("java.util", "B").WithArguments([Imported("java.io", "A")]), Option.None, imported, 0) == "java.util.B<A>"
  {
  }


}
