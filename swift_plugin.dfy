/**
 * The Swift language plug-in: the Swift type value, module import
 * collection, type formatting, string quoting and whole-file assembly.
 */
module SwiftPlugin {
  import opened Wrappers
  import opened OrderedSets
  import opened TokenTree

  /** The name of a type and the module it is imported from, if any. */
  datatype Name = Name(moduleName: Option<string>, name: string)

  /** A Swift type as it appears in generated code. */
  datatype Swift =
    | Primitive(primitive: string)
    | Type(name: Name)
    | Map(key: Swift, value: Swift)
    | Array(inner: Swift)

  const SHORT: Swift := Primitive("Int16")
  const INTEGER: Swift := Primitive("Int32")
  const LONG: Swift := Primitive("Int64")
  const FLOAT: Swift := Primitive("Float")
  const DOUBLE: Swift := Primitive("Double")
  const CHAR: Swift := Primitive("Character")
  const BOOLEAN: Swift := Primitive("Bool")
  const BYTE: Swift := Primitive("Int8")
  const VOID: Swift := Primitive("Void")

  // ---------------------------------------------------------------------
  // Import collection

  /** The modules a type needs imported: the module of every named type in it. */
  function Modules(j: Swift): set<string>
  {
    match j
    case Primitive(_) => {}
    case Type(n) => if n.moduleName.Some? then {n.moduleName.value} else {}
    case Map(key, value) => Modules(key) + Modules(value)
    case Array(inner) => Modules(inner)
  }

  /** An imported type: written as its name, needing its module. */
  function Imported(moduleName: string, name: string): (r: Swift)
    ensures Modules(r) == {moduleName}
    ensures forall level: nat :: Render(r, level) == name
  {
    Type(Name(Some(moduleName), name))
  }

  /** A local type: written as its name, needing no import. */
  function LocalType(name: string): (r: Swift)
    ensures Modules(r) == {}
    ensures forall level: nat :: Render(r, level) == name
  {
    Type(Name(Option.None, name))
  }

  /** A dictionary type `[K: V]`: it needs the imports of both its key and its value. */
  function MapOf(key: Swift, value: Swift): (r: Swift)
    ensures Modules(r) == Modules(key) + Modules(value)
    ensures forall level: nat :: Render(r, level) == "[" + Render(key, level + 1) + ": " + Render(value, level + 1) + "]"
  {
    Map(key, value)
  }

  /** An array type `[T]`: it needs the imports of its element type. */
  function ArrayOf(inner: Swift): (r: Swift)
    ensures Modules(r) == Modules(inner)
    ensures forall level: nat :: Render(r, level) == "[" + Render(inner, level + 1) + "]"
  {
    Array(inner)
  }

  /** The ordered set after `type_imports`: key before value, a named type's module inserted. */
  function InsertModules(j: Swift, s: seq<string>): seq<string>
  {
    match j
    case Primitive(_) => s
    case Type(n) => if n.moduleName.Some? then Inserted(s, n.moduleName.value, StrLess) else s
    case Map(key, value) => InsertModules(value, InsertModules(key, s))
    case Array(inner) => InsertModules(inner, s)
  }

  /** Collecting adds exactly the type's modules and keeps the set ascending. */
  lemma {:induction false} InsertModulesSpec(j: Swift, s: seq<string>)
    requires Increasing(s, StrLess)
    ensures Increasing(InsertModules(j, s), StrLess)
    ensures forall m :: m in InsertModules(j, s) <==> m in s || m in Modules(j)
  {
    match j {
      case Primitive(_) =>
      case Type(n) =>
        if n.moduleName.Some? {
          StrLessOrder();
          InsertIncreasing(s, n.moduleName.value, StrLess);
          InsertMembers(s, n.moduleName.value, StrLess);
        }
      case Map(key, value) =>
        InsertModulesSpec(key, s);
        InsertModulesSpec(value, InsertModules(key, s));
      case Array(inner) =>
        InsertModulesSpec(inner, s);
    }
  }

  /** `type_imports`: inserts the modules of a type into the ordered set. */
  method TypeImports(j: Swift, modules: OrderedSet<string>)
    requires modules.Valid() && modules.less == StrLess
    modifies modules
    ensures modules.Valid() && modules.less == StrLess
    ensures modules.items == InsertModules(j, old(modules.items))
  {
    match j {
      case Type(n) =>
        if n.moduleName.Some? {
          modules.Insert(n.moduleName.value);
        }
      case Map(key, value) =>
        TypeImports(key, modules);
        TypeImports(value, modules);
      case Array(inner) =>
        TypeImports(inner, modules);
      case Primitive(_) =>
    }
  }

  /** The ordered set collected from the customs of a tree, in walk order. */
  function CollectModules(customs: seq<Swift>): seq<string>
  {
    if customs == [] then [] else InsertModules(customs[|customs| - 1], CollectModules(customs[..|customs| - 1]))
  }

  /** The collected set is ascending and holds the modules of every custom, and nothing else. */
  lemma {:induction false} CollectModulesSpec(customs: seq<Swift>)
    ensures Increasing(CollectModules(customs), StrLess)
    ensures forall m :: m in CollectModules(customs) <==> exists k :: 0 <= k < |customs| && m in Modules(customs[k])
  {
    if customs != [] {
      var init := customs[..|customs| - 1];
      CollectModulesSpec(init);
      InsertModulesSpec(customs[|customs| - 1], CollectModules(init));
      forall m ensures m in CollectModules(customs) <==> exists k :: 0 <= k < |customs| && m in Modules(customs[k]) {
        if m in CollectModules(customs) && m !in Modules(customs[|customs| - 1]) {
          var k :| 0 <= k < |init| && m in Modules(init[k]);
          assert customs[k] == init[k];
        }
        if exists k :: 0 <= k < |customs| && m in Modules(customs[k]) {
          var k :| 0 <= k < |customs| && m in Modules(customs[k]);
          if k < |init| { assert init[k] == customs[k]; }
        }
      }
    }
  }

  /** The `import <module>` line of a module. */
  function ImportLine(moduleName: string): Element<Swift>
  {
    Push([Literal("import "), Literal(moduleName)])
  }

  function ImportLines(modules: seq<string>): (r: seq<Element<Swift>>)
    ensures |r| == |modules|
    ensures forall k :: 0 <= k < |modules| ==> r[k] == ImportLine(modules[k])
  {
    if modules == [] then [] else ImportLines(modules[..|modules| - 1]) + [ImportLine(modules[|modules| - 1])]
  }

  /**
   * The import block of a tree has one line per distinct module of its
   * customs, in ascending order: no module is imported twice, none is
   * missing and none is invented.
   */
  lemma ImportLinesDistinctAscending(tokens: seq<Element<Swift>>)
    ensures var items := CollectModules(Walk(tokens));
      var lines := ImportLines(items);
      && |lines| == |items|
      && (forall k, l :: 0 <= k < l < |items| ==> StrLess(items[k], items[l]) && lines[k] != lines[l])
      && (forall m :: ImportLine(m) in lines <==> exists c :: c in Walk(tokens) && m in Modules(c))
  {
    var customs := Walk(tokens);
    var items := CollectModules(customs);
    CollectModulesSpec(customs);
    ImportLinesDistinct(items);
    ImportLinesMembers(items);
    forall m ensures m in items <==> exists c :: c in customs && m in Modules(c) {
      if m in items {
        var i :| 0 <= i < |customs| && m in Modules(customs[i]);
        assert customs[i] in customs;
      }
      if exists c :: c in customs && m in Modules(c) {
        var c :| c in customs && m in Modules(c);
        var i :| 0 <= i < |customs| && customs[i] == c;
      }
    }
  }

  /** Ascending modules give pairwise different import lines. */
  lemma ImportLinesDistinct(items: seq<string>)
    requires Increasing(items, StrLess)
    ensures forall k, l :: 0 <= k < l < |items| ==> ImportLines(items)[k] != ImportLines(items)[l]
  {
    StrLessOrder();
    var lines := ImportLines(items);
    forall k, l | 0 <= k < l < |items| ensures lines[k] != lines[l] {
      assert lines[k].tokens[1] == Literal(items[k]);
      assert StrLess(items[k], items[l]);
    }
  }

  /** The import line of a module is in the block exactly when the module is. */
  lemma ImportLinesMembers(items: seq<string>)
    ensures forall m :: ImportLine(m) in ImportLines(items) <==> m in items
  {
    var lines := ImportLines(items);
    forall m ensures ImportLine(m) in lines <==> m in items {
      if ImportLine(m) in lines {
        var k :| 0 <= k < |lines| && lines[k] == ImportLine(m);
        assert lines[k].tokens[1] == Literal(items[k]);
      }
      if m in items {
        var k :| 0 <= k < |items| && items[k] == m;
        assert lines[k] == ImportLine(m);
      }
    }
  }

  /** One step of the collecting walk: the yielded custom moves from the rest of the walk to the part seen. */
  lemma CollectModulesStep(walked: seq<Swift>, seen: seq<Swift>, c: Swift, before: seq<Swift>, after: seq<Swift>)
    requires walked == seen + before && before == [c] + after
    ensures walked == (seen + [c]) + after
    ensures CollectModules(seen + [c]) == InsertModules(c, CollectModules(seen))
  {
    var next := seen + [c];
    assert next[..|seen|] == seen && next[|seen|] == c;
  }

  /** The first half of `imports`: every custom of the tree walked, its modules gathered in a `BTreeSet`. */
  method GatherModules(tokens: seq<Element<Swift>>) returns (items: seq<string>)
    ensures items == CollectModules(Walk(tokens))
  {
    StrLessOrder();
    var modules := new OrderedSet<string>(StrLess);
    var walk := new WalkCustom<Swift>(tokens);
    ghost var seen: seq<Swift> := [];
    while true
      invariant fresh(modules) && fresh(walk)
      invariant modules.Valid() && modules.less == StrLess
      invariant Walk(tokens) == seen + Walk(walk.queue)
      invariant modules.items == CollectModules(seen)
      decreases |Walk(walk.queue)|
    {
      ghost var before := Walk(walk.queue);
      var custom := walk.Next();
      if custom.None? {
        break;
      }
      TypeImports(custom.value, modules);
      CollectModulesStep(Walk(tokens), seen, custom.value, before, Walk(walk.queue));
      seen := seen + [custom.value];
    }
    assert walk.queue == [] && Walk<Swift>([]) == [];
    assert seen == Walk(tokens);
    items := modules.items;
  }

  /** The tokens of one import line, appended one part at a time. */
  method BuildImportLine(moduleName: string) returns (r: seq<Element<Swift>>)
    ensures r == ImportLine(moduleName).tokens
  {
    var s := new Tokens<Swift>();
    s.Append(Literal("import "));
    s.Append(Literal(moduleName));
    r := s.elements;
  }

  /** `imports`: `None` when the tree needs no module, otherwise one `import` line per module, ascending. */
  method Imports(tokens: seq<Element<Swift>>) returns (r: Option<seq<Element<Swift>>>)
    ensures var items := CollectModules(Walk(tokens));
      && (r.None? <==> items == [])
      && (r.Some? ==> r.value == ImportLines(items))
  {
    var items := GatherModules(tokens);
    if items == [] {
      return Option.None;
    }
    var out := new Tokens<Swift>();
    for i := 0 to |items|
      invariant out.elements == ImportLines(items[..i])
    {
      assert items[..i + 1][..i] == items[..i];
      var line := BuildImportLine(items[i]);
      out.Push(line);
    }
    assert items[..|items|] == items;
    return Some(out.elements);
  }

  // ---------------------------------------------------------------------
  // Formatting

  /** The text `format` writes for a type; the nesting level does not change it. */
  function Render(j: Swift, level: nat): string
  {
    match j
    case Primitive(primitive) => primitive
    case Type(n) => n.name
    case Map(key, value) => "[" + Render(key, level + 1) + ": " + Render(value, level + 1) + "]"
    case Array(inner) => "[" + Render(inner, level + 1) + "]"
  }

  /** `Custom::format` for Swift types. */
  method Format(j: Swift, level: nat) returns (out: string)
    ensures out == Render(j, level)
  {
    out := "";
    match j {
      case Type(n) =>
        out := out + n.name;
      case Map(key, value) =>
        out := out + "[";
        var k := Format(key, level + 1);
        out := out + k;
        out := out + ": ";
        var v := Format(value, level + 1);
        out := out + v;
        out := out + "]";
      case Array(inner) =>
        out := out + "[";
        var i := Format(inner, level + 1);
        out := out + i;
        out := out + "]";
      case Primitive(primitive) =>
        out := out + primitive;
    }
  }

  /** The module a type is imported from never shows in its text, and neither does the nesting level. */
  lemma {:induction false} RenderIgnoresModuleAndLevel(j: Swift, level: nat, other: nat)
    ensures Render(j, level) == Render(j, other)
    ensures j.Type? ==> Render(j, level) == Render(LocalType(j.name.name), level)
  {
    match j {
      case Primitive(_) =>
      case Type(_) =>
      case Map(key, value) =>
        RenderIgnoresModuleAndLevel(key, level + 1, other + 1);
        RenderIgnoresModuleAndLevel(value, level + 1, other + 1);
      case Array(inner) =>
        RenderIgnoresModuleAndLevel(inner, level + 1, other + 1);
    }
  }

  /** The types of the tests: `[Debug]` and `[String: Debug]`, each needing the module `Foo`. */
  lemma RenderExamples()
    ensures Render(ArrayOf(Imported("Foo", "Debug")), 0) == "[Debug]"
    ensures Render(MapOf(LocalType("String"), Imported("Foo", "Debug")), 0) == "[String: Debug]"
    ensures Modules(MapOf(LocalType("String"), Imported("Foo", "Debug"))) == {"Foo"}
  {
  }

  // ---------------------------------------------------------------------
  // String quoting

  /** How `quote_string` writes one character. */
  function EscapeChar(c: char): string
  {
    if c == '\t' then "\\t"
    else if c == '\n' then "\\n"
    else if c == '\r' then "\\r"
    else if c == '\'' then "\\'"
    else if c == '"' then "\\\""
    else if c == '\\' then "\\\\"
    else [c]
  }

  /** The escapes of every character, in order. */
  function Escaped(s: string): string
  {
    if s == [] then "" else EscapeChar(s[0]) + Escaped(s[1..])
  }

  lemma {:induction false} EscapedConcat(a: string, b: string)
    ensures Escaped(a + b) == Escaped(a) + Escaped(b)
  {
    if a != [] {
      assert (a + b)[0] == a[0] && (a + b)[1..] == a[1..] + b;
      EscapedConcat(a[1..], b);
    } else {
      assert a + b == b;
    }
  }

  /** `quote_string`: the escaped text between double quotes. */
  method QuoteString(input: string) returns (out: string)
    ensures out == "\"" + Escaped(input) + "\""
  {
    out := "\"";
    for i := 0 to |input|
      invariant out + Escaped(input[i..]) == "\"" + Escaped(input)
    {
      assert input[i..][1..] == input[i + 1..];
      out := out + EscapeChar(input[i]);
    }
    out := out + "\"";
  }

  /** The character a Swift compiler reads for the escape `\x`, among the simple escapes. */
  function SwiftEscapeValue(x: char): Option<char>
  {
    if x == 't' then Some('\t')
    else if x == 'n' then Some('\n')
    else if x == 'r' then Some('\r')
    else if x == '0' then Some('\0')
    else if x == '"' then Some('"')
    else if x == '\'' then Some('\'')
    else if x == '\\' then Some('\\')
    else Option.None
  }

  /** How the body of a Swift string literal reads: escapes decoded, a bare `"` or `\` refused. */
  function SwiftUnescape(body: string): Option<string>
  {
    if body == [] then Some("")
    else if body[0] == '\\' then
      if |body| < 2 || SwiftEscapeValue(body[1]).None? then Option.None
      else
        var rest := SwiftUnescape(body[2..]);
        if rest.None? then Option.None else Some([SwiftEscapeValue(body[1]).value] + rest.value)
    else if body[0] == '"' then Option.None
    else
      var rest := SwiftUnescape(body[1..]);
      if rest.None? then Option.None else Some([body[0]] + rest.value)
  }

  lemma EscapeCharReadsBack(c: char, t: string, rt: string)
    requires SwiftUnescape(t) == Some(rt)
    ensures SwiftUnescape(EscapeChar(c) + t) == Some([c] + rt)
  {
    var e := EscapeChar(c) + t;
    if c == '\t' || c == '\n' || c == '\r' || c == '\'' || c == '"' || c == '\\' {
      assert e[0] == '\\' && e[2..] == t;
    } else {
      assert e[0] == c && e[1..] == t;
    }
  }

  /** A quoted string reads back as exactly the input. */
  lemma {:induction false} QuotedRoundTrip(s: string)
    ensures SwiftUnescape(Escaped(s)) == Some(s)
  {
    if s != [] {
      QuotedRoundTrip(s[1..]);
      EscapeCharReadsBack(s[0], Escaped(s[1..]), s[1..]);
      assert [s[0]] + s[1..] == s;
    }
  }

  /** Text without tab, line breaks, quotes or backslashes is copied unchanged. */
  lemma {:induction false} EscapedPlain(s: string)
    requires forall k :: 0 <= k < |s| ==> s[k] !in "\t\n\r'\"\\"
    ensures Escaped(s) == s
  {
    if s != [] {
      EscapedPlain(s[1..]);
      assert [s[0]] + s[1..] == s;
    }
  }

  /** A line break between two plain texts, as in the quoting test, is the only character escaped. */
  lemma EscapedLineBreak(a: string, b: string)
    requires forall k :: 0 <= k < |a| ==> a[k] !in "\t\n\r'\"\\"
    requires forall k :: 0 <= k < |b| ==> b[k] !in "\t\n\r'\"\\"
    ensures Escaped(a + "\n" + b) == a + "\\n" + b
  {
    EscapedPlain(a);
    EscapedPlain(b);
    assert Escaped("\n") == "\\n";
    EscapedConcat(a, "\n");
    EscapedConcat(a + "\n", b);
  }

  // ---------------------------------------------------------------------
  // Whole files

  /** The tree of a file: the import lines when there are any, then the body, each pushed. */
  function FileTree(imports: Option<seq<Element<Swift>>>, tokens: seq<Element<Swift>>): seq<Element<Swift>>
  {
    (if imports.Some? then [Push(imports.value)] else []) + [Push(tokens)]
  }

  /**
   * `write_file`: the import block and the body, each pushed and separated
   * by a blank line; this is the tree handed to the renderer.
   */
  method WriteFile(tokens: seq<Element<Swift>>) returns (file: seq<Element<Swift>>)
    ensures var items := CollectModules(Walk(tokens));
      file == if items == [] then [Push(tokens)] else [Push(ImportLines(items)), LineSpacing, Push(tokens)]
  {
    var toks := new Tokens<Swift>();
    var imports := Imports(tokens);
    if imports.Some? {
      toks.Push(imports.value);
    }
    toks.Push(tokens);
    assert toks.elements == FileTree(imports, tokens);
    file := JoinLineSpacing(toks.elements);
    ghost var items := CollectModules(Walk(tokens));
    if imports.Some? {
      assert toks.elements == [Push(ImportLines(items)), Push(tokens)];
      JoinedPair(Push(imports.value), Push(tokens), LineSpacing);
    } else {
      assert toks.elements == [Push(tokens)];
      JoinedSingle(Push(tokens), LineSpacing);
    }
  }

  /** The walk of a one-line body `push(toks!(&ty))` yields its one type. */
  lemma WalkOneLine(ty: Swift)
    ensures Walk([Push([Custom(ty)])]) == [ty]
  {
    WalkCons(Push([Custom(ty)]), []);
    assert [] + Children(Push([Custom(ty)])) == [Custom(ty)];
    WalkCons(Custom(ty), []);
    assert [] + Children<Swift>(Custom(ty)) == [];
  }

  /** The `[String: Debug]` file of the map test: one `import Foo` line, a blank line, then the body. */
  lemma WriteFileMapExample()
    ensures var body := [Push([Custom(MapOf(LocalType("String"), Imported("Foo", "Debug")))])];
      && CollectModules(Walk(body)) == ["Foo"]
      && FileTree(Some(ImportLines(["Foo"])), body) == [Push([Push([Literal("import "), Literal("Foo")])]), Push(body)]
  {
    var ty := MapOf(LocalType("String"), Imported("Foo", "Debug"));
    WalkOneLine(ty);
    assert [ty][..0] == [];
    assert InsertModules(LocalType("String"), []) == [];
    assert ImportLines(["Foo"]) == [ImportLine("Foo")] by {
      assert ["Foo"][..0] == [];
    }
  }
}
