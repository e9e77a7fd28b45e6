/** Arguments of Swift functions and initialisers: `name : Type = initializer`. */
module SwiftArgument {
  import opened TokenTree
  import opened SwiftPlugin

  class Argument {
    var ty: Swift
    var name: string
    /** The accumulated initializer, one `Append` per `initializer` call. */
    var initializer: seq<Element<Swift>>

    ghost predicate Valid()
      reads this
    {
      NoNone(initializer)
    }

    constructor (ty: Swift, name: string)
      ensures this.ty == ty && this.name == name && initializer == []
      ensures Valid()
    {
      this.ty := ty;
      this.name := name;
      initializer := [];
    }

    /** Adds to the initializer rather than replacing it. */
    method Initializer(init: seq<Element<Swift>>)
      requires Valid()
      modifies this`initializer
      ensures initializer == old(initializer) + [Append(init)]
      ensures Valid()
    {
      initializer := initializer + [Append(init)];
    }

    /** The argument's tokens. */
    function Rendered(): seq<Element<Swift>>
      reads this
    {
      ArgumentTokens(name, ty, initializer)
    }

    method IntoTokens() returns (r: seq<Element<Swift>>)
      ensures r == Rendered()
    {
      var s := new Tokens<Swift>();
      s.Append(Literal(name));
      s.Append(Literal(":"));
      s.Append(Custom(ty));
      assert s.elements == [Literal(name), Literal(":"), Custom(ty)];
      if !(initializer == []) {
        s.Append(Literal("="));
        s.Extend(initializer);
      }
      assert s.elements == ArgumentParts(name, ty, initializer);
      r := JoinSpacing(s.elements);
    }
  }

  /** `name`, `:`, the type and, for a non-empty initializer, `=` and its elements, joined with spacing. */
  function ArgumentTokens(name: string, ty: Swift, initializer: seq<Element<Swift>>): seq<Element<Swift>>
  {
    Joined(ArgumentParts(name, ty, initializer), Spacing)
  }

  /** The parts of an argument before they are joined. */
  function ArgumentParts(name: string, ty: Swift, initializer: seq<Element<Swift>>): seq<Element<Swift>>
  {
    [Literal(name), Literal(":"), Custom(ty)] + (if initializer == [] then [] else [Literal("=")] + initializer)
  }

  /**
   * The argument reads `name : ty`, followed by `= initializer…` exactly
   * when an initializer was given, every two parts separated by one spacing.
   */
  lemma ArgumentShape(name: string, ty: Swift, initializer: seq<Element<Swift>>)
    requires NoNone(initializer)
    ensures var r := ArgumentTokens(name, ty, initializer);
      && |r| >= 5
      && r[0] == Literal(name) && r[1] == Spacing && r[2] == Literal(":") && r[3] == Spacing && r[4] == Custom(ty)
      && (initializer == [] <==> |r| == 5)
      && (initializer != [] ==>
            && |r| == 7 + 2 * |initializer|
            && r[5] == Spacing && r[6] == Literal("=")
            && forall k :: 0 <= k < |initializer| ==> r[7 + 2 * k] == Spacing && r[8 + 2 * k] == initializer[k])
  {
    var parts := ArgumentParts(name, ty, initializer);
    PartsNoNone(name, ty, initializer);
    JoinedShape(parts, Spacing);
    InterleavePositions(parts, Spacing);
    var r := Joined(parts, Spacing);
    assert r[0] == parts[0] && r[2] == parts[1] && r[4] == parts[2];
    if initializer != [] {
      assert |parts| == 4 + |initializer|;
      assert r[6] == parts[3];
      forall k | 0 <= k < |initializer|
        ensures r[7 + 2 * k] == Spacing && r[8 + 2 * k] == initializer[k]
      {
        assert r[2 * (k + 4)] == parts[k + 4];
        assert r[2 * (k + 3) + 1] == Spacing;
      }
    }
  }

  lemma PartsNoNone(name: string, ty: Swift, initializer: seq<Element<Swift>>)
    requires NoNone(initializer)
    ensures NoNone(ArgumentParts(name, ty, initializer))
    ensures |ArgumentParts(name, ty, initializer)| == if initializer == [] then 3 else 4 + |initializer|
  {
    var parts := ArgumentParts(name, ty, initializer);
    forall k | 0 <= k < |parts|
      ensures parts[k] != Element.None
    {
      if k >= 4 {
        assert parts[k] == initializer[k - 4];
      }
    }
  }

  /** The argument of the test renders as `arg : Int = 100`. */
  lemma ArgumentTestTokens()
    ensures ArgumentTokens("arg", LocalType("Int"), [Append([Literal("100")])])
         == [Literal("arg"), Spacing, Literal(":"), Spacing, Custom(LocalType("Int")),
             Spacing, Literal("="), Spacing, Append([Literal("100")])]
  {
    assert ArgumentParts("arg", LocalType("Int"), [Append([Literal("100")])])
        == [Literal("arg"), Literal(":"), Custom(LocalType("Int")), Literal("="), Append([Literal("100")])];
    JoinedFive<Swift>(Literal("arg"), Literal(":"), Custom(LocalType("Int")), Literal("="), Append([Literal("100")]), Spacing);
  }

  /** The argument of the test, built by `new` and one `initializer` call. */
  method ArgumentExample() returns (r: seq<Element<Swift>>)
    ensures r == [Literal("arg"), Spacing, Literal(":"), Spacing, Custom(LocalType("Int")),
                  Spacing, Literal("="), Spacing, Append([Literal("100")])]
  {
    var c := new Argument(LocalType("Int"), "arg");
    var init := new Tokens<Swift>();
    init.Append(Literal("100"));
    assert init.elements == [Literal("100")];
    c.Initializer(init.elements);
    assert c.name == "arg" && c.ty == LocalType("Int");
    assert c.initializer == [Append([Literal("100")])];
    r := c.IntoTokens();
    ArgumentTestTokens();
  }

  /** The tokens of each argument, in order, with their footprint. */
  function ArgumentsTokens(args: seq<Argument>): (r: seq<seq<Element<Swift>>>)
    reads args
    ensures |r| == |args|
  {
    seq(|args|, k requires 0 <= k < |args| reads args => args[k].Rendered())
  }

  /** Renders each argument in turn, as the builders that hold arguments do. */
  method RenderArguments(args: seq<Argument>) returns (r: seq<seq<Element<Swift>>>)
    ensures r == ArgumentsTokens(args)
  {
    r := [];
    for i := 0 to |args|
      invariant |r| == i
      invariant forall k :: 0 <= k < i ==> r[k] == args[k].Rendered()
    {
      var t := args[i].IntoTokens();
      r := r + [t];
    }
  }

}
