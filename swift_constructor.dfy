/** Swift initialisers: sorted modifiers, `init(args)`, an optional `throws`, and an always-braced body. */
module SwiftConstructor {
  import opened TokenTree
  import opened SwiftPlugin
  import M = SwiftModifiers
  import opened SwiftArgument
  import opened Macros

  class Constructor {
    var modifiers: seq<M.Modifier>
    var arguments: seq<Argument>
    var body: seq<Element<Swift>>
    var throws: bool

    /** A public initialiser with no arguments and an empty body. */
    constructor ()
      ensures modifiers == [M.Public] && arguments == [] && !throws && body == []
    {
      modifiers := [M.Public];
      arguments := [];
      throws := false;
      body := [];
    }

    /** The parts of the signature, before they are joined with spacing. */
    function Signature(): seq<Element<Swift>>
      reads this, arguments
    {
      ConstructorSignature(M.SortModifiers(modifiers), ArgumentsTokens(arguments), throws)
    }

    /** The initialiser's tokens. */
    function Rendered(): seq<Element<Swift>>
      reads this, arguments
    {
      ConstructorTokens(Signature(), body)
    }

    method IntoTokens() returns (r: seq<Element<Swift>>)
      ensures r == Rendered()
    {
      var args := RenderArguments(arguments);
      var sorted := M.SortedCopy(modifiers);
      var sig := BuildSignature(sorted, args, throws);
      assert sig == Signature();
      r := BuildConstructor(sig, body);
    }
  }

  /** The separator between arguments: a comma and a spacing request. */
  function ArgumentSeparator(): Element<Swift>
  {
    Append([Literal(","), PushSpacing])
  }

  /** `init(` with the nested arguments and `)`, or `init()` when there are none. */
  function InitHead(args: seq<seq<Element<Swift>>>): Element<Swift>
  {
    if args != [] then Append([Literal("init"), Literal("("), Nested(Joined(AppendEach(args), ArgumentSeparator())), Literal(")")])
    else Append([Literal("init"), Literal("()")])
  }

  /** Every modifier in the given order, the `init` head and `throws` when set. */
  function ConstructorSignature(sorted: seq<M.Modifier>, args: seq<seq<Element<Swift>>>, throws: bool): seq<Element<Swift>>
  {
    M.Elements(sorted) + [InitHead(args)] + (if throws then [Literal("throws")] else [])
  }

  function ConstructorTokens(sig: seq<Element<Swift>>, body: seq<Element<Swift>>): seq<Element<Swift>>
  {
    [Push([Append(Joined(sig, Spacing)), Literal(" {")]), Nested(body), Push([Literal("}")])]
  }

  method BuildConstructor(sig: seq<Element<Swift>>, body: seq<Element<Swift>>) returns (r: seq<Element<Swift>>)
    ensures r == ConstructorTokens(sig, body)
  {
    var joined := JoinSpacing(sig);
    var s := new Tokens<Swift>();
    PushToks(s, [Append(joined), Literal(" {")]);
    s.Nested(body);
    s.Push([Literal("}")]);
    r := s.elements;
  }

  method BuildInitHead(args: seq<seq<Element<Swift>>>) returns (head: Element<Swift>)
    ensures head == InitHead(args)
  {
    if !(args == []) {
      var joined := Join(AppendEach(args), ArgumentSeparator());
      var t := Toks([Literal("init"), Literal("("), Nested(joined), Literal(")")]);
      head := Append(t);
    } else {
      var t := Toks([Literal("init"), Literal("()")]);
      head := Append(t);
    }
  }

  method BuildSignature(sorted: seq<M.Modifier>, args: seq<seq<Element<Swift>>>, throws: bool)
    returns (r: seq<Element<Swift>>)
    ensures r == ConstructorSignature(sorted, args, throws)
  {
    var mods := M.Elements<Swift>(sorted);
    var head := BuildInitHead(args);
    var sig := new Tokens<Swift>();
    sig.Extend(mods);
    sig.Append(head);
    assert sig.elements == mods + [head];
    if throws {
      sig.Append(Literal("throws"));
    }
    r := sig.elements;
  }

  /**
   * Without arguments the head is `init()`; with arguments it is `init`,
   * `(`, one nested block holding each argument in order with the comma
   * separator between two of them, and `)`.
   */
  lemma InitHeadShape(args: seq<seq<Element<Swift>>>)
    ensures args == [] <==> InitHead(args) == Append([Literal("init"), Literal("()")])
    ensures args != [] ==>
      var t := InitHead(args).tokens;
      && |t| == 4 && t[0] == Literal("init") && t[1] == Literal("(") && t[3] == Literal(")") && t[2].Nested?
      && |t[2].tokens| == 2 * |args| - 1
      && (forall k :: 0 <= k < |args| ==> t[2].tokens[2 * k] == Append(args[k]))
      && (forall k :: 0 <= k < |args| - 1 ==> t[2].tokens[2 * k + 1] == ArgumentSeparator())
  {
    if args != [] {
      var j := Joined(AppendEach(args), ArgumentSeparator());
      AppendEachJoined(args, ArgumentSeparator());
      assert InitHead(args).tokens == [Literal("init"), Literal("("), Nested(j), Literal(")")];
    }
  }

  /**
   * The signature holds every modifier, repetitions kept, sorted into
   * declaration order, then the `init` head, then `throws` exactly when the
   * initialiser throws.
   */
  lemma ConstructorSignatureShape(modifiers: seq<M.Modifier>, args: seq<seq<Element<Swift>>>, throws: bool)
    ensures var sorted := M.SortModifiers(modifiers);
      var sig := ConstructorSignature(sorted, args, throws);
      var n := |modifiers|;
      && |sig| == n + 1 + (if throws then 1 else 0)
      && M.Sorted(sorted) && multiset(sorted) == multiset(modifiers)
      && (forall k :: 0 <= k < n ==> sig[k] == Literal(M.Name(sorted[k])))
      && sig[n] == InitHead(args)
      && (sig[|sig| - 1] == Literal("throws") <==> throws)
  {
    var sorted := M.SortModifiers(modifiers);
    M.SortModifiersSpec(modifiers);
    assert |sorted| == |modifiers| by {
      assert |multiset(sorted)| == |multiset(modifiers)|;
    }
    var mods := M.Elements<Swift>(sorted);
    M.ElementsPositions<Swift>(sorted);
    var tail := [InitHead(args)] + (if throws then [Literal("throws")] else []);
    assert ConstructorSignature(sorted, args, throws) == mods + tail;
    assert forall k :: 0 <= k < |mods| ==> (mods + tail)[k] == mods[k];
  }

  /** Unlike the modifier tokens of other declarations, an initialiser keeps a repeated modifier. */
  lemma RepeatedModifierKept()
    ensures ConstructorSignature(M.SortModifiers([M.Public, M.Public]), [], false)
         == [Literal("public"), Literal("public"), Append([Literal("init"), Literal("()")])]
    ensures M.ModifierTokens<Swift>([M.Public, M.Public]) == [Literal("public")]
  {
    assert [M.Public, M.Public][..1] == [M.Public];
    assert M.SortModifiers([M.Public]) == [M.Public];
    assert M.Collected([M.Public]) == [M.Public];
  }

  /** The braces are always there: the opening line, the nested body (even when empty) and `}`. */
  lemma ConstructorShape(c: Constructor)
    ensures var r := c.Rendered();
      && |r| == 3
      && r[0] == Push([Append(Joined(c.Signature(), Spacing)), Literal(" {")])
      && r[1] == Nested(c.body)
      && r[2] == Push([Literal("}")])
  {
  }

  /** The test initialiser's signature. */
  lemma DefaultSignature()
    ensures Joined(ConstructorSignature(M.SortModifiers([M.Public]), [], false), Spacing)
         == [Literal("public"), Spacing, Append([Literal("init"), Literal("()")])]
  {
    assert M.SortModifiers([M.Public]) == [M.Public];
    assert ConstructorSignature([M.Public], [], false) == [Literal("public"), Append([Literal("init"), Literal("()")])];
    JoinedPair<Swift>(Literal("public"), Append([Literal("init"), Literal("()")]), Spacing);
  }

  /** The test initialiser's signature with `throws`. */
  lemma ThrowingSignature()
    ensures Joined(ConstructorSignature(M.SortModifiers([M.Public]), [], true), Spacing)
         == [Literal("public"), Spacing, Append([Literal("init"), Literal("()")]), Spacing, Literal("throws")]
  {
    assert M.SortModifiers([M.Public]) == [M.Public];
    assert ConstructorSignature([M.Public], [], true)
        == [Literal("public"), Append([Literal("init"), Literal("()")]), Literal("throws")];
    JoinedThree<Swift>(Literal("public"), Append([Literal("init"), Literal("()")]), Literal("throws"), Spacing);
  }

  /** `public init() {` and `}`. */
  method ConstructorDefault() returns (r: seq<Element<Swift>>)
    ensures r == [Push([Append([Literal("public"), Spacing, Append([Literal("init"), Literal("()")])]), Literal(" {")]),
                  Nested([]), Push([Literal("}")])]
  {
    var c := new Constructor();
    r := c.IntoTokens();
    assert ArgumentsTokens(c.arguments) == [];
    assert c.Signature() == ConstructorSignature(M.SortModifiers([M.Public]), [], false);
    DefaultSignature();
  }

  /** `public init() throws {` and `}`. */
  method ConstructorThrows() returns (r: seq<Element<Swift>>)
    ensures r == [Push([Append([Literal("public"), Spacing, Append([Literal("init"), Literal("()")]), Spacing, Literal("throws")]),
                        Literal(" {")]),
                  Nested([]), Push([Literal("}")])]
  {
    var c := new Constructor();
    c.throws := true;
    r := c.IntoTokens();
    assert ArgumentsTokens(c.arguments) == [];
    assert c.Signature() == ConstructorSignature(M.SortModifiers([M.Public]), [], true);
    ThrowingSignature();
  }
}
