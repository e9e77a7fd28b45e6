/** Swift methods: `func name<params>(args) -> T throws`, then `;` or a braced body. */
module SwiftMethod {
  import opened Wrappers
  import opened TokenTree
  import opened SwiftPlugin
  import M = SwiftModifiers
  import opened SwiftComment
  import opened SwiftArgument
  import opened Macros

  class Method {
    var modifiers: seq<M.Modifier>
    var arguments: seq<Argument>
    var body: seq<Element<Swift>>
    /** The declared return type, if any. */
    var returnType: Option<Swift>
    /** Generic parameters. */
    var parameters: seq<Element<Swift>>
    var comments: seq<string>
    var throws: bool
    var attributes: seq<Element<Swift>>
    var name: string

    /** A public method with nothing declared yet. */
    constructor (name: string)
      ensures modifiers == [M.Public] && arguments == [] && body == [] && returnType == Option.None
      ensures parameters == [] && comments == [] && !throws && attributes == [] && this.name == name
    {
      modifiers := [M.Public];
      arguments := [];
      body := [];
      returnType := Option.None;
      parameters := [];
      comments := [];
      throws := false;
      attributes := [];
      this.name := name;
    }

    /** Pushes one more attribute. */
    method Attribute(attribute: seq<Element<Swift>>)
      modifies this`attributes
      ensures attributes == old(attributes) + [Push(attribute)]
    {
      attributes := attributes + [Push(attribute)];
    }

    method Returns(ty: Swift)
      modifies this`returnType
      ensures returnType == Some(ty)
    {
      returnType := Some(ty);
    }

    /** The parts of the signature, before they are joined with spacing. */
    function Signature(): seq<Element<Swift>>
      reads this, arguments
    {
      MethodSignature(modifiers, MethodHead(name, parameters, ArgumentsTokens(arguments)), returnType, throws)
    }

    /** The method's tokens. */
    function Rendered(): seq<Element<Swift>>
      reads this, arguments
    {
      MethodTokens(comments, attributes, Signature(), body)
    }

    method IntoTokens() returns (r: seq<Element<Swift>>)
      ensures r == Rendered()
    {
      ghost var rendered := Rendered();
      var mods, comments, attributes, body := modifiers, this.comments, this.attributes, this.body;
      var name, parameters, returnType, throws := this.name, this.parameters, this.returnType, this.throws;
      var args := RenderArguments(arguments);
      var head := BuildHead(name, parameters, args);
      r := BuildMethodWithHead(comments, attributes, mods, head, returnType, throws, body);
    }
  }

  /** `func `, the name, `<parameters>` when there are any, and the arguments in parentheses. */
  function MethodHead(name: string, parameters: seq<Element<Swift>>, args: seq<seq<Element<Swift>>>): seq<Element<Swift>>
  {
    [Literal("func "), Literal(name)]
      + (if parameters == [] then [] else [Append(Enclosed("<", parameters, Literal(", "), ">"))])
      + [Append(Enclosed("(", AppendEach(args), Literal(", "), ")"))]
  }

  /** The distinct modifiers, the head, `-> T` unless the return type is absent or `Void`, and `throws` when set. */
  function MethodSignature(modifiers: seq<M.Modifier>, head: seq<Element<Swift>>, returnType: Option<Swift>,
                           throws: bool): seq<Element<Swift>>
  {
    M.ModifierTokens(modifiers) + SignatureTail(head, returnType, throws)
  }

  /** The part of the signature after the modifiers. */
  function SignatureTail(head: seq<Element<Swift>>, returnType: Option<Swift>, throws: bool): seq<Element<Swift>>
  {
    [Append(head)]
      + (if returnType.Some? && returnType.value != VOID then [Literal("->"), Custom(returnType.value)] else [])
      + (if throws then [Literal("throws")] else [])
  }

  /** The comment, the attributes, then the signature closed by `;` or opening the nested body. */
  function MethodTokens(comments: seq<string>, attributes: seq<Element<Swift>>, sig: seq<Element<Swift>>,
                        body: seq<Element<Swift>>): seq<Element<Swift>>
  {
    PushedUnlessEmpty(BlockCommentTokens(comments)) + PushedUnlessEmpty(attributes) + Terminated(Joined(sig, Spacing), body)
  }

  /** The joined signature closed by `;` when there is no body, or opening `{` before the nested body and `}`. */
  function Terminated(line: seq<Element<Swift>>, body: seq<Element<Swift>>): seq<Element<Swift>>
  {
    if body == [] then [Push([Append(line), Literal(";")])]
    else [Push([Append(line), Literal(" {")]), Nested(body), Push([Literal("}")])]
  }

  method BuildHead(name: string, parameters: seq<Element<Swift>>, args: seq<seq<Element<Swift>>>)
    returns (r: seq<Element<Swift>>)
    ensures r == MethodHead(name, parameters, args)
  {
    var n := new Tokens<Swift>();
    n.Append(Literal("func "));
    n.Append(Literal(name));
    assert n.elements == [Literal("func "), Literal(name)];
    if !(parameters == []) {
      var t := ToksEnclosed("<", parameters, Literal(", "), ">");
      n.Append(Append(t));
    }
    assert n.elements == [Literal("func "), Literal(name)]
      + (if parameters == [] then [] else [Append(Enclosed("<", parameters, Literal(", "), ">"))]);
    var t := ToksEnclosed("(", AppendEach(args), Literal(", "), ")");
    n.Append(Append(t));
    r := n.elements;
  }

  /** Builds the signature after the modifiers with one append per part. */
  method BuildSignatureTail(head: seq<Element<Swift>>, returnType: Option<Swift>, throws: bool)
    returns (r: seq<Element<Swift>>)
    ensures r == SignatureTail(head, returnType, throws)
  {
    var sig := new Tokens<Swift>();
    sig.Append(Append(head));
    if returnType.Some? && returnType.value != VOID {
      sig.Append(Literal("->"));
      sig.Append(Custom(returnType.value));
    }
    assert sig.elements == [Append(head)]
      + (if returnType.Some? && returnType.value != VOID then [Literal("->"), Custom(returnType.value)] else []);
    if throws {
      sig.Append(Literal("throws"));
    }
    r := sig.elements;
  }

  method BuildMethod(comments: seq<string>, attributes: seq<Element<Swift>>, sig: seq<Element<Swift>>,
                     body: seq<Element<Swift>>) returns (r: seq<Element<Swift>>)
    ensures r == MethodTokens(comments, attributes, sig, body)
  {
    var comment := BlockComment(comments);
    var joined := JoinSpacing(sig);
    var rest := BuildTerminated(joined, body);
    var s := new Tokens<Swift>();
    s.PushUnlessEmpty(comment);
    s.PushUnlessEmpty(attributes);
    s.Extend(rest);
    r := s.elements;
  }

  /** The method tokens around the given head: the signature is built here, then the whole method. */
  method BuildMethodWithHead(comments: seq<string>, attributes: seq<Element<Swift>>, modifiers: seq<M.Modifier>,
                             head: seq<Element<Swift>>, returnType: Option<Swift>, throws: bool,
                             body: seq<Element<Swift>>) returns (r: seq<Element<Swift>>)
    ensures r == MethodTokens(comments, attributes, MethodSignature(modifiers, head, returnType, throws), body)
  {
    var tail := BuildSignatureTail(head, returnType, throws);
    var sig := M.ModifierTokens<Swift>(modifiers) + tail;
    r := BuildMethod(comments, attributes, sig, body);
  }

  method BuildTerminated(line: seq<Element<Swift>>, body: seq<Element<Swift>>) returns (r: seq<Element<Swift>>)
    ensures r == Terminated(line, body)
  {
    var s := new Tokens<Swift>();
    if body == [] {
      PushToks(s, [Append(line), Literal(";")]);
    } else {
      PushToks(s, [Append(line), Literal(" {")]);
      s.Nested(body);
      s.Push([Literal("}")]);
    }
    r := s.elements;
  }

  /**
   * The head is `func` and the name, then `<parameters>` exactly when there
   * are parameters, then the argument list, always in parentheses, with
   * `, ` between arguments.
   */
  lemma MethodHeadShape(name: string, parameters: seq<Element<Swift>>, args: seq<seq<Element<Swift>>>)
    ensures var r := MethodHead(name, parameters, args);
      && |r| == (if parameters == [] then 3 else 4)
      && r[0] == Literal("func ") && r[1] == Literal(name)
      && (parameters != [] ==> r[2] == Append([Literal("<"), Append(Joined(parameters, Literal(", "))), Literal(">")]))
      && r[|r| - 1] == Append([Literal("("), Append(Joined(AppendEach(args), Literal(", "))), Literal(")")])
  {
  }

  /** Inside the parentheses: each argument's tokens in order, `, ` between two arguments. */
  lemma ArgumentListShape(args: seq<Argument>)
    ensures var r := Joined(AppendEach(ArgumentsTokens(args)), Literal(", "));
      && |r| == (if args == [] then 0 else 2 * |args| - 1)
      && (forall k :: 0 <= k < |args| ==> r[2 * k] == Append(args[k].Rendered()))
      && (forall k :: 0 <= k < |args| - 1 ==> r[2 * k + 1] == Literal(", "))
  {
    AppendEachJoined(ArgumentsTokens(args), Literal(", "));
  }

  /**
   * After the distinct modifiers and the head, `-> T` appears exactly when a
   * return type other than `Void` is declared, and `throws` exactly when the
   * method throws, last.
   */
  lemma MethodSignatureShape(modifiers: seq<M.Modifier>, head: seq<Element<Swift>>, returnType: Option<Swift>, throws: bool)
    ensures var sig := MethodSignature(modifiers, head, returnType, throws);
      var m := |M.ModifierTokens<Swift>(modifiers)|;
      var shown := returnType.Some? && returnType.value != VOID;
      && |sig| == m + 1 + (if shown then 2 else 0) + (if throws then 1 else 0)
      && sig[..m] == M.ModifierTokens(modifiers) && sig[m] == Append(head)
      && (Literal("->") in sig[m + 1..] <==> shown)
      && (shown ==> sig[m + 1] == Literal("->") && sig[m + 2] == Custom(returnType.value))
      && (Literal("throws") in sig[m + 1..] <==> throws)
      && (throws ==> sig[|sig| - 1] == Literal("throws"))
  {
    var mods := M.ModifierTokens<Swift>(modifiers);
    var tail := SignatureTail(head, returnType, throws);
    var sig := mods + tail;
    var m := |mods|;
    assert sig[..m] == mods;
    assert sig[m..] == tail;
    assert sig[m + 1..] == tail[1..];
    TailShape(head, returnType, throws);
  }

  /** The tail alone: the head, then `-> T` exactly when shown, then `throws` exactly when set. */
  lemma TailShape(head: seq<Element<Swift>>, returnType: Option<Swift>, throws: bool)
    ensures var tail := SignatureTail(head, returnType, throws);
      var shown := returnType.Some? && returnType.value != VOID;
      && |tail| == 1 + (if shown then 2 else 0) + (if throws then 1 else 0)
      && tail[0] == Append(head)
      && (Literal("->") in tail[1..] <==> shown)
      && (shown ==> tail[1] == Literal("->") && tail[2] == Custom(returnType.value))
      && (Literal("throws") in tail[1..] <==> throws)
      && (throws ==> tail[|tail| - 1] == Literal("throws"))
  {
    var tail := SignatureTail(head, returnType, throws);
    var shown := returnType.Some? && returnType.value != VOID;
    assert tail[1..] == (if shown then [Literal("->"), Custom(returnType.value)] else []) + (if throws then [Literal("throws")] else []);
  }

  /**
   * The comment and the attributes are pushed only when non-empty; a method
   * without body is its signature closed by `;` with no nested block, and
   * one with a body opens `{`, nests the body and pushes `}`.
   */
  lemma MethodTokensShape(comments: seq<string>, attributes: seq<Element<Swift>>, sig: seq<Element<Swift>>,
                          body: seq<Element<Swift>>)
    ensures var r := MethodTokens(comments, attributes, sig, body);
      var c := if comments == [] then 0 else 1;
      var a := if attributes == [] then 0 else 1;
      && |r| == c + a + (if body == [] then 1 else 3)
      && (comments != [] ==> r[0] == Push(BlockCommentTokens(comments)))
      && (attributes != [] ==> r[c] == Push(attributes))
      && (body == [] ==> r[c + a] == Push([Append(Joined(sig, Spacing)), Literal(";")]))
      && (body != [] ==> r[c + a] == Push([Append(Joined(sig, Spacing)), Literal(" {")])
                          && r[c + a + 1] == Nested(body) && r[c + a + 2] == Push([Literal("}")]))
      && ((exists k :: 0 <= k < |r| && r[k].Nested?) <==> body != [])
  {
    var p := PushedUnlessEmpty(BlockCommentTokens(comments));
    var q := PushedUnlessEmpty(attributes);
    var t := Terminated(Joined(sig, Spacing), body);
    assert BlockCommentTokens(comments) == [] <==> comments == [];
    var c := |p|;
    var a := |q|;
    var r := p + q + t;
    assert r[c + a..] == t;
    assert forall k :: 0 <= k < c + a ==> !r[k].Nested?;
    if body != [] {
      assert r[c + a + 1].Nested?;
    }
  }

  /** The method of the tests: `foo` with the one generic parameter `T`. */
  method BuildFoo() returns (m: Method)
    ensures fresh(m)
    ensures m.modifiers == [M.Public] && m.arguments == [] && m.body == [] && m.returnType == Option.None
    ensures m.parameters == [Literal("T")] && m.comments == [] && !m.throws && m.attributes == [] && m.name == "foo"
  {
    m := new Method("foo");
    m.parameters := m.parameters + [Literal("T")];
  }

  /** The head of the test method: `func foo<T>()`. */
  lemma FooHead()
    ensures MethodHead("foo", [Literal("T")], [])
         == [Literal("func "), Literal("foo"), Append([Literal("<"), Append([Literal("T")]), Literal(">")]),
             Append([Literal("("), Append([]), Literal(")")])]
  {
    JoinedSingle<Swift>(Literal("T"), Literal(", "));
  }

  /** `public func foo<T>();` */
  method MethodNoComments() returns (r: seq<Element<Swift>>)
    ensures r == [Push([Append([Literal("public"), Spacing,
                                Append([Literal("func "), Literal("foo"), Append([Literal("<"), Append([Literal("T")]), Literal(">")]),
                                        Append([Literal("("), Append([]), Literal(")")])])]),
                        Literal(";")])]
  {
    var head := MethodHead("foo", [Literal("T")], []);
    M.SingleModifierTokens<Swift>(M.Public);
    var sig := MethodSignature([M.Public], head, Option.None, false);
    assert sig == [Literal("public"), Append(head)];
    JoinedPair<Swift>(Literal("public"), Append(head), Spacing);
    FooHead();
    var m := BuildFoo();
    assert ArgumentsTokens(m.arguments) == [];
    assert m.Signature() == sig;
    r := m.IntoTokens();
    assert r == Terminated(Joined(sig, Spacing), []);
  }

  /** With the one comment line `Hello World`, the comment is pushed before the signature line. */
  lemma CommentedTokens(head: seq<Element<Swift>>)
    ensures MethodTokens(["Hello World"], [], MethodSignature([M.Public], head, Option.None, false), [])
         == [Push([Push([Literal("/**")]), Push([Literal(" * ")]), Literal("Hello World"),
                   Push([Literal(" */")]), Push([PushSpacing])]),
             Push([Append([Literal("public"), Spacing, Append(head)]), Literal(";")])]
  {
    M.SingleModifierTokens<Swift>(M.Public);
    var sig := MethodSignature([M.Public], head, Option.None, false);
    assert sig == [Literal("public"), Append(head)];
    JoinedPair<Swift>(Literal("public"), Append(head), Spacing);
    BlockCommentSingle("Hello World");
  }

  /** The comment `Hello World` is pushed before `public func foo<T>();`. */
  method MethodWithComments() returns (r: seq<Element<Swift>>)
    ensures r == [Push([Push([Literal("/**")]), Push([Literal(" * ")]), Literal("Hello World"),
                        Push([Literal(" */")]), Push([PushSpacing])]),
                  Push([Append([Literal("public"), Spacing,
                                Append([Literal("func "), Literal("foo"), Append([Literal("<"), Append([Literal("T")]), Literal(">")]),
                                        Append([Literal("("), Append([]), Literal(")")])])]),
                        Literal(";")])]
  {
    var head := MethodHead("foo", [Literal("T")], []);
    CommentedTokens(head);
    FooHead();
    var m := BuildFoo();
    m.comments := m.comments + ["Hello World"];
    assert m.comments == ["Hello World"];
    assert ArgumentsTokens(m.arguments) == [];
    assert m.Signature() == MethodSignature([M.Public], head, Option.None, false);
    r := m.IntoTokens();
  }

  /** The test method's signature with `throws`. */
  lemma ThrowingSignature(head: seq<Element<Swift>>)
    ensures Joined(MethodSignature([M.Public], head, Option.None, true), Spacing)
         == [Literal("public"), Spacing, Append(head), Spacing, Literal("throws")]
  {
    M.SingleModifierTokens<Swift>(M.Public);
    assert MethodSignature([M.Public], head, Option.None, true) == [Literal("public"), Append(head), Literal("throws")];
    JoinedThree<Swift>(Literal("public"), Append(head), Literal("throws"), Spacing);
  }

  /** The test method's signature returning `Int`. */
  lemma ReturningSignature(head: seq<Element<Swift>>)
    ensures Joined(MethodSignature([M.Public], head, Some(LocalType("Int")), false), Spacing)
         == [Literal("public"), Spacing, Append(head), Spacing, Literal("->"), Spacing, Custom(LocalType("Int"))]
  {
    M.SingleModifierTokens<Swift>(M.Public);
    assert MethodSignature([M.Public], head, Some(LocalType("Int")), false)
        == [Literal("public"), Append(head), Literal("->"), Custom(LocalType("Int"))];
    JoinedFour<Swift>(Literal("public"), Append(head), Literal("->"), Custom(LocalType("Int")), Spacing);
  }

  /** `public func foo<T>() throws;` */
  method MethodThrows() returns (r: seq<Element<Swift>>)
    ensures r == [Push([Append([Literal("public"), Spacing,
                                Append([Literal("func "), Literal("foo"), Append([Literal("<"), Append([Literal("T")]), Literal(">")]),
                                        Append([Literal("("), Append([]), Literal(")")])]),
                                Spacing, Literal("throws")]),
                        Literal(";")])]
  {
    var head := MethodHead("foo", [Literal("T")], []);
    var sig := MethodSignature([M.Public], head, Option.None, true);
    ThrowingSignature(head);
    FooHead();
    var m := BuildFoo();
    m.throws := true;
    assert ArgumentsTokens(m.arguments) == [];
    assert m.Signature() == sig;
    r := m.IntoTokens();
    assert r == Terminated(Joined(sig, Spacing), []);
  }

  /** `public func foo<T>() -> Int;` */
  method MethodReturns() returns (r: seq<Element<Swift>>)
    ensures r == [Push([Append([Literal("public"), Spacing,
                                Append([Literal("func "), Literal("foo"), Append([Literal("<"), Append([Literal("T")]), Literal(">")]),
                                        Append([Literal("("), Append([]), Literal(")")])]),
                                Spacing, Literal("->"), Spacing, Custom(LocalType("Int"))]),
                        Literal(";")])]
  {
    var head := MethodHead("foo", [Literal("T")], []);
    var sig := MethodSignature([M.Public], head, Some(LocalType("Int")), false);
    ReturningSignature(head);
    FooHead();
    var m := BuildFoo();
    m.Returns(LocalType("Int"));
    assert ArgumentsTokens(m.arguments) == [];
    assert m.Signature() == sig;
    r := m.IntoTokens();
    assert r == Terminated(Joined(sig, Spacing), []);
  }
}
