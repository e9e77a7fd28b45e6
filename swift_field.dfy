/** Swift fields: an optional comment, the `let`/`var` signature and an optional accessor block. */
module SwiftField {
  import opened Wrappers
  import opened TokenTree
  import opened SwiftPlugin
  import M = SwiftModifiers
  import opened SwiftComment

  class Field {
    var modifiers: seq<M.Modifier>
    var comments: seq<string>
    var ty: Swift
    var name: string
    var initializer: Option<seq<Element<Swift>>>
    var mutable: bool
    /** Body of the `get` accessor, when the field has one. */
    var getter: Option<seq<Element<Swift>>>
    /** Body of the `set` accessor, when the field has one. */
    var setter: Option<seq<Element<Swift>>>

    /** A private, immutable field without initializer or accessors. */
    constructor (ty: Swift, name: string)
      ensures modifiers == [M.Private] && comments == []
      ensures this.ty == ty && this.name == name
      ensures initializer == Option.None && !mutable && getter == Option.None && setter == Option.None
    {
      modifiers := [M.Private];
      comments := [];
      this.ty := ty;
      this.name := name;
      initializer := Option.None;
      mutable := false;
      getter := Option.None;
      setter := Option.None;
    }

    /** Replaces the initializer. */
    method Initializer(init: seq<Element<Swift>>)
      modifies this`initializer
      ensures initializer == Some(init)
    {
      initializer := Some(init);
    }

    method Mutable(mutable: bool)
      modifies this`mutable
      ensures this.mutable == mutable
    {
      this.mutable := mutable;
    }

    /** The parts of the declaration, before they are joined with spacing. */
    function Signature(): seq<Element<Swift>>
      reads this
    {
      FieldSignature(modifiers, mutable, name, ty, initializer)
    }

    /** The field's tokens. */
    function Rendered(): seq<Element<Swift>>
      reads this
    {
      PushedUnlessEmpty(BlockCommentTokens(comments)) + [Append(Joined(Signature(), Spacing))] + Accessors(getter, setter)
    }

    method IntoTokens() returns (r: seq<Element<Swift>>)
      ensures r == Rendered()
    {
      var comments, getter, setter := this.comments, this.getter, this.setter;
      var tokens := new Tokens<Swift>();
      var comment := BlockComment(comments);
      tokens.PushUnlessEmpty(comment);
      var decl := BuildDeclarator(mutable, name, ty, initializer);
      var sig := M.ModifierTokens<Swift>(modifiers) + decl;
      var joined := JoinSpacing(sig);
      tokens.Append(Append(joined));
      assert tokens.elements == PushedUnlessEmpty(BlockCommentTokens(comments)) + [Append(Joined(Signature(), Spacing))];

      AppendAccessors(tokens, getter, setter);
      r := tokens.elements;
    }
  }

  /** The modifiers, `var` or `let`, the name, `:`, the type and an optional `= initializer`. */
  function FieldSignature(modifiers: seq<M.Modifier>, mutable: bool, name: string, ty: Swift,
                          initializer: Option<seq<Element<Swift>>>): seq<Element<Swift>>
  {
    M.ModifierTokens(modifiers) + Declarator(mutable, name, ty, initializer)
  }

  /** The part after the modifiers: `var` or `let`, the name, `:`, the type and an optional `= initializer`. */
  function Declarator(mutable: bool, name: string, ty: Swift, initializer: Option<seq<Element<Swift>>>)
    : seq<Element<Swift>>
  {
    [Literal(if mutable then "var" else "let"), Literal(name), Literal(":"), Custom(ty)]
      + (if initializer.Some? then [Literal("="), Append(initializer.value)] else [])
  }

  /**
   * Builds the part of the signature after the modifiers with one append per
   * part; the keyword is chosen by `mutable`.
   */
  method BuildDeclarator(mutable: bool, name: string, ty: Swift,
                         initializer: Option<seq<Element<Swift>>>) returns (r: seq<Element<Swift>>)
    ensures r == Declarator(mutable, name, ty, initializer)
  {
    var sig := new Tokens<Swift>();
    var keyword := if mutable then "var" else "let";
    sig.Append(Literal(keyword));
    sig.Append(Literal(name));
    sig.Append(Literal(":"));
    sig.Append(Custom(ty));
    assert sig.elements == [Literal(keyword), Literal(name), Literal(":"), Custom(ty)];
    if initializer.Some? {
      sig.Append(Literal("="));
      sig.Append(Append(initializer.value));
    }
    r := sig.elements;
  }

  /** The accessor block: present only when a getter or a setter is, holding both in braces. */
  function Accessors(getter: Option<seq<Element<Swift>>>, setter: Option<seq<Element<Swift>>>): seq<Element<Swift>>
  {
    if getter.Some? || setter.Some? then
      [Spacing, Literal("{"), Nested(Accessor("get", getter) + Accessor("set", setter)), Push([Literal("}")])]
    else []
  }

  method AppendAccessors(tokens: Tokens<Swift>, getter: Option<seq<Element<Swift>>>, setter: Option<seq<Element<Swift>>>)
    modifies tokens
    ensures tokens.elements == old(tokens.elements) + Accessors(getter, setter)
  {
    if getter.Some? || setter.Some? {
      tokens.Append(Spacing);
      tokens.Append(Literal("{"));
      var body := new Tokens<Swift>();
      PushAccessor(body, "get", getter);
      PushAccessor(body, "set", setter);
      assert body.elements == Accessor("get", getter) + Accessor("set", setter);
      tokens.Nested(body.elements);
      tokens.Push([Literal("}")]);
    }
  }

  /** Writes one accessor into the accessor block. */
  method PushAccessor(body: Tokens<Swift>, keyword: string, accessor: Option<seq<Element<Swift>>>)
    modifies body
    ensures body.elements == old(body.elements) + Accessor(keyword, accessor)
  {
    if accessor.Some? {
      body.Push([Literal(keyword)]);
      if !(accessor.value == []) {
        body.Append(Spacing);
        body.Append(Literal("{"));
        body.Push(accessor.value);
        body.Push([Literal("}")]);
      }
    }
  }

  /** One accessor: its keyword and, for a non-empty body, the body in braces; nothing when absent. */
  function Accessor(keyword: string, body: Option<seq<Element<Swift>>>): seq<Element<Swift>>
  {
    match body
    case None => []
    case Some(b) =>
      [Push([Literal(keyword)])] + (if b == [] then [] else [Spacing, Literal("{"), Push(b), Push([Literal("}")])])
  }

  /**
   * An accessor is present exactly when its body is, opens with its
   * keyword, and gets braces around its body exactly when the body is
   * non-empty.
   */
  lemma AccessorShape(keyword: string, body: Option<seq<Element<Swift>>>)
    ensures var r := Accessor(keyword, body);
      && (body.None? <==> r == [])
      && (body.Some? ==>
            && r[0] == Push([Literal(keyword)])
            && (body.value == [] <==> |r| == 1)
            && (body.value != [] ==> |r| == 5 && r[2] == Literal("{") && r[3] == Push(body.value) && r[4] == Push([Literal("}")])))
  {
  }

  /** With both accessors present, `get` comes first and `set` follows it. */
  lemma GetBeforeSet(getter: seq<Element<Swift>>, setter: seq<Element<Swift>>)
    ensures var body := Accessor("get", Some(getter)) + Accessor("set", Some(setter));
      var g := |Accessor("get", Some(getter))|;
      && body[0] == Push([Literal("get")])
      && g < |body| && body[g] == Push([Literal("set")])
  {
  }

  /**
   * The signature holds the distinct modifiers, then `var` exactly when the
   * field is mutable and `let` otherwise, the name, `:` and the type, and
   * `= initializer` exactly when an initializer is set.
   */
  lemma SignatureShape(f: Field)
    ensures var sig := f.Signature();
      var m := |M.ModifierTokens<Swift>(f.modifiers)|;
      && sig[..m] == M.ModifierTokens(f.modifiers)
      && |sig| == m + 4 + (if f.initializer.Some? then 2 else 0)
      && (sig[m] == Literal("var") <==> f.mutable)
      && (sig[m] == Literal("let") <==> !f.mutable)
      && sig[m + 1] == Literal(f.name) && sig[m + 2] == Literal(":") && sig[m + 3] == Custom(f.ty)
      && (f.initializer.Some? ==> sig[m + 4] == Literal("=") && sig[m + 5] == Append(f.initializer.value))
  {
  }

  /** No part of a modifier list's tokens is `None`. */
  lemma ModifierTokensNoNone<C>(ms: seq<M.Modifier>)
    ensures NoNone(M.ModifierTokens<C>(ms))
  {
    M.ModifierTokensSpec<C>(ms);
  }

  /** No part of a field signature is `None`. */
  lemma SignatureNoNone(modifiers: seq<M.Modifier>, mutable: bool, name: string, ty: Swift,
                        initializer: Option<seq<Element<Swift>>>)
    ensures NoNone(FieldSignature(modifiers, mutable, name, ty, initializer))
  {
    var mods := M.ModifierTokens<Swift>(modifiers);
    var sig := FieldSignature(modifiers, mutable, name, ty, initializer);
    ModifierTokensNoNone<Swift>(modifiers);
    forall k | 0 <= k < |sig|
      ensures sig[k] != Element.None
    {
      if k < |mods| {
        assert sig[k] == mods[k];
      }
    }
  }

  /** Where the parts of a field land: the optional comment push, the signature line, then the accessor block. */
  lemma Layout(comment: seq<Element<Swift>>, line: Element<Swift>, accessors: seq<Element<Swift>>)
    ensures var r := PushedUnlessEmpty(comment) + [line] + accessors;
      var c := if comment == [] then 0 else 1;
      && |r| == c + 1 + |accessors|
      && (comment != [] ==> r[0] == Push(comment))
      && r[c] == line
      && r[c + 1..] == accessors
  {
    var c := if comment == [] then 0 else 1;
    assert (PushedUnlessEmpty(comment) + [line] + accessors)[c + 1..] == accessors;
  }

  /**
   * The field is the comment block (only for a non-empty comment), the
   * signature joined with spacing, and (only when a getter or a setter is
   * present) a spacing, `{`, the nested accessors and a pushed `}`.
   */
  lemma FieldShape(f: Field)
    ensures var r := f.Rendered();
      var c := if f.comments == [] then 0 else 1;
      var accessors := f.getter.Some? || f.setter.Some?;
      && |r| == c + 1 + (if accessors then 4 else 0)
      && (f.comments != [] ==> r[0] == Push(BlockCommentTokens(f.comments)))
      && r[c] == Append(Interleave(f.Signature(), Spacing))
      && (accessors ==>
            && r[c + 1] == Spacing && r[c + 2] == Literal("{")
            && r[c + 3] == Nested(Accessor("get", f.getter) + Accessor("set", f.setter))
            && r[c + 4] == Push([Literal("}")]))
  {
    var sig := f.Signature();
    SignatureNoNone(f.modifiers, f.mutable, f.name, f.ty, f.initializer);
    WithoutNoneKeepsAll(sig);
    var line := Append(Interleave(sig, Spacing));
    var comment := BlockCommentTokens(f.comments);
    var accessors := Accessors(f.getter, f.setter);
    assert f.Rendered() == PushedUnlessEmpty(comment) + [line] + accessors;
    Layout(comment, line, accessors);
    assert comment == [] <==> f.comments == [];
  }

  /** The signature of the test field `foo : Int`, immutable and without initializer. */
  lemma FooSignature()
    ensures Joined(FieldSignature([M.Private], false, "foo", LocalType("Int"), Option.None), Spacing)
         == [Literal("private"), Spacing, Literal("let"), Spacing, Literal("foo"),
             Spacing, Literal(":"), Spacing, Custom(LocalType("Int"))]
  {
    M.SingleModifierTokens<Swift>(M.Private);
    assert FieldSignature([M.Private], false, "foo", LocalType("Int"), Option.None)
        == [Literal("private"), Literal("let"), Literal("foo"), Literal(":"), Custom(LocalType("Int"))];
    JoinedFive(Literal("private"), Literal("let"), Literal("foo"), Literal(":"), Custom(LocalType("Int")), Spacing);
  }

  /** The signature of the mutable test field with initializer `300`. */
  lemma FooSignatureInitialized()
    ensures Joined(FieldSignature([M.Private], true, "foo", LocalType("Int"), Some([Literal("300")])), Spacing)
         == [Literal("private"), Spacing, Literal("var"), Spacing, Literal("foo"),
             Spacing, Literal(":"), Spacing, Custom(LocalType("Int")),
             Spacing, Literal("="), Spacing, Append([Literal("300")])]
  {
    M.SingleModifierTokens<Swift>(M.Private);
    assert FieldSignature([M.Private], true, "foo", LocalType("Int"), Some([Literal("300")]))
        == [Literal("private"), Literal("var"), Literal("foo"), Literal(":"), Custom(LocalType("Int")),
            Literal("="), Append([Literal("300")])];
    JoinedSeven(Literal("private"), Literal("var"), Literal("foo"), Literal(":"), Custom(LocalType("Int")),
                Literal("="), Append([Literal("300")]), Spacing);
  }

  /** The test field without comments: `private let foo : Int`. */
  method FieldNoComments() returns (r: seq<Element<Swift>>)
    ensures r == [Append([Literal("private"), Spacing, Literal("let"), Spacing, Literal("foo"),
                          Spacing, Literal(":"), Spacing, Custom(LocalType("Int"))])]
  {
    var f := new Field(LocalType("Int"), "foo");
    r := f.IntoTokens();
    FooSignature();
  }

  /** The test field with the comment `Hello World`, which is pushed before the signature. */
  method FieldWithComments() returns (r: seq<Element<Swift>>)
    ensures r == [Push([Push([Literal("/**")]), Push([Literal(" * ")]), Literal("Hello World"),
                        Push([Literal(" */")]), Push([PushSpacing])]),
                  Append([Literal("private"), Spacing, Literal("let"), Spacing, Literal("foo"),
                          Spacing, Literal(":"), Spacing, Custom(LocalType("Int"))])]
  {
    var f := new Field(LocalType("Int"), "foo");
    f.comments := f.comments + ["Hello World"];
    r := f.IntoTokens();
    FooSignature();
    BlockCommentSingle("Hello World");
  }

  /** The mutable test field with initializer `300` and empty accessors: `private var foo : Int = 300 { get set }`. */
  method FieldWithAccessors() returns (r: seq<Element<Swift>>)
    ensures r == [Append([Literal("private"), Spacing, Literal("var"), Spacing, Literal("foo"),
                          Spacing, Literal(":"), Spacing, Custom(LocalType("Int")),
                          Spacing, Literal("="), Spacing, Append([Literal("300")])]),
                  Spacing, Literal("{"), Nested([Push([Literal("get")]), Push([Literal("set")])]), Push([Literal("}")])]
  {
    var f := new Field(LocalType("Int"), "foo");
    f.mutable := true;
    f.Initializer([Literal("300")]);
    f.getter := Some([]);
    f.setter := Some([]);
    assert f.Signature() == FieldSignature([M.Private], true, "foo", LocalType("Int"), Some([Literal("300")]));
    assert Accessor("get", f.getter) == [Push([Literal("get")])];
    assert Accessor("set", f.setter) == [Push([Literal("set")])];
    var g: Element<Swift> := Push([Literal("get")]);
    var t: Element<Swift> := Push([Literal("set")]);
    assert [g] + [t] == [g, t];
    assert Accessors(f.getter, f.setter)
        == [Spacing, Literal("{"), Nested([Push([Literal("get")]), Push([Literal("set")])]), Push([Literal("}")])];
    assert f.comments == [];
    r := f.IntoTokens();
    FooSignatureInitialized();
  }
}
