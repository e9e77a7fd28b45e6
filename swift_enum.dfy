/** A Swift enum declaration builder. */
module SwiftEnum {
  import opened TokenTree
  import opened SwiftPlugin
  import M = SwiftModifiers
  import SwiftField
  import SwiftConstructor
  import SwiftMethod
  import opened SwiftDeclaration

  /** The separator between two variants: a line break of its own. */
  const VariantSeparator: Element<Swift> := Append([PushSpacing])

  /** The variants as the body's first element, joined one per line, when there are any. */
  function VariantsBlock(variants: seq<Element<Swift>>): seq<Element<Swift>>
  {
    if variants == [] then [] else [Append(Joined(variants, VariantSeparator))]
  }

  class Enum {
    /** The `case` lines. */
    var variants: seq<Element<Swift>>
    var modifiers: seq<M.Modifier>
    var fields: seq<SwiftField.Field>
    var constructors: seq<SwiftConstructor.Constructor>
    var methods: seq<SwiftMethod.Method>
    /** Generic parameters. */
    var parameters: seq<Element<Swift>>
    var attributes: seq<Element<Swift>>
    const name: string

    /** A public enum with no variants and no members. */
    constructor (name: string)
      ensures variants == [] && modifiers == [M.Public] && fields == [] && constructors == [] && methods == []
      ensures parameters == [] && attributes == [] && this.name == name
    {
      variants := [];
      modifiers := [M.Public];
      fields := [];
      constructors := [];
      methods := [];
      parameters := [];
      attributes := [];
      this.name := name;
    }

    /** Pushes one more attribute. */
    method Attributes(attribute: seq<Element<Swift>>)
      modifies this`attributes
      ensures attributes == old(attributes) + [Push(attribute)]
    {
      attributes := attributes + [Push(attribute)];
    }

    /** The parts of the signature, before they are joined with spacing; an enum names no supertypes. */
    function Signature(): seq<Element<Swift>>
      reads this
    {
      DeclarationSignature(modifiers, "enum", TypeHead(Literal(name), parameters), [])
    }

    /** The body before joining: the variants block, then the members. */
    function Body(): seq<Element<Swift>>
      reads this, fields, constructors, ConstructorArguments(constructors), methods, MethodArguments(methods)
    {
      VariantsBlock(variants) + Members(fields, constructors, methods)
    }

    /** The enum's tokens. */
    function Rendered(): seq<Element<Swift>>
      reads this, fields, constructors, ConstructorArguments(constructors), methods, MethodArguments(methods)
    {
      Declaration(attributes, Signature(), [Nested(Joined(Body(), LineSpacing))])
    }

    method IntoTokens() returns (r: seq<Element<Swift>>)
      ensures r == old(Rendered())
    {
      ghost var rendered := Rendered();
      var ft, ct, mt := FieldsTokens(fields), ConstructorsTokens(constructors), MethodsTokens(methods);
      var attrs, mods := attributes, modifiers;
      var vs := variants;
      var head := BuildTypeHead(Literal(name), parameters);
      var vb := BuildVariants(vs);
      var runs := PushRuns(ft, ct, mt);
      r := BuildBodyDeclaration(attrs, mods, "enum", head, [], vb + runs);
    }
  }

  /** Joins the variants with the line-break separator and appends them, unless there are none. */
  method BuildVariants(variants: seq<Element<Swift>>) returns (r: seq<Element<Swift>>)
    ensures r == VariantsBlock(variants)
  {
    var body := new Tokens<Swift>();
    if !(variants == []) {
      var joined := Join(variants, VariantSeparator);
      body.Append(Append(joined));
    }
    r := body.elements;
  }

  /**
   * The variants block is there exactly when there are variants; it then holds
   * every variant in order, one separator between each pair.
   */
  lemma VariantsLayout(variants: seq<Element<Swift>>)
    requires NoNone(variants)
    ensures VariantsBlock(variants) == [] <==> variants == []
    ensures variants != [] ==> var b := VariantsBlock(variants);
      && |b| == 1 && b[0].Append?
      && |b[0].tokens| == 2 * |variants| - 1
      && (forall k :: 0 <= k < |variants| ==> b[0].tokens[2 * k] == variants[k])
      && (forall k :: 0 <= k < |variants| - 1 ==> b[0].tokens[2 * k + 1] == Append([PushSpacing]))
  {
    JoinedShape(variants, VariantSeparator);
  }

  /**
   * The enum body: the variants block first, exactly when there are variants,
   * then the pushed fields, initialisers and methods as `PushedRuns` lays them out.
   */
  lemma BodyLayout(variants: seq<Element<Swift>>, ft: seq<seq<Element<Swift>>>, ct: seq<seq<Element<Swift>>>,
                   mt: seq<seq<Element<Swift>>>)
    ensures var vb := VariantsBlock(variants);
      var body := vb + (PushEach(ft) + PushEach(ct) + PushEach(mt));
      var v := |vb|;
      && v == (if variants == [] then 0 else 1)
      && |body| == v + |ft| + |ct| + |mt|
      && body[..v] == vb
      && body[v..] == PushEach(ft) + PushEach(ct) + PushEach(mt)
  {
    var vb := VariantsBlock(variants);
    var runs := PushEach(ft) + PushEach(ct) + PushEach(mt);
    assert (vb + runs)[..|vb|] == vb;
    assert (vb + runs)[|vb|..] == runs;
  }

  /** The two-variant body, joined one per line. */
  lemma TwoVariants(a: string, b: string) returns (body: seq<Element<Swift>>)
    ensures body == [Append([Literal(a), Append([PushSpacing]), Literal(b)])]
    ensures Joined(VariantsBlock([Literal(a), Literal(b)]) + [], LineSpacing) == body
  {
    var x: Element<Swift> := Literal(a);
    var y: Element<Swift> := Literal(b);
    JoinedPair(x, y, VariantSeparator);
    body := [Append([x, VariantSeparator, y])];
    assert VariantsBlock([x, y]) + [] == body;
    JoinedSingle(Append([x, VariantSeparator, y]), LineSpacing);
  }

  /** The signature of `public enum Foo`, joined with spacing. */
  lemma FooSignature()
    ensures Joined(DeclarationSignature([M.Public], "enum", TypeHead(Literal("Foo"), []), []), Spacing)
      == [Literal("public"), Spacing, Literal("enum"), Spacing, Append([Literal("Foo")])]
  {
    M.SingleModifierTokens<Swift>(M.Public);
    var head := TypeHead(Literal("Foo"), []);
    assert head == [Literal("Foo")];
    var sig := DeclarationSignature([M.Public], "enum", head, []);
    assert sig == [Literal("public"), Literal("enum"), Append(head)];
    JoinedThree(Literal("public"), Literal("enum"), Append(head), Spacing);
  }

  /** The tokens of an enum with the two variants of the example and no attributes or members. */
  lemma FooRendered(sig: seq<Element<Swift>>)
    ensures Declaration([], sig, [Nested(Joined(VariantsBlock([Literal("case FOO(int)"), Literal("case BAR")]) + [],
                                                 LineSpacing))])
      == [Push([Append(Joined(sig, Spacing)), Literal(" {")]),
          Nested([Append([Literal("case FOO(int)"), Append([PushSpacing]), Literal("case BAR")])]),
          Push([Literal("}")])]
  {
    var body := TwoVariants("case FOO(int)", "case BAR");
  }

  /** An enum with two variants and no members: one variant per line. */
  method EnumFoo() returns (r: seq<Element<Swift>>)
    ensures r == [Push([Append([Literal("public"), Spacing, Literal("enum"), Spacing, Append([Literal("Foo")])]),
                        Literal(" {")]),
                  Nested([Append([Literal("case FOO(int)"), Append([PushSpacing]), Literal("case BAR")])]),
                  Push([Literal("}")])]
  {
    var sig := DeclarationSignature([M.Public], "enum", TypeHead(Literal("Foo"), []), []);
    FooRendered(sig);
    FooSignature();
    var e := new Enum("Foo");
    e.variants := e.variants + [Literal("case FOO(int)")];
    e.variants := e.variants + [Literal("case BAR")];
    assert e.Signature() == sig;
    assert Members(e.fields, e.constructors, e.methods) == [];
    assert e.variants == [Literal("case FOO(int)"), Literal("case BAR")];
    r := e.IntoTokens();
  }
}
