/** A Swift class declaration builder. */
module SwiftClass {
  import opened TokenTree
  import opened SwiftPlugin
  import M = SwiftModifiers
  import SwiftField
  import SwiftConstructor
  import SwiftMethod
  import opened SwiftDeclaration

  class Class {
    var modifiers: seq<M.Modifier>
    var fields: seq<SwiftField.Field>
    var constructors: seq<SwiftConstructor.Constructor>
    var methods: seq<SwiftMethod.Method>
    /** The types the class inherits from or conforms to. */
    var implements: seq<Swift>
    /** Generic parameters. */
    var parameters: seq<Element<Swift>>
    var attributes: seq<Element<Swift>>
    const name: string

    /** A public class with no members. */
    constructor (name: string)
      ensures modifiers == [M.Public] && fields == [] && constructors == [] && methods == []
      ensures implements == [] && parameters == [] && attributes == [] && this.name == name
    {
      modifiers := [M.Public];
      fields := [];
      constructors := [];
      methods := [];
      implements := [];
      parameters := [];
      attributes := [];
      this.name := name;
    }

    /** Pushes one more attribute. */
    method Attributes(attribute: seq<Element<Swift>>)
      modifies this`attributes
      ensures attributes == old(attributes) + [Push(attribute)]
    {
      attributes := attributes + [Push(attribute)];
    }

    /** The parts of the signature, before they are joined with spacing. */
    function Signature(): seq<Element<Swift>>
      reads this
    {
      DeclarationSignature(modifiers, "class", TypeHead(Literal(name), parameters), Supertypes(CustomEach(implements)))
    }

    /** The class's tokens. */
    function Rendered(): seq<Element<Swift>>
      reads this, fields, constructors, ConstructorArguments(constructors), methods, MethodArguments(methods)
    {
      Declaration(attributes, Signature(), [Nested(Joined(Members(fields, constructors, methods), LineSpacing))])
    }

    method IntoTokens() returns (r: seq<Element<Swift>>)
      ensures r == old(Rendered())
    {
      ghost var rendered := Rendered();
      var ft, ct, mt := FieldsTokens(fields), ConstructorsTokens(constructors), MethodsTokens(methods);
      var attrs, mods := attributes, modifiers;
      var supertypes := BuildSupertypes(CustomEach(implements));
      var head := BuildTypeHead(Literal(name), parameters);
      var body := PushRuns(ft, ct, mt);
      r := BuildBodyDeclaration(attrs, mods, "class", head, supertypes, body);
    }
  }

  /**
   * The class signature: its distinct modifiers in declaration order, `class`,
   * the name with its parameters, and `:` with the implemented types exactly
   * when there are some.
   */
  lemma SignatureLayout(c: Class)
    ensures var sig := c.Signature();
      var m := |M.ModifierTokens<Swift>(c.modifiers)|;
      && sig[m] == Literal("class")
      && sig[m + 1] == Append(TypeHead(Literal(c.name), c.parameters))
      && (c.implements == [] <==> |sig| == m + 2)
      && (c.implements != [] ==>
            && sig[m + 2] == Literal(":") && sig[m + 3].Append?
            && |sig[m + 3].tokens| == 2 * |c.implements| - 1
            && forall k :: 0 <= k < |c.implements| ==> sig[m + 3].tokens[2 * k] == Custom(c.implements[k]))
  {
    SignatureShape(c.modifiers, "class", TypeHead(Literal(c.name), c.parameters), Supertypes(CustomEach(c.implements)));
    ImplementsShape(c.implements);
  }

  /** The signature of `public class Foo<T> : Super`, joined with spacing. */
  lemma FooSignature()
    ensures Joined(DeclarationSignature([M.Public], "class", TypeHead(Literal("Foo"), [Literal("T")]),
                                        Supertypes(CustomEach([LocalType("Super")]))), Spacing)
      == [Literal("public"), Spacing, Literal("class"), Spacing,
          Append([Literal("Foo"), Literal("<"), Append([Literal("T")]), Literal(">")]), Spacing,
          Literal(":"), Spacing, Append([Custom(LocalType("Super"))])]
  {
    var head := GenericHead("Foo", "T");
    var sup := SupertypeOne(LocalType("Super"));
    M.SingleModifierTokens<Swift>(M.Public);
    var sig := DeclarationSignature([M.Public], "class", head, sup);
    assert sig == [Literal("public"), Literal("class"), Append(head), Literal(":"), Append([Custom(LocalType("Super"))])];
    JoinedFive(Literal("public"), Literal("class"), Append(head), Literal(":"), Append([Custom(LocalType("Super"))]), Spacing);
  }

  /** A generic class that implements one type and has no members. */
  method ClassFoo() returns (r: seq<Element<Swift>>)
    ensures r == [Push([Append([Literal("public"), Spacing, Literal("class"), Spacing,
                                Append([Literal("Foo"), Literal("<"), Append([Literal("T")]), Literal(">")]), Spacing,
                                Literal(":"), Spacing, Append([Custom(LocalType("Super"))])]), Literal(" {")]),
                  Nested([]), Push([Literal("}")])]
  {
    var c := new Class("Foo");
    c.parameters := c.parameters + [Literal("T")];
    c.implements := [LocalType("Super")];
    r := c.IntoTokens();
    assert Members(c.fields, c.constructors, c.methods) == [];
    FooSignature();
    EmptyBody(c.Signature());
  }
}
