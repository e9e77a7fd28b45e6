/** A Swift struct declaration builder. */
module SwiftStruct {
  import opened TokenTree
  import opened SwiftPlugin
  import M = SwiftModifiers
  import SwiftField
  import SwiftConstructor
  import SwiftMethod
  import opened SwiftDeclaration

  class Struct {
    var modifiers: seq<M.Modifier>
    var fields: seq<SwiftField.Field>
    var constructors: seq<SwiftConstructor.Constructor>
    var methods: seq<SwiftMethod.Method>
    /** Generic parameters. */
    var parameters: seq<Element<Swift>>
    var attributes: seq<Element<Swift>>
    const name: string

    /** A public struct with no members. */
    constructor (name: string)
      ensures modifiers == [M.Public] && fields == [] && constructors == [] && methods == []
      ensures parameters == [] && attributes == [] && this.name == name
    {
      modifiers := [M.Public];
      fields := [];
      constructors := [];
      methods := [];
      parameters := [];
      attributes := [];
      this.name := name;
    }

    /** Pushes one more attribute. */
    method Attributes(attribute: seq<Element<Swift>>)
      modifies this`attributes
      ensures attributes == old(attributes) + [Push(attribute)]
    {
      attributes := attributes + [Push(attribute)];
    }

    /** The parts of the signature, before they are joined with spacing; a struct names no supertypes. */
    function Signature(): seq<Element<Swift>>
      reads this
    {
      DeclarationSignature(modifiers, "struct", TypeHead(Literal(name), parameters), [])
    }

    /** The struct's tokens. */
    function Rendered(): seq<Element<Swift>>
      reads this, fields, constructors, ConstructorArguments(constructors), methods, MethodArguments(methods)
    {
      Declaration(attributes, Signature(), [Nested(Joined(Members(fields, constructors, methods), LineSpacing))])
    }

    method IntoTokens() returns (r: seq<Element<Swift>>)
      ensures r == old(Rendered())
    {
      ghost var rendered := Rendered();
      var ft, ct, mt := FieldsTokens(fields), ConstructorsTokens(constructors), MethodsTokens(methods);
      var attrs, mods := attributes, modifiers;
      var head := BuildTypeHead(Literal(name), parameters);
      var body := PushRuns(ft, ct, mt);
      r := BuildBodyDeclaration(attrs, mods, "struct", head, [], body);
    }
  }

  /**
   * The struct signature: its distinct modifiers in declaration order, `struct`
   * and the name with its parameters, and nothing after them.
   */
  lemma SignatureLayout(s: Struct)
    ensures var sig := s.Signature();
      var m := |M.ModifierTokens<Swift>(s.modifiers)|;
      && |sig| == m + 2
      && sig[..m] == M.ModifierTokens(s.modifiers)
      && sig[m] == Literal("struct")
      && sig[m + 1] == Append(TypeHead(Literal(s.name), s.parameters))
  {
    SignatureShape(s.modifiers, "struct", TypeHead(Literal(s.name), s.parameters), []);
  }

  /** The signature of `public struct Foo<T>`, joined with spacing. */
  lemma FooSignature()
    ensures Joined(DeclarationSignature([M.Public], "struct", TypeHead(Literal("Foo"), [Literal("T")]), []), Spacing)
      == [Literal("public"), Spacing, Literal("struct"), Spacing,
          Append([Literal("Foo"), Literal("<"), Append([Literal("T")]), Literal(">")])]
  {
    var head := GenericHead("Foo", "T");
    M.SingleModifierTokens<Swift>(M.Public);
    var sig := DeclarationSignature([M.Public], "struct", head, []);
    assert sig == [Literal("public"), Literal("struct"), Append(head)];
    JoinedThree(Literal("public"), Literal("struct"), Append(head), Spacing);
  }

  /** A generic struct with no members. */
  method StructFoo() returns (r: seq<Element<Swift>>)
    ensures r == [Push([Append([Literal("public"), Spacing, Literal("struct"), Spacing,
                                Append([Literal("Foo"), Literal("<"), Append([Literal("T")]), Literal(">")])]),
                        Literal(" {")]),
                  Nested([]), Push([Literal("}")])]
  {
    var s := new Struct("Foo");
    s.parameters := s.parameters + [Literal("T")];
    r := s.IntoTokens();
    assert Members(s.fields, s.constructors, s.methods) == [];
    FooSignature();
    EmptyBody(s.Signature());
  }
}
