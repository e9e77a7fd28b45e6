/** A Swift extension declaration builder. */
module SwiftExtension {
  import opened TokenTree
  import opened SwiftPlugin
  import M = SwiftModifiers
  import SwiftField
  import SwiftConstructor
  import SwiftMethod
  import opened SwiftDeclaration

  class Extension {
    var modifiers: seq<M.Modifier>
    var fields: seq<SwiftField.Field>
    var constructors: seq<SwiftConstructor.Constructor>
    var methods: seq<SwiftMethod.Method>
    /** The protocols the extension adds conformance to. */
    var implements: seq<Swift>
    /** Generic parameters. */
    var parameters: seq<Element<Swift>>
    var attributes: seq<Element<Swift>>
    /** The extended type. */
    const ty: Swift

    /** A public extension of `ty` with no members. */
    constructor (ty: Swift)
      ensures modifiers == [M.Public] && fields == [] && constructors == [] && methods == []
      ensures implements == [] && parameters == [] && attributes == [] && this.ty == ty
    {
      modifiers := [M.Public];
      fields := [];
      constructors := [];
      methods := [];
      implements := [];
      parameters := [];
      attributes := [];
      this.ty := ty;
    }

    /** Pushes one more attribute. */
    method Attributes(attribute: seq<Element<Swift>>)
      modifies this`attributes
      ensures attributes == old(attributes) + [Push(attribute)]
    {
      attributes := attributes + [Push(attribute)];
    }

    /** The parts of the signature, before they are joined with spacing; the head is the extended type itself. */
    function Signature(): seq<Element<Swift>>
      reads this
    {
      DeclarationSignature(modifiers, "extension", TypeHead(Custom(ty), parameters), Supertypes(CustomEach(implements)))
    }

    /** The extension's tokens. */
    function Rendered(): seq<Element<Swift>>
      reads this, fields, constructors, ConstructorArguments(constructors), methods, MethodArguments(methods)
    {
      Declaration(attributes, Signature(), [Nested(Joined(Members(fields, constructors, methods), LineSpacing))])
    }

    method IntoTokens() returns (r: seq<Element<Swift>>)
      ensures r == old(Rendered())
    {
      ghost var rendered := Rendered();
      var ft, ct, mt := FieldsTokens(fields), ConstructorsTokens(constructors), MethodsTokens(methods);
      var attrs, mods := attributes, modifiers;
      var supertypes := BuildSupertypes(CustomEach(implements));
      var head := BuildTypeHead(Custom(ty), parameters);
      var body := PushRuns(ft, ct, mt);
      r := BuildBodyDeclaration(attrs, mods, "extension", head, supertypes, body);
    }
  }

  /**
   * The extension signature: its distinct modifiers in declaration order,
   * `extension`, the extended type as a custom element followed by its
   * parameters, and `:` with the implemented types exactly when there are some.
   */
  lemma SignatureLayout(x: Extension)
    ensures var sig := x.Signature();
      var m := |M.ModifierTokens<Swift>(x.modifiers)|;
      && sig[m] == Literal("extension")
      && sig[m + 1] == Append(TypeHead(Custom(x.ty), x.parameters))
      && sig[m + 1].tokens[0] == Custom(x.ty)
      && (x.implements == [] <==> |sig| == m + 2)
      && (x.implements != [] ==>
            && sig[m + 2] == Literal(":") && sig[m + 3].Append?
            && |sig[m + 3].tokens| == 2 * |x.implements| - 1
            && forall k :: 0 <= k < |x.implements| ==> sig[m + 3].tokens[2 * k] == Custom(x.implements[k]))
  {
    SignatureShape(x.modifiers, "extension", TypeHead(Custom(x.ty), x.parameters), Supertypes(CustomEach(x.implements)));
    ImplementsShape(x.implements);
  }

  /** The extended type with one generic parameter. */
  lemma CustomHead(ty: Swift, parameter: string) returns (head: seq<Element<Swift>>)
    ensures head == TypeHead(Custom(ty), [Literal(parameter)])
    ensures head == [Custom(ty), Literal("<"), Append([Literal(parameter)]), Literal(">")]
  {
    var t: Element<Swift> := Literal(parameter);
    JoinedSingle(t, Literal(", "));
    head := TypeHead(Custom(ty), [t]);
  }

  /** The signature of `public extension Foo<T> : Super`, joined with spacing. */
  lemma FooSignature()
    ensures Joined(DeclarationSignature([M.Public], "extension", TypeHead(Custom(LocalType("Foo")), [Literal("T")]),
                                        Supertypes(CustomEach([LocalType("Super")]))), Spacing)
      == [Literal("public"), Spacing, Literal("extension"), Spacing,
          Append([Custom(LocalType("Foo")), Literal("<"), Append([Literal("T")]), Literal(">")]), Spacing,
          Literal(":"), Spacing, Append([Custom(LocalType("Super"))])]
  {
    var head := CustomHead(LocalType("Foo"), "T");
    var sup := SupertypeOne(LocalType("Super"));
    M.SingleModifierTokens<Swift>(M.Public);
    var sig := DeclarationSignature([M.Public], "extension", head, sup);
    assert sig == [Literal("public"), Literal("extension"), Append(head), Literal(":"), Append([Custom(LocalType("Super"))])];
    JoinedFive(Literal("public"), Literal("extension"), Append(head), Literal(":"), Append([Custom(LocalType("Super"))]), Spacing);
  }

  /** A generic extension of a local type that conforms to one type and has no members. */
  method ExtensionFoo() returns (r: seq<Element<Swift>>)
    ensures r == [Push([Append([Literal("public"), Spacing, Literal("extension"), Spacing,
                                Append([Custom(LocalType("Foo")), Literal("<"), Append([Literal("T")]), Literal(">")]), Spacing,
                                Literal(":"), Spacing, Append([Custom(LocalType("Super"))])]), Literal(" {")]),
                  Nested([]), Push([Literal("}")])]
  {
    var x := new Extension(LocalType("Foo"));
    x.parameters := x.parameters + [Literal("T")];
    x.implements := [LocalType("Super")];
    r := x.IntoTokens();
    assert Members(x.fields, x.constructors, x.methods) == [];
    FooSignature();
    EmptyBody(x.Signature());
  }
}
