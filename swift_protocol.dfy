/** A Swift protocol declaration builder. */
module SwiftProtocol {
  import opened TokenTree
  import opened SwiftPlugin
  import M = SwiftModifiers
  import SwiftField
  import SwiftMethod
  import opened SwiftDeclaration

  /** The members of one kind, each pushed and joined with line spacing. */
  function Block(ts: seq<seq<Element<Swift>>>): seq<Element<Swift>>
  {
    Joined(PushEach(ts), LineSpacing)
  }

  class Protocol {
    var modifiers: seq<M.Modifier>
    var methods: seq<SwiftMethod.Method>
    /** Declared properties. */
    var fields: seq<SwiftField.Field>
    /** The protocols this one refines, as tokens. */
    var extending: seq<Element<Swift>>
    /** Generic parameters. */
    var parameters: seq<Element<Swift>>
    var attributes: seq<Element<Swift>>
    const name: string

    /** A public protocol with no members. */
    constructor (name: string)
      ensures modifiers == [M.Public] && methods == [] && fields == [] && extending == []
      ensures parameters == [] && attributes == [] && this.name == name
    {
      modifiers := [M.Public];
      methods := [];
      fields := [];
      extending := [];
      parameters := [];
      attributes := [];
      this.name := name;
    }

    /** Pushes one more annotation. */
    method Annotation(annotation: seq<Element<Swift>>)
      modifies this`attributes
      ensures attributes == old(attributes) + [Push(annotation)]
    {
      attributes := attributes + [Push(annotation)];
    }

    /** The parts of the signature, before they are joined with spacing. */
    function Signature(): seq<Element<Swift>>
      reads this
    {
      DeclarationSignature(modifiers, "protocol", TypeHead(Literal(name), parameters), Supertypes(extending))
    }

    /** The protocol's tokens: one nested block of methods, then one of properties. */
    function Rendered(): seq<Element<Swift>>
      reads this, methods, MethodArguments(methods), fields
    {
      Declaration(attributes, Signature(),
                  [Nested(Block(MethodsTokens(methods))), Nested(Block(FieldsTokens(fields)))])
    }

    method IntoTokens() returns (r: seq<Element<Swift>>)
      ensures r == old(Rendered())
    {
      ghost var rendered := Rendered();
      var mt, ft := MethodsTokens(methods), FieldsTokens(fields);
      var attrs, mods := attributes, modifiers;
      var supertypes := BuildSupertypes(extending);
      var head := BuildTypeHead(Literal(name), parameters);
      var methodsBlock := BuildBlock(mt);
      var fieldsBlock := BuildBlock(ft);
      r := BuildBlocksDeclaration(attrs, mods, "protocol", head, supertypes, [Nested(methodsBlock), Nested(fieldsBlock)]);
    }
  }

  /** Pushes each member onto a new tree and joins them with line spacing. */
  method BuildBlock(ts: seq<seq<Element<Swift>>>) returns (r: seq<Element<Swift>>)
    ensures r == Block(ts)
  {
    var body := new Tokens<Swift>();
    assert body.elements == [];
    PushAll(body, ts);
    assert body.elements == PushEach(ts);
    r := JoinLineSpacing(body.elements);
  }

  /** A block holds every member pushed, in order, with a line spacing between each pair. */
  lemma BlockLayout(ts: seq<seq<Element<Swift>>>)
    ensures |Block(ts)| == if ts == [] then 0 else 2 * |ts| - 1
    ensures forall k :: 0 <= k < |ts| ==> Block(ts)[2 * k] == Push(ts[k])
    ensures forall k :: 0 <= k < |ts| - 1 ==> Block(ts)[2 * k + 1] == LineSpacing
  {
    JoinedShape(PushEach(ts), LineSpacing);
  }

  /**
   * The protocol signature: its distinct modifiers in declaration order,
   * `protocol`, the name with its parameters, and `:` with the refined
   * protocols exactly when there are some.
   */
  lemma SignatureLayout(p: Protocol)
    requires NoNone(p.extending)
    ensures var sig := p.Signature();
      var m := |M.ModifierTokens<Swift>(p.modifiers)|;
      && sig[m] == Literal("protocol")
      && sig[m + 1] == Append(TypeHead(Literal(p.name), p.parameters))
      && (p.extending == [] <==> |sig| == m + 2)
      && (p.extending != [] ==>
            && sig[m + 2] == Literal(":") && sig[m + 3].Append?
            && |sig[m + 3].tokens| == 2 * |p.extending| - 1
            && forall k :: 0 <= k < |p.extending| ==> sig[m + 3].tokens[2 * k] == p.extending[k])
  {
    SignatureShape(p.modifiers, "protocol", TypeHead(Literal(p.name), p.parameters), Supertypes(p.extending));
    SupertypesShape(p.extending);
  }

  /** A protocol without attributes or members: the opening line, two empty nested blocks and the closing brace. */
  lemma NoMembers(sig: seq<Element<Swift>>)
    ensures Declaration([], sig, [Nested(Block([])), Nested(Block([]))])
      == [Push([Append(Joined(sig, Spacing)), Literal(" {")]), Nested([]), Nested([]), Push([Literal("}")])]
  {
    assert Block([]) == [];
  }

  /** The signature of `public protocol Foo<T> : Super`, joined with spacing. */
  lemma FooSignature()
    ensures Joined(DeclarationSignature([M.Public], "protocol", TypeHead(Literal("Foo"), [Literal("T")]),
                                        Supertypes([Custom(LocalType("Super"))])), Spacing)
      == [Literal("public"), Spacing, Literal("protocol"), Spacing,
          Append([Literal("Foo"), Literal("<"), Append([Literal("T")]), Literal(">")]), Spacing,
          Literal(":"), Spacing, Append([Custom(LocalType("Super"))])]
  {
    var head := GenericHead("Foo", "T");
    var sup := SupertypeOne(LocalType("Super"));
    assert CustomEach([LocalType("Super")]) == [Custom(LocalType("Super"))];
    M.SingleModifierTokens<Swift>(M.Public);
    var sig := DeclarationSignature([M.Public], "protocol", head, sup);
    assert sig == [Literal("public"), Literal("protocol"), Append(head), Literal(":"), Append([Custom(LocalType("Super"))])];
    JoinedFive(Literal("public"), Literal("protocol"), Append(head), Literal(":"), Append([Custom(LocalType("Super"))]), Spacing);
  }

  /** A generic protocol that refines one protocol and has no members: two empty nested blocks. */
  method ProtocolFoo() returns (r: seq<Element<Swift>>)
    ensures r == [Push([Append([Literal("public"), Spacing, Literal("protocol"), Spacing,
                                Append([Literal("Foo"), Literal("<"), Append([Literal("T")]), Literal(">")]), Spacing,
                                Literal(":"), Spacing, Append([Custom(LocalType("Super"))])]), Literal(" {")]),
                  Nested([]), Nested([]), Push([Literal("}")])]
  {
    var p := new Protocol("Foo");
    p.parameters := p.parameters + [Literal("T")];
    p.extending := [Custom(LocalType("Super"))];
    r := p.IntoTokens();
    assert MethodsTokens(p.methods) == [] && FieldsTokens(p.fields) == [];
    FooSignature();
    NoMembers(p.Signature());
  }
}
