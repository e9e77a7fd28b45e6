/**
 * The Java interface declaration builder: its annotations, the signature line
 * `modifiers interface Name extends ...`, the methods and any extra body, one
 * per line, and the closing brace.
 */
module JavaInterface {
  import opened Wrappers
  import opened TokenTree
  import opened JavaPlugin

  /**
   * The signature elements, which are appended without spacing between them:
   * the modifiers and a space when there are modifiers, `interface ` and the
   * name, and `extends ` with the extended types when some are given.
   */
  function Signature(modifiers: seq<Element<Java>>, name: string, extending: Option<seq<Element<Java>>>)
    : seq<Element<Java>>
  {
    (if modifiers == [] then [] else [Append(modifiers), Literal(" ")])
    + [Literal("interface "), Literal(name)]
    + (match extending case Some(e) => [Literal("extends "), Append(e)] case None => [])
  }

  /** The body before joining: every method pushed, in order, then the extra body. */
  function Body(methods: seq<seq<Element<Java>>>, body: seq<Element<Java>>): seq<Element<Java>>
  {
    PushEach(methods) + body
  }

  /** The interface's tokens. */
  function Interface(annotations: seq<Element<Java>>, sig: seq<Element<Java>>, methods: seq<seq<Element<Java>>>,
                     body: seq<Element<Java>>): seq<Element<Java>>
  {
    PushedUnlessEmpty(annotations)
    + [Push([Append(sig), Literal(" {")]), Nested(Joined(Body(methods, body), LineSpacing)), Push([Literal("}")])]
  }

  class InterfaceBuilder {
    var modifiers: seq<Element<Java>>
    /** The methods, each as its tokens. */
    var methods: seq<seq<Element<Java>>>
    /** Extra body, added after the methods. */
    var body: seq<Element<Java>>
    /** What the interface extends. */
    var extending: Option<seq<Element<Java>>>
    var annotations: seq<Element<Java>>
    const name: string

    /** A public interface with no methods, no body and nothing extended. */
    constructor (name: string)
      ensures modifiers == [Literal("public")] && methods == [] && body == [] && extending == Option.None
      ensures annotations == [] && this.name == name
    {
      modifiers := [Literal("public")];
      methods := [];
      body := [];
      extending := Option.None;
      annotations := [];
      this.name := name;
    }

    /** Pushes one more annotation. */
    method Annotation(annotation: seq<Element<Java>>)
      modifies this`annotations
      ensures annotations == old(annotations) + [Push(annotation)]
    {
      annotations := annotations + [Push(annotation)];
    }

    function Rendered(): seq<Element<Java>>
      reads this
    {
      Interface(annotations, Signature(modifiers, name, extending), methods, body)
    }

    method IntoTokens() returns (r: seq<Element<Java>>)
      ensures r == old(Rendered())
    {
      var sig := BuildSignature(modifiers, name, extending);
      var b := BuildBody(methods, body);
      var s := new Tokens<Java>();
      s.PushUnlessEmpty(annotations);
      s.Push([Append(sig), Literal(" {")]);
      s.Nested(b);
      s.Push([Literal("}")]);
      r := s.elements;
    }
  }

  method BuildSignature(modifiers: seq<Element<Java>>, name: string, extending: Option<seq<Element<Java>>>)
    returns (r: seq<Element<Java>>)
    ensures r == Signature(modifiers, name, extending)
  {
    var sig := new Tokens<Java>();
    if !(modifiers == []) {
      sig.Append(Append(modifiers));
      sig.Append(Literal(" "));
    }
    ghost var prefix := if modifiers == [] then [] else [Append(modifiers), Literal(" ")];
    assert sig.elements == prefix;
    sig.Append(Literal("interface "));
    sig.Append(Literal(name));
    assert sig.elements == prefix + [Literal("interface "), Literal(name)];
    if extending.Some? {
      sig.Append(Literal("extends "));
      sig.Append(Append(extending.value));
    }
    r := sig.elements;
  }

  /** Pushes every method, extends with the extra body and joins with line spacing. */
  method BuildBody(methods: seq<seq<Element<Java>>>, extra: seq<Element<Java>>) returns (r: seq<Element<Java>>)
    ensures r == Joined(Body(methods, extra), LineSpacing)
  {
    var body := new Tokens<Java>();
    for i := 0 to |methods|
      invariant body.elements == PushEach(methods[..i])
    {
      assert methods[..i + 1] == methods[..i] + [methods[i]];
      PushEachSnoc(methods[..i], methods[i]);
      body.Push(methods[i]);
    }
    assert methods[..|methods|] == methods;
    body.Extend(extra);
    r := JoinLineSpacing(body.elements);
  }

  /**
   * The signature starts with `interface ` exactly when there are no modifiers,
   * and ends with the name exactly when nothing is extended; otherwise it ends
   * with `extends ` and the extended types.
   */
  lemma SignatureLayout(modifiers: seq<Element<Java>>, name: string, extending: Option<seq<Element<Java>>>)
    ensures var sig := Signature(modifiers, name, extending);
      var m := if modifiers == [] then 0 else 2;
      && (modifiers != [] ==> sig[0] == Append(modifiers) && sig[1] == Literal(" "))
      && sig[m] == Literal("interface ") && sig[m + 1] == Literal(name)
      && (extending.None? <==> |sig| == m + 2)
      && (extending.Some? ==> |sig| == m + 4 && sig[m + 2] == Literal("extends ") && sig[m + 3] == Append(extending.value))
  {
  }

  /**
   * The joined body: with an extra body free of `None`, every method pushed at
   * an even position in order, then the extra elements, a line spacing between
   * each pair.
   */
  lemma BodyLayout(methods: seq<seq<Element<Java>>>, extra: seq<Element<Java>>)
    requires NoNone(extra)
    ensures var j := Joined(Body(methods, extra), LineSpacing);
      var n := |methods| + |extra|;
      && |j| == (if n == 0 then 0 else 2 * n - 1)
      && (forall k :: 0 <= k < |methods| ==> j[2 * k] == Push(methods[k]))
      && (forall k :: 0 <= k < |extra| ==> j[2 * (|methods| + k)] == extra[k])
      && (forall k :: 0 <= k < n - 1 ==> j[2 * k + 1] == LineSpacing)
  {
    var b := Body(methods, extra);
    BodyParts(methods, extra);
    JoinedShape(b, LineSpacing);
    InterleavePositions(b, LineSpacing);
    forall k | 0 <= k < |extra| ensures Joined(b, LineSpacing)[2 * (|methods| + k)] == extra[k] {
      assert b[|methods| + k] == extra[k];
    }
  }

  /** The body holds no `None`, the methods pushed first, then the extra elements. */
  lemma BodyParts(methods: seq<seq<Element<Java>>>, extra: seq<Element<Java>>)
    requires NoNone(extra)
    ensures var b := Body(methods, extra);
      && NoNone(b) && |b| == |methods| + |extra|
      && (forall k :: 0 <= k < |extra| ==> b[|methods| + k] == extra[k])
  {
    var b := Body(methods, extra);
    forall i | 0 <= i < |b| ensures b[i] != Element.None {
      if i >= |methods| { assert b[i] == extra[i - |methods|]; }
    }
  }

  /** The annotations come first when present, then the signature line, the nested body and the closing brace. */
  lemma InterfaceLayout(annotations: seq<Element<Java>>, sig: seq<Element<Java>>, methods: seq<seq<Element<Java>>>,
                        body: seq<Element<Java>>)
    ensures var r := Interface(annotations, sig, methods, body);
      var a := if annotations == [] then 0 else 1;
      && |r| == a + 3
      && (annotations != [] ==> r[0] == Push(annotations))
      && r[a] == Push([Append(sig), Literal(" {")])
      && r[a + 1] == Nested(Joined(Body(methods, body), LineSpacing))
      && r[a + 2] == Push([Literal("}")])
  {
  }

  /** A new interface `Foo`: `public interface Foo {` and `}` around an empty block. */
  method InterfaceFoo() returns (r: seq<Element<Java>>)
    ensures r == [Push([Append([Append([Literal("public")]), Literal(" "), Literal("interface "), Literal("Foo")]),
                        Literal(" {")]),
                  Nested([]), Push([Literal("}")])]
  {
    var i := new InterfaceBuilder("Foo");
    r := i.IntoTokens();
    assert Signature([Literal("public")], "Foo", Option.None)
      == [Append([Literal("public")]), Literal(" "), Literal("interface "), Literal("Foo")];
    assert Body([], []) == [];
    assert Joined<Java>([], LineSpacing) == [];
  }

  /** The text of the inline elements: literals, and appended trees in place. */
  function InlineText(es: seq<Element<Java>>): string
  {
    if es == [] then ""
    else
      (match es[0]
         case Literal(s) => s
         case Append(ts) => InlineText(ts)
         case _ => "")
      + InlineText(es[1..])
  }

  lemma {:induction false} InlineTextConcat(a: seq<Element<Java>>, b: seq<Element<Java>>)
    ensures InlineText(a + b) == InlineText(a) + InlineText(b)
    decreases |a|
  {
    if a != [] {
      assert (a + b)[0] == a[0];
      assert (a + b)[1..] == a[1..] + b;
      InlineTextConcat(a[1..], b);
    } else {
      assert a + b == b;
    }
  }

  /** A literal followed by appended tokens reads as the literal, then their text. */
  lemma InlineTextPair(word: string, ts: seq<Element<Java>>)
    ensures InlineText([Literal(word), Append(ts)]) == word + InlineText(ts)
  {
    var single: seq<Element<Java>> := [Append(ts)];
    var pair: seq<Element<Java>> := [Literal(word), Append(ts)];
    assert single[1..] == [];
    assert InlineText(single) == InlineText(ts) + InlineText(single[1..]);
    assert InlineText(single) == InlineText(ts);
    assert pair[1..] == single;
  }

  /**
   * As written, `extends ` follows the name directly: the extended signature's
   * text is the plain signature's text, `extends ` and the extended types, with
   * no space after the name.
   */
  lemma ExtendsFollowsName(modifiers: seq<Element<Java>>, name: string, ext: seq<Element<Java>>)
    ensures InlineText(Signature(modifiers, name, Some(ext)))
      == InlineText(Signature(modifiers, name, Option.None)) + "extends " + InlineText(ext)
  {
    var plain := Signature(modifiers, name, Option.None);
    var tail: seq<Element<Java>> := [Literal("extends "), Append(ext)];
    assert Signature(modifiers, name, Some(ext)) == plain + tail;
    InlineTextConcat(plain, tail);
    InlineTextPair("extends ", ext);
  }

  /** The interface `Foo` extending `Bar`, without modifiers, reads `interface Fooextends Bar`. */
  lemma ExtendsUnspaced()
    ensures InlineText(Signature([], "Foo", Some([Literal("Bar")]))) == "interface Fooextends Bar"
  {
    ExtendsFollowsName([], "Foo", [Literal("Bar")]);
    var plain: seq<Element<Java>> := [Literal("interface "), Literal("Foo")];
    assert Signature([], "Foo", Option.None) == plain;
    assert InlineText(plain[1..]) == "Foo";
    assert InlineText(plain) == "interface Foo";
    assert InlineText([Element<Java>.Literal("Bar")]) == "Bar";
  }

  /** The signature with a space before `extends`. */
  function SignatureCorrected(modifiers: seq<Element<Java>>, name: string, extending: Option<seq<Element<Java>>>)
    : seq<Element<Java>>
  {
    (if modifiers == [] then [] else [Append(modifiers), Literal(" ")])
    + [Literal("interface "), Literal(name)]
    + (match extending case Some(e) => [Literal(" extends "), Append(e)] case None => [])
  }

  /**
   * With the space, the name and `extends` are separate words: the extended
   * signature's text is the plain one's, ` extends ` and the extended types.
   */
  lemma ExtendsSpaced(modifiers: seq<Element<Java>>, name: string, ext: seq<Element<Java>>)
    ensures SignatureCorrected(modifiers, name, Option.None) == Signature(modifiers, name, Option.None)
    ensures InlineText(SignatureCorrected(modifiers, name, Some(ext)))
      == InlineText(Signature(modifiers, name, Option.None)) + " extends " + InlineText(ext)
  {
    var plain := SignatureCorrected(modifiers, name, Option.None);
    var tail: seq<Element<Java>> := [Literal(" extends "), Append(ext)];
    assert SignatureCorrected(modifiers, name, Some(ext)) == plain + tail;
    InlineTextConcat(plain, tail);
    InlineTextPair(" extends ", ext);
  }
}
