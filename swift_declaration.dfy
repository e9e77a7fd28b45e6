/**
 * The skeleton the Swift type declarations (class, struct, enum, extension,
 * protocol) share: the signature `modifiers keyword head : supertypes`, the
 * attributes, an opening line, the body blocks and a closing `}`; and the
 * member list, fields then initialisers then methods, each pushed.
 */
module SwiftDeclaration {
  import opened TokenTree
  import opened SwiftPlugin
  import M = SwiftModifiers
  import opened Macros
  import opened SwiftArgument
  import opened SwiftField
  import opened SwiftConstructor
  import opened SwiftMethod

  /** The declared name or type, then `<`, the parameters joined with `, ` and `>` when there are parameters. */
  function TypeHead(head: Element<Swift>, parameters: seq<Element<Swift>>): seq<Element<Swift>>
    requires head != Element.None
  {
    [head] + (if parameters == [] then [] else Enclosed("<", parameters, Literal(", "), ">"))
  }

  /** `:` and the supertypes joined with `, `, or nothing when there are none. */
  function Supertypes(types: seq<Element<Swift>>): seq<Element<Swift>>
  {
    if types == [] then [] else [Literal(":"), Append(Joined(types, Literal(", ")))]
  }

  /** Each type as a custom element, in order. */
  function CustomEach(types: seq<Swift>): seq<Element<Swift>>
  {
    seq(|types|, k requires 0 <= k < |types| => Custom(types[k]))
  }

  /** The distinct modifiers, the keyword, the head and the supertypes, before they are joined with spacing. */
  function DeclarationSignature(modifiers: seq<M.Modifier>, keyword: string, head: seq<Element<Swift>>,
                                supertypes: seq<Element<Swift>>): seq<Element<Swift>>
  {
    M.ModifierTokens(modifiers) + ([Literal(keyword), Append(head)] + supertypes)
  }

  /** The attributes when there are any, the opening line, the body blocks and the closing `}`. */
  function Declaration(attributes: seq<Element<Swift>>, sig: seq<Element<Swift>>, blocks: seq<Element<Swift>>): seq<Element<Swift>>
  {
    PushedUnlessEmpty(attributes) + [Push([Append(Joined(sig, Spacing)), Literal(" {")])] + blocks + [Push([Literal("}")])]
  }

  /** Each field's tokens, in order. */
  function FieldsTokens(fields: seq<Field>): (r: seq<seq<Element<Swift>>>)
    reads fields
    ensures |r| == |fields|
  {
    seq(|fields|, k requires 0 <= k < |fields| reads fields => fields[k].Rendered())
  }

  /** The arguments of the initialisers, which their tokens read. */
  ghost function ConstructorArguments(cs: seq<Constructor>): set<object>
    reads cs
  {
    set c, a | c in cs && a in c.arguments :: a
  }

  /** Each initialiser's tokens, in order. */
  function ConstructorsTokens(cs: seq<Constructor>): (r: seq<seq<Element<Swift>>>)
    reads cs, ConstructorArguments(cs)
    ensures |r| == |cs|
  {
    seq(|cs|, k requires 0 <= k < |cs| reads cs, ConstructorArguments(cs) =>
      assert forall a :: a in cs[k].arguments ==> a in ConstructorArguments(cs);
      cs[k].Rendered())
  }

  /** The arguments of the methods, which their tokens read. */
  ghost function MethodArguments(ms: seq<Method>): set<object>
    reads ms
  {
    set m, a | m in ms && a in m.arguments :: a
  }

  /** Each method's tokens, in order. */
  function MethodsTokens(ms: seq<Method>): (r: seq<seq<Element<Swift>>>)
    reads ms, MethodArguments(ms)
    ensures |r| == |ms|
  {
    seq(|ms|, k requires 0 <= k < |ms| reads ms, MethodArguments(ms) =>
      assert forall a :: a in ms[k].arguments ==> a in MethodArguments(ms);
      ms[k].Rendered())
  }

  /** The members as the body holds them: every field, then every initialiser, then every method, each pushed. */
  function Members(fields: seq<Field>, cs: seq<Constructor>, ms: seq<Method>): seq<Element<Swift>>
    reads fields, cs, ConstructorArguments(cs), ms, MethodArguments(ms)
  {
    PushEach(FieldsTokens(fields)) + PushEach(ConstructorsTokens(cs)) + PushEach(MethodsTokens(ms))
  }

  /** Two pushed runs laid end to end: no `None`, and each tree pushed at its offset. */
  lemma PushedPair<C>(ft: seq<seq<Element<C>>>, ct: seq<seq<Element<C>>>)
    ensures var body := PushEach(ft) + PushEach(ct);
      && |body| == |ft| + |ct|
      && NoNone(body)
      && (forall k :: 0 <= k < |ft| ==> body[k] == Push(ft[k]))
      && (forall k :: 0 <= k < |ct| ==> body[|ft| + k] == Push(ct[k]))
  {
    var pf, pc := PushEach(ft), PushEach(ct);
    var body := pf + pc;
    forall i | 0 <= i < |body| ensures body[i] != Element.None {
      if i < |pf| { assert body[i] == pf[i]; } else { assert body[i] == pc[i - |pf|]; }
    }
  }

  /** Three pushed runs laid end to end: no `None`, and each tree pushed at its offset. */
  lemma PushedRuns<C>(ft: seq<seq<Element<C>>>, ct: seq<seq<Element<C>>>, mt: seq<seq<Element<C>>>)
    ensures var body := PushEach(ft) + PushEach(ct) + PushEach(mt);
      && |body| == |ft| + |ct| + |mt|
      && NoNone(body)
      && (forall k :: 0 <= k < |ft| ==> body[k] == Push(ft[k]))
      && (forall k :: 0 <= k < |ct| ==> body[|ft| + k] == Push(ct[k]))
      && (forall k :: 0 <= k < |mt| ==> body[|ft| + |ct| + k] == Push(mt[k]))
  {
    PushedPair(ft, ct);
    var pre := PushEach(ft) + PushEach(ct);
    var pm := PushEach(mt);
    var body := pre + pm;
    forall i | 0 <= i < |body| ensures body[i] != Element.None {
      if i < |pre| { assert body[i] == pre[i]; } else { assert body[i] == pm[i - |pre|]; }
    }
    forall k | 0 <= k < |ct| ensures body[|ft| + k] == Push(ct[k]) {
      assert body[|ft| + k] == pre[|ft| + k];
    }
  }

  /** The signature holds the distinct modifiers in declaration order, then the keyword, the head and the supertypes. */
  lemma SignatureShape(modifiers: seq<M.Modifier>, keyword: string, head: seq<Element<Swift>>,
                       supertypes: seq<Element<Swift>>)
    ensures var sig := DeclarationSignature(modifiers, keyword, head, supertypes);
      var mods := M.ModifierTokens<Swift>(modifiers);
      && sig[..|mods|] == mods
      && sig[|mods|] == Literal(keyword)
      && sig[|mods| + 1] == Append(head)
      && sig[|mods| + 2..] == supertypes
  {
  }

  /** A supertype clause is present exactly when there are supertypes, and then lists each of them in order. */
  lemma SupertypesShape(types: seq<Element<Swift>>)
    requires NoNone(types)
    ensures Supertypes(types) == [] <==> types == []
    ensures types != [] ==> var r := Supertypes(types);
      && |r| == 2 && r[0] == Literal(":") && r[1].Append?
      && |r[1].tokens| == 2 * |types| - 1
      && (forall k :: 0 <= k < |types| ==> r[1].tokens[2 * k] == types[k])
      && (forall k :: 0 <= k < |types| - 1 ==> r[1].tokens[2 * k + 1] == Literal(", "))
  {
    JoinedShape(types, Literal(", "));
  }

  /** The implemented types as a supertype clause: present exactly when there are some, each as a custom element. */
  lemma ImplementsShape(types: seq<Swift>)
    ensures Supertypes(CustomEach(types)) == [] <==> types == []
    ensures types != [] ==> var r := Supertypes(CustomEach(types));
      && |r| == 2 && r[0] == Literal(":") && r[1].Append?
      && |r[1].tokens| == 2 * |types| - 1
      && (forall k :: 0 <= k < |types| ==> r[1].tokens[2 * k] == Custom(types[k]))
  {
    SupertypesShape(CustomEach(types));
  }

  /** The attributes come first when present, then the opening line, the body blocks unchanged and the closing brace. */
  lemma DeclarationShape(attributes: seq<Element<Swift>>, sig: seq<Element<Swift>>, blocks: seq<Element<Swift>>)
    ensures var r := Declaration(attributes, sig, blocks);
      var a := if attributes == [] then 0 else 1;
      && |r| == a + |blocks| + 2
      && (attributes != [] ==> r[0] == Push(attributes))
      && r[a] == Push([Append(Joined(sig, Spacing)), Literal(" {")])
      && r[a + 1..|r| - 1] == blocks
      && r[|r| - 1] == Push([Literal("}")])
  {
  }

  /** A name with one generic parameter. */
  lemma GenericHead(name: string, parameter: string) returns (head: seq<Element<Swift>>)
    ensures head == TypeHead(Literal(name), [Literal(parameter)])
    ensures head == [Literal(name), Literal("<"), Append([Literal(parameter)]), Literal(">")]
  {
    var t: Element<Swift> := Literal(parameter);
    JoinedSingle(t, Literal(", "));
    head := TypeHead(Literal(name), [t]);
  }

  /** A supertype clause naming one type. */
  lemma SupertypeOne(ty: Swift) returns (r: seq<Element<Swift>>)
    ensures r == Supertypes(CustomEach([ty]))
    ensures r == [Literal(":"), Append([Custom(ty)])]
  {
    var sup: Element<Swift> := Custom(ty);
    JoinedSingle(sup, Literal(", "));
    assert CustomEach([ty]) == [sup];
    r := Supertypes([sup]);
  }

  /** A declaration without attributes or members: the opening line, an empty nested block and the closing brace. */
  lemma EmptyBody(sig: seq<Element<Swift>>)
    ensures Declaration([], sig, [Nested(Joined([], LineSpacing))])
      == [Push([Append(Joined(sig, Spacing)), Literal(" {")]), Nested([]), Push([Literal("}")])]
  {
    assert Joined<Swift>([], LineSpacing) == [];
  }

  /** Pushes each tree in turn. */
  method PushAll(body: Tokens<Swift>, ts: seq<seq<Element<Swift>>>)
    modifies body
    ensures body.elements == old(body.elements) + PushEach(ts)
  {
    for i := 0 to |ts|
      invariant body.elements == old(body.elements) + PushEach(ts[..i])
    {
      assert ts[..i + 1] == ts[..i] + [ts[i]];
      PushEachSnoc(ts[..i], ts[i]);
      body.Push(ts[i]);
    }
    assert ts[..|ts|] == ts;
  }

  /** Pushes the three runs of member tokens, in order, onto a new tree. */
  method PushRuns(ft: seq<seq<Element<Swift>>>, ct: seq<seq<Element<Swift>>>, mt: seq<seq<Element<Swift>>>)
    returns (r: seq<Element<Swift>>)
    ensures r == PushEach(ft) + PushEach(ct) + PushEach(mt)
  {
    var fields := new Tokens<Swift>();
    PushAll(fields, ft);
    var inits := new Tokens<Swift>();
    PushAll(inits, ct);
    var methods := new Tokens<Swift>();
    PushAll(methods, mt);
    r := fields.elements + inits.elements + methods.elements;
  }

  method BuildTypeHead(head: Element<Swift>, parameters: seq<Element<Swift>>) returns (r: seq<Element<Swift>>)
    requires head != Element.None
    ensures r == TypeHead(head, parameters)
  {
    var t := new Tokens<Swift>();
    t.Append(head);
    if !(parameters == []) {
      var joined := Join(parameters, Literal(", "));
      assert t.elements == [head];
      t.Append(Literal("<"));
      t.Append(Append(joined));
      t.Append(Literal(">"));
    }
    r := t.elements;
  }

  /** The part of the signature after the modifiers: the keyword, the head and the supertypes. */
  method BuildSignatureTail(keyword: string, head: seq<Element<Swift>>, supertypes: seq<Element<Swift>>)
    returns (r: seq<Element<Swift>>)
    ensures r == [Literal(keyword), Append(head)] + supertypes
  {
    var sig := new Tokens<Swift>();
    sig.Append(Literal(keyword));
    sig.Append(Append(head));
    assert sig.elements == [Literal(keyword), Append(head)];
    if !(supertypes == []) {
      sig.Extend(supertypes);
    }
    r := sig.elements;
  }

  /** A declaration whose one body block is the given members joined with line spacing. */
  method BuildBodyDeclaration(attributes: seq<Element<Swift>>, modifiers: seq<M.Modifier>, keyword: string,
                              head: seq<Element<Swift>>, supertypes: seq<Element<Swift>>, members: seq<Element<Swift>>)
    returns (r: seq<Element<Swift>>)
    ensures r == Declaration(attributes, DeclarationSignature(modifiers, keyword, head, supertypes),
                             [Nested(Joined(members, LineSpacing))])
  {
    var joined := JoinLineSpacing(members);
    r := BuildBlocksDeclaration(attributes, modifiers, keyword, head, supertypes, [Nested(joined)]);
  }

  /** A declaration with the given body blocks. */
  method BuildBlocksDeclaration(attributes: seq<Element<Swift>>, modifiers: seq<M.Modifier>, keyword: string,
                                head: seq<Element<Swift>>, supertypes: seq<Element<Swift>>, blocks: seq<Element<Swift>>)
    returns (r: seq<Element<Swift>>)
    ensures r == Declaration(attributes, DeclarationSignature(modifiers, keyword, head, supertypes), blocks)
  {
    var tail := BuildSignatureTail(keyword, head, supertypes);
    var sig := M.ModifierTokens<Swift>(modifiers) + tail;
    r := BuildDeclaration(attributes, sig, blocks);
  }

  /** The supertype clause as the declarations append it: `:` and the joined list, when the list is not empty. */
  method BuildSupertypes(types: seq<Element<Swift>>) returns (r: seq<Element<Swift>>)
    ensures r == Supertypes(types)
  {
    if types == [] {
      return [];
    }
    var joined := Join(types, Literal(", "));
    r := [Literal(":"), Append(joined)];
  }

  method BuildDeclaration(attributes: seq<Element<Swift>>, sig: seq<Element<Swift>>, blocks: seq<Element<Swift>>)
    returns (r: seq<Element<Swift>>)
    ensures r == Declaration(attributes, sig, blocks)
  {
    var s := new Tokens<Swift>();
    if !(attributes == []) {
      s.Push(attributes);
    }
    var joined := JoinSpacing(sig);
    PushToks(s, [Append(joined), Literal(" {")]);
    s.Extend(blocks);
    s.Push([Literal("}")]);
    r := s.elements;
  }
}
