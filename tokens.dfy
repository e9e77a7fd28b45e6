/**
 * The token tree: `Element` is one node, `Tokens` the growable container that
 * builders append to, `Join` the separator interleaving, and `WalkCustom`
 * the breadth-first walk that yields every custom item of a tree.
 */
module TokenTree {
  import opened Wrappers

  /**
   * One node of a token tree.  `Push`, `Nested` and `Append` hold a sub-tree
   * (the elements of a `Tokens`); `Rc` and `Borrowed` hold a shared or
   * borrowed element; `Registered` carries a custom item that only takes part
   * in import collection.
   */
  datatype Element<C> =
    | Literal(text: string)
    | Custom(custom: C)
    | Registered(custom: C)
    | Push(tokens: seq<Element<C>>)
    | Nested(tokens: seq<Element<C>>)
    | Append(tokens: seq<Element<C>>)
    | Rc(inner: Element<C>)
    | Borrowed(inner: Element<C>)
    | Spacing
    | PushSpacing
    | LineSpacing
    | None

  /** The elements other than `None`, in their original order. */
  function WithoutNone<C(==)>(es: seq<Element<C>>): (r: seq<Element<C>>)
    ensures |r| <= |es|
  {
    if es == [] then []
    else
      var init, last := es[..|es| - 1], es[|es| - 1];
      assert es == init + [last];
      var r := WithoutNone(init);
      if last == Element.None then r else r + [last]
  }

  lemma WithoutNoneSnoc<C>(es: seq<Element<C>>, x: Element<C>)
    ensures WithoutNone(es + [x]) == if x == Element.None then WithoutNone(es) else WithoutNone(es) + [x]
  {
    assert (es + [x])[..|es|] == es;
  }

  /** One element is dropped per occurrence of `None`. */
  lemma {:induction false} WithoutNoneLength<C>(es: seq<Element<C>>)
    ensures |WithoutNone(es)| + multiset(es)[Element.None] == |es|
  {
    if es != [] {
      var init, last := es[..|es| - 1], es[|es| - 1];
      assert es == init + [last];
      WithoutNoneLength(init);
    }
  }

  /** Without any `None`, nothing is dropped. */
  lemma {:induction false} WithoutNoneKeepsAll<C>(es: seq<Element<C>>)
    ensures (forall i | 0 <= i < |es| :: es[i] != Element.None) ==> WithoutNone(es) == es
  {
    if es != [] {
      var init, last := es[..|es| - 1], es[|es| - 1];
      assert es == init + [last];
      WithoutNoneKeepsAll(init);
    }
  }

  /** Exactly the elements that are not `None` survive. */
  lemma {:induction false} WithoutNoneMembers<C>(es: seq<Element<C>>)
    ensures forall e :: e in WithoutNone(es) <==> e in es && e != Element.None
  {
    if es != [] {
      var init, last := es[..|es| - 1], es[|es| - 1];
      assert es == init + [last];
      WithoutNoneMembers(init);
    }
  }

  /** `sep` placed strictly between consecutive members of `es`. */
  function Interleave<C>(es: seq<Element<C>>, sep: Element<C>): (r: seq<Element<C>>)
    ensures |r| == if es == [] then 0 else 2 * |es| - 1
  {
    if |es| <= 1 then es
    else Interleave(es[..|es| - 1], sep) + [sep, es[|es| - 1]]
  }

  lemma InterleaveSnoc<C>(es: seq<Element<C>>, x: Element<C>, sep: Element<C>)
    requires es != []
    ensures Interleave(es + [x], sep) == Interleave(es, sep) + [sep, x]
  {
    assert (es + [x])[..|es|] == es;
  }

  /** The member at position `i` sits at position `2i`. */
  lemma {:induction false} InterleaveEven<C>(es: seq<Element<C>>, sep: Element<C>, i: nat)
    requires i < |es|
    ensures Interleave(es, sep)[2 * i] == es[i]
    decreases |es|
  {
    if |es| > 1 && i < |es| - 1 {
      var init := es[..|es| - 1];
      assert Interleave(es, sep) == Interleave(init, sep) + [sep, es[|es| - 1]];
      InterleaveEven(init, sep, i);
    }
  }

  /** Every odd position holds the separator. */
  lemma {:induction false} InterleaveOdd<C>(es: seq<Element<C>>, sep: Element<C>, i: nat)
    requires i + 1 < |es|
    ensures Interleave(es, sep)[2 * i + 1] == sep
    decreases |es|
  {
    var init := es[..|es| - 1];
    assert Interleave(es, sep) == Interleave(init, sep) + [sep, es[|es| - 1]];
    if i + 1 < |init| {
      InterleaveOdd(init, sep, i);
    }
  }

  /** Even positions hold the members in order, odd positions the separator. */
  lemma InterleavePositions<C>(es: seq<Element<C>>, sep: Element<C>)
    ensures forall i :: 0 <= i < |es| ==> Interleave(es, sep)[2 * i] == es[i]
    ensures forall i :: 0 <= i < |es| - 1 ==> Interleave(es, sep)[2 * i + 1] == sep
  {
    forall i | 0 <= i < |es| ensures Interleave(es, sep)[2 * i] == es[i] {
      InterleaveEven(es, sep, i);
    }
    forall i | 0 <= i < |es| - 1 ensures Interleave(es, sep)[2 * i + 1] == sep {
      InterleaveOdd(es, sep, i);
    }
  }

  /** What `Tokens::join` builds: the non-`None` elements, with `sep` between each pair. */
  function Joined<C(==)>(tokens: seq<Element<C>>, sep: Element<C>): seq<Element<C>>
  {
    Interleave(WithoutNone(tokens), sep)
  }

  /** The elements hold no `None`, as every sequence built by `Tokens::append` does. */
  predicate NoNone<C(==)>(es: seq<Element<C>>)
  {
    forall i | 0 <= i < |es| :: es[i] != Element.None
  }

  /**
   * Joining elements none of which is `None`: n elements give 0 elements if
   * n is 0 and 2n - 1 otherwise, the originals in order at even positions and
   * the separator at every odd one.
   */
  lemma JoinedShape<C>(es: seq<Element<C>>, sep: Element<C>)
    requires NoNone(es)
    ensures Joined(es, sep) == Interleave(es, sep)
    ensures |Joined(es, sep)| == if es == [] then 0 else 2 * |es| - 1
    ensures forall i :: 0 <= i < |es| ==> Joined(es, sep)[2 * i] == es[i]
    ensures forall i :: 0 <= i < |es| - 1 ==> Joined(es, sep)[2 * i + 1] == sep
  {
    WithoutNoneKeepsAll(es);
    InterleavePositions(es, sep);
  }

  lemma JoinedSingle<C>(a: Element<C>, sep: Element<C>)
    requires a != Element.None
    ensures Joined([a], sep) == [a]
  {
    JoinedShape([a], sep);
  }

  lemma JoinedPair<C>(a: Element<C>, b: Element<C>, sep: Element<C>)
    requires a != Element.None && b != Element.None
    ensures Joined([a, b], sep) == [a, sep, b]
  {
    JoinedShape([a, b], sep);
  }

  /** Joining two non-empty runs puts one separator between them. */
  lemma {:induction false} InterleaveConcat<C>(a: seq<Element<C>>, b: seq<Element<C>>, sep: Element<C>)
    requires a != [] && b != []
    ensures Interleave(a + b, sep) == Interleave(a, sep) + [sep] + Interleave(b, sep)
  {
    if |b| == 1 {
      InterleaveSnoc(a, b[0], sep);
      assert a + b == a + [b[0]];
    } else {
      var init := b[..|b| - 1];
      var last := b[|b| - 1];
      assert b == init + [last];
      assert a + b == (a + init) + [last];
      calc {
        Interleave(a + b, sep);
        { InterleaveSnoc(a + init, last, sep); }
        Interleave(a + init, sep) + [sep, last];
        { InterleaveConcat(a, init, sep); }
        Interleave(a, sep) + [sep] + Interleave(init, sep) + [sep, last];
        { InterleaveSnoc(init, last, sep); }
        Interleave(a, sep) + [sep] + Interleave(b, sep);
      }
    }
  }

  /** Sub-trees converted with `AppendEach` and joined: each sub-tree in order, the separator between. */
  lemma AppendEachJoined<C>(ts: seq<seq<Element<C>>>, sep: Element<C>)
    ensures NoNone(AppendEach(ts))
    ensures var r := Joined(AppendEach(ts), sep);
      && |r| == (if ts == [] then 0 else 2 * |ts| - 1)
      && (forall k :: 0 <= k < |ts| ==> r[2 * k] == Append(ts[k]))
      && (forall k :: 0 <= k < |ts| - 1 ==> r[2 * k + 1] == sep)
  {
    JoinedShape(AppendEach(ts), sep);
  }

  /** Joining three parts none of which is `None`. */
  lemma JoinedThree<C>(a: Element<C>, b: Element<C>, c: Element<C>, sep: Element<C>)
    requires NoNone([a, b, c])
    ensures Joined([a, b, c], sep) == [a, sep, b, sep, c]
  {
    var es := [a, b, c];
    JoinedShape(es, sep);
    var r := Joined(es, sep);
    assert r[0] == es[0] && r[2] == es[1] && r[4] == es[2];
    assert r[1] == sep && r[3] == sep by {
      assert r[2 * 0 + 1] == sep && r[2 * 1 + 1] == sep;
    }
  }

  /** Joining four parts none of which is `None`. */
  lemma JoinedFour<C>(a: Element<C>, b: Element<C>, c: Element<C>, d: Element<C>, sep: Element<C>)
    requires NoNone([a, b, c, d])
    ensures Joined([a, b, c, d], sep) == [a, sep, b, sep, c, sep, d]
  {
    var es := [a, b, c, d];
    JoinedShape(es, sep);
    var r := Joined(es, sep);
    assert r[0] == es[0] && r[2] == es[1] && r[4] == es[2] && r[6] == es[3];
    assert r[1] == sep && r[3] == sep && r[5] == sep by {
      assert r[2 * 0 + 1] == sep && r[2 * 1 + 1] == sep && r[2 * 2 + 1] == sep;
    }
  }

  /** Joining five parts none of which is `None`. */
  lemma JoinedFive<C>(a: Element<C>, b: Element<C>, c: Element<C>, d: Element<C>, e: Element<C>, sep: Element<C>)
    requires NoNone([a, b, c, d, e])
    ensures Joined([a, b, c, d, e], sep) == [a, sep, b, sep, c, sep, d, sep, e]
  {
    var es := [a, b, c, d, e];
    JoinedShape(es, sep);
    var r := Joined(es, sep);
    assert r[0] == es[0] && r[2] == es[1] && r[4] == es[2] && r[6] == es[3] && r[8] == es[4];
    assert r[1] == sep && r[3] == sep && r[5] == sep && r[7] == sep by {
      assert r[2 * 0 + 1] == sep && r[2 * 1 + 1] == sep && r[2 * 2 + 1] == sep && r[2 * 3 + 1] == sep;
    }
  }

  /** Joining seven parts none of which is `None`. */
  lemma JoinedSeven<C>(a: Element<C>, b: Element<C>, c: Element<C>, d: Element<C>, e: Element<C>,
                       f: Element<C>, g: Element<C>, sep: Element<C>)
    requires NoNone([a, b, c, d, e, f, g])
    ensures Joined([a, b, c, d, e, f, g], sep) == [a, sep, b, sep, c, sep, d, sep, e, sep, f, sep, g]
  {
    var es := [a, b, c, d, e, f, g];
    JoinedShape(es, sep);
    var r := Joined(es, sep);
    assert r[0] == es[0] && r[2] == es[1] && r[4] == es[2] && r[6] == es[3] && r[8] == es[4]
      && r[10] == es[5] && r[12] == es[6];
    assert r[1] == sep && r[3] == sep && r[5] == sep && r[7] == sep && r[9] == sep && r[11] == sep by {
      assert r[2 * 0 + 1] == sep && r[2 * 1 + 1] == sep && r[2 * 2 + 1] == sep && r[2 * 3 + 1] == sep
        && r[2 * 4 + 1] == sep && r[2 * 5 + 1] == sep;
    }
  }

  /** `Tokens::join`: keeps the first non-`None` element, then a separator before each next one. */
  method Join<C(==)>(tokens: seq<Element<C>>, sep: Element<C>) returns (out: seq<Element<C>>)
    ensures out == Joined(tokens, sep)
  {
    var i := SkipNone(tokens);
    if i == |tokens| {
      assert tokens[..i] == tokens;
      return [];
    }
    assert tokens[..i + 1] == tokens[..i] + [tokens[i]];
    WithoutNoneSnoc(tokens[..i], tokens[i]);
    out := JoinRest(tokens, sep, i + 1, [tokens[i]]);
  }

  /** The position of the first element that is not `None`, or the length when there is none. */
  method SkipNone<C(==)>(tokens: seq<Element<C>>) returns (i: nat)
    ensures i <= |tokens| && WithoutNone(tokens[..i]) == []
    ensures i < |tokens| ==> tokens[i] != Element.None
  {
    i := 0;
    while i < |tokens| && tokens[i] == Element.None
      invariant i <= |tokens|
      invariant WithoutNone(tokens[..i]) == []
    {
      assert tokens[..i + 1] == tokens[..i] + [tokens[i]];
      WithoutNoneSnoc(tokens[..i], tokens[i]);
      i := i + 1;
    }
  }

  /** Having joined the elements before `from`, at least one of them kept, adds the separator and each next one. */
  method JoinRest<C(==)>(tokens: seq<Element<C>>, sep: Element<C>, from: nat, start: seq<Element<C>>)
    returns (out: seq<Element<C>>)
    requires 0 < from <= |tokens| && WithoutNone(tokens[..from]) != []
    requires start == Interleave(WithoutNone(tokens[..from]), sep)
    ensures out == Joined(tokens, sep)
  {
    out := start;
    for i := from to |tokens|
      invariant WithoutNone(tokens[..i]) != []
      invariant out == Interleave(WithoutNone(tokens[..i]), sep)
    {
      JoinStep(tokens, sep, i);
      if tokens[i] != Element.None {
        out := out + [sep, tokens[i]];
      }
    }
    assert tokens[..|tokens|] == tokens;
  }

  /** One more element joined onto a non-empty join: the separator and the element, or nothing for `None`. */
  lemma JoinStep<C>(tokens: seq<Element<C>>, sep: Element<C>, i: nat)
    requires i < |tokens| && WithoutNone(tokens[..i]) != []
    ensures WithoutNone(tokens[..i + 1]) != []
    ensures Interleave(WithoutNone(tokens[..i + 1]), sep)
      == if tokens[i] == Element.None then Interleave(WithoutNone(tokens[..i]), sep)
         else Interleave(WithoutNone(tokens[..i]), sep) + [sep, tokens[i]]
  {
    var kept := WithoutNone(tokens[..i]);
    assert tokens[..i + 1] == tokens[..i] + [tokens[i]];
    WithoutNoneSnoc(tokens[..i], tokens[i]);
    if tokens[i] != Element.None {
      InterleaveSnoc(kept, tokens[i], sep);
    }
  }

  /** `Tokens::join_spacing`. */
  method JoinSpacing<C(==)>(tokens: seq<Element<C>>) returns (out: seq<Element<C>>)
    ensures out == Joined(tokens, Spacing)
  {
    out := Join(tokens, Spacing);
  }

  /** `Tokens::join_line_spacing`. */
  method JoinLineSpacing<C(==)>(tokens: seq<Element<C>>) returns (out: seq<Element<C>>)
    ensures out == Joined(tokens, LineSpacing)
  {
    out := Join(tokens, LineSpacing);
  }

  /** `IntoTokens for Vec<Tokens>`: each sub-tree becomes one `Append` element, in order. */
  function AppendEach<C>(ts: seq<seq<Element<C>>>): seq<Element<C>>
  {
    seq(|ts|, k requires 0 <= k < |ts| => Append(ts[k]))
  }

  /** What pushing each sub-tree in turn adds: one `Push` element per sub-tree, in order. */
  function PushEach<C>(ts: seq<seq<Element<C>>>): seq<Element<C>>
  {
    seq(|ts|, k requires 0 <= k < |ts| => Push(ts[k]))
  }

  lemma PushEachSnoc<C>(ts: seq<seq<Element<C>>>, t: seq<Element<C>>)
    ensures PushEach(ts + [t]) == PushEach(ts) + [Push(t)]
  {
    assert PushEach(ts + [t])[..|ts|] == PushEach(ts);
  }

  /** What `push_unless_empty` adds: nothing for an empty tree, one `Push` otherwise. */
  function PushedUnlessEmpty<C>(tokens: seq<Element<C>>): (r: seq<Element<C>>)
    ensures |r| == if tokens == [] then 0 else 1
  {
    if tokens == [] then [] else [Push(tokens)]
  }

  /** The growable list of elements that builders write into. */
  class Tokens<C(==)> {
    var elements: seq<Element<C>>

    constructor ()
      ensures elements == []
    {
      elements := [];
    }

    /** Appends one element; a `None` element is dropped. */
    method Append(e: Element<C>)
      modifies this
      ensures elements == if e == Element.None then old(elements) else old(elements) + [e]
    {
      if Element.None != e {
        elements := elements + [e];
      }
    }

    method Push(tokens: seq<Element<C>>)
      modifies this
      ensures elements == old(elements) + [Element.Push(tokens)]
    {
      elements := elements + [Element.Push(tokens)];
    }

    method Nested(tokens: seq<Element<C>>)
      modifies this
      ensures elements == old(elements) + [Element.Nested(tokens)]
    {
      elements := elements + [Element.Nested(tokens)];
    }

    method PushUnlessEmpty(tokens: seq<Element<C>>)
      modifies this
      ensures elements == if tokens == [] then old(elements) else old(elements) + [Element.Push(tokens)]
      ensures elements == old(elements) + PushedUnlessEmpty(tokens)
    {
      if tokens == [] {
        return;
      }
      elements := elements + [Element.Push(tokens)];
    }

    method AppendUnlessEmpty(tokens: seq<Element<C>>)
      modifies this
      ensures elements == if tokens == [] then old(elements) else old(elements) + [Element.Append(tokens)]
    {
      if tokens == [] {
        return;
      }
      elements := elements + [Element.Append(tokens)];
    }

    /**
     * Runs a fallible builder on a fresh, empty container and pushes what it
     * built; on failure the error is returned and nothing is attached.  The
     * builder is its effect on the fresh container: its resulting elements or
     * its error.
     */
    method TryPushInto<E>(builder: seq<Element<C>> -> Result<seq<Element<C>>, E>) returns (r: Result<(), E>)
      modifies this
      ensures builder([]).Ok? ==> r.Ok? && elements == old(elements) + [Element.Push(builder([]).value)]
      ensures builder([]).Err? ==> r == Err(builder([]).error) && elements == old(elements)
    {
      var t := new Tokens<C>();
      var built := builder(t.elements);
      if built.Err? {
        return Err(built.error);
      }
      t.elements := built.value;
      Push(t.elements);
      return Ok(());
    }

    /** As `TryPushInto`, but attaches the built tokens as a nested block. */
    method TryNestedInto<E>(builder: seq<Element<C>> -> Result<seq<Element<C>>, E>) returns (r: Result<(), E>)
      modifies this
      ensures builder([]).Ok? ==> r.Ok? && elements == old(elements) + [Element.Nested(builder([]).value)]
      ensures builder([]).Err? ==> r == Err(builder([]).error) && elements == old(elements)
    {
      var t := new Tokens<C>();
      var built := builder(t.elements);
      if built.Err? {
        return Err(built.error);
      }
      t.elements := built.value;
      Nested(t.elements);
      return Ok(());
    }

    /** Inserts `e` before position `pos`; positions past the end are refused, as `Vec::insert` panics on them. */
    method Insert(pos: nat, e: Element<C>)
      requires pos <= |elements|
      modifies this
      ensures elements == old(elements)[..pos] + [e] + old(elements)[pos..]
    {
      elements := elements[..pos] + [e] + elements[pos..];
    }

    method Extend(es: seq<Element<C>>)
      modifies this
      ensures elements == old(elements) + es
    {
      elements := elements + es;
    }

    /** Attaches a custom item that is collected for imports but not rendered. */
    method Register(custom: C)
      modifies this
      ensures elements == old(elements) + [Registered(custom)]
      ensures multiset(Walk(elements)) == multiset(Walk(old(elements))) + multiset{custom}
    {
      RegisteredIsWalked(elements, custom);
      elements := elements + [Registered(custom)];
    }

    function IsEmpty(): (b: bool)
      reads this
      ensures b <==> |elements| == 0
    {
      elements == []
    }

    method WalkCustom() returns (w: WalkCustom<C>)
      ensures fresh(w) && w.queue == elements
    {
      w := new WalkCustom(elements);
    }
  }

  /** Number of nodes in a tree, the measure that bounds the walk. */
  function Size<C>(e: Element<C>): nat
  {
    match e
    case Push(ts) => 1 + SizeAll(ts)
    case Nested(ts) => 1 + SizeAll(ts)
    case Append(ts) => 1 + SizeAll(ts)
    case Rc(x) => 1 + Size(x)
    case Borrowed(x) => 1 + Size(x)
    case _ => 1
  }

  function SizeAll<C>(es: seq<Element<C>>): nat
  {
    if es == [] then 0 else SizeAll(es[..|es| - 1]) + Size(es[|es| - 1])
  }

  lemma {:induction false} SizeAllConcat<C>(a: seq<Element<C>>, b: seq<Element<C>>)
    ensures SizeAll(a + b) == SizeAll(a) + SizeAll(b)
  {
    if b == [] {
      assert a + b == a;
    } else {
      assert (a + b)[..|a + b| - 1] == a + b[..|b| - 1];
      SizeAllConcat(a, b[..|b| - 1]);
    }
  }

  lemma SizeAllFront<C>(q: seq<Element<C>>)
    requires q != []
    ensures SizeAll(q) == Size(q[0]) + SizeAll(q[1..])
  {
    SizeAllConcat([q[0]], q[1..]);
    assert [q[0]] + q[1..] == q;
    assert [q[0]][..0] == [];
  }

  lemma SizeAllSingle<C>(x: Element<C>)
    ensures SizeAll([x]) == Size(x)
  {
    assert [x][..0] == [];
  }

  /** What visiting an element yields directly: its custom item, if it is one. */
  function Yield<C>(e: Element<C>): seq<C>
  {
    match e
    case Custom(c) => [c]
    case Registered(c) => [c]
    case _ => []
  }

  /** What visiting an element puts at the back of the queue. */
  function Children<C>(e: Element<C>): seq<Element<C>>
  {
    match e
    case Push(ts) => ts
    case Nested(ts) => ts
    case Append(ts) => ts
    case Rc(x) => [x]
    case Borrowed(x) => [x]
    case _ => []
  }

  lemma ChildrenSmaller<C>(e: Element<C>)
    ensures SizeAll(Children(e)) < Size(e)
  {
    if e.Rc? || e.Borrowed? { SizeAllSingle(e.inner); }
  }

  /**
   * The custom items of a queue of elements in the order the walk yields
   * them: elements are taken from the front, their sub-trees and shared
   * elements go to the back, custom and registered items are yielded and
   * everything else is skipped.
   */
  function Walk<C>(queue: seq<Element<C>>): seq<C>
    decreases SizeAll(queue)
  {
    if queue == [] then []
    else
      SizeAllFront(queue);
      ChildrenSmaller(queue[0]);
      SizeAllConcat(queue[1..], Children(queue[0]));
      Yield(queue[0]) + Walk(queue[1..] + Children(queue[0]))
  }

  /** The custom and registered items anywhere in a tree, counted with multiplicity. */
  function Customs<C>(e: Element<C>): multiset<C>
  {
    match e
    case Custom(c) => multiset{c}
    case Registered(c) => multiset{c}
    case Push(ts) => CustomsAll(ts)
    case Nested(ts) => CustomsAll(ts)
    case Append(ts) => CustomsAll(ts)
    case Rc(x) => Customs(x)
    case Borrowed(x) => Customs(x)
    case _ => multiset{}
  }

  function CustomsAll<C>(es: seq<Element<C>>): multiset<C>
  {
    if es == [] then multiset{} else CustomsAll(es[..|es| - 1]) + Customs(es[|es| - 1])
  }

  lemma {:induction false} CustomsAllConcat<C>(a: seq<Element<C>>, b: seq<Element<C>>)
    ensures CustomsAll(a + b) == CustomsAll(a) + CustomsAll(b)
  {
    if b == [] {
      assert a + b == a;
    } else {
      assert (a + b)[..|a + b| - 1] == a + b[..|b| - 1];
      CustomsAllConcat(a, b[..|b| - 1]);
    }
  }

  lemma CustomsAllFront<C>(q: seq<Element<C>>)
    requires q != []
    ensures CustomsAll(q) == Customs(q[0]) + CustomsAll(q[1..])
  {
    CustomsAllConcat([q[0]], q[1..]);
    assert [q[0]] + q[1..] == q;
    assert [q[0]][..0] == [];
  }

  lemma CustomsSplit<C>(e: Element<C>)
    ensures Customs(e) == multiset(Yield(e)) + CustomsAll(Children(e))
  {
    if e.Rc? || e.Borrowed? { assert [e.inner][..0] == []; }
  }

  /** The walk yields every custom item of the tree exactly as often as it occurs, and nothing else. */
  lemma {:induction false} WalkYieldsCustoms<C>(queue: seq<Element<C>>)
    ensures multiset(Walk(queue)) == CustomsAll(queue)
    decreases SizeAll(queue)
  {
    if queue != [] {
      SizeAllFront(queue);
      ChildrenSmaller(queue[0]);
      SizeAllConcat(queue[1..], Children(queue[0]));
      CustomsAllFront(queue);
      CustomsSplit(queue[0]);
      CustomsAllConcat(queue[1..], Children(queue[0]));
      WalkYieldsCustoms(queue[1..] + Children(queue[0]));
    }
  }

  /** A registered item is yielded by the walk although it is never rendered. */
  lemma RegisteredIsWalked<C>(es: seq<Element<C>>, custom: C)
    ensures multiset(Walk(es + [Registered(custom)])) == multiset(Walk(es)) + multiset{custom}
  {
    WalkYieldsCustoms(es + [Registered(custom)]);
    WalkYieldsCustoms(es);
    CustomsAllConcat(es, [Registered(custom)]);
    assert [Registered(custom)][..0] == [];
  }

  /** One step of the walk: the front element is visited and its children queued. */
  lemma WalkStep<C>(queue: seq<Element<C>>)
    requires queue != []
    ensures Walk(queue) == Yield(queue[0]) + Walk(queue[1..] + Children(queue[0]))
    ensures SizeAll(queue[1..] + Children(queue[0])) < SizeAll(queue)
  {
    SizeAllFront(queue);
    ChildrenSmaller(queue[0]);
    SizeAllConcat(queue[1..], Children(queue[0]));
  }

  class WalkCustom<C> {
    var queue: seq<Element<C>>

    constructor (elements: seq<Element<C>>)
      ensures queue == elements
    {
      queue := elements;
    }

    /** The next custom item, or `None` once the tree is exhausted. */
    method Next() returns (r: Option<C>)
      modifies this
      ensures Walk(old(queue)) == (if r.Some? then [r.value] else []) + Walk(queue)
      ensures !r.Some? ==> queue == []
    {
      while queue != []
        invariant Walk(old(queue)) == Walk(queue)
        decreases SizeAll(queue)
      {
        var next := queue[0];
        WalkStep(queue);
        queue := queue[1..];
        match next {
          case Rc(x) =>
            queue := queue + [x];
          case Borrowed(x) =>
            queue := queue + [x];
          case Push(ts) =>
            queue := queue + ts;
          case Nested(ts) =>
            queue := queue + ts;
          case Append(ts) =>
            queue := queue + ts;
          case Custom(c) =>
            assert queue + [] == queue;
            return Some(c);
          case Registered(c) =>
            assert queue + [] == queue;
            return Some(c);
          case _ =>
            assert queue + [] == queue;
        }
      }
      return Option.None;
    }
  }

  /** One step of the walk on a queue written as its front element and the rest. */
  lemma WalkCons<C>(x: Element<C>, rest: seq<Element<C>>)
    ensures Walk([x] + rest) == Yield(x) + Walk(rest + Children(x))
  {
    assert ([x] + rest)[0] == x;
    assert ([x] + rest)[1..] == rest;
  }

  /** The first level of the walk test's tree: the pushed and nested sub-trees go to the back of the queue. */
  lemma WalkExampleTop(l11: Element<int>, l12: Element<int>, bar: Element<int>, nope: Element<int>, n2: Element<int>)
    requires l11.Literal? && l12.Literal? && bar.Literal? && nope.Literal? && n2.Nested?
    ensures Walk([Push([l11, Custom(1), l12]), bar, n2, nope]) == Walk([l11, Custom(1), l12] + n2.tokens)
  {
    var p1 := Push([l11, Custom(1), l12]);
    WalkCons(p1, [bar, n2, nope]);
    assert [bar, n2, nope] + Children(p1) == [bar] + [n2, nope, l11, Custom(1), l12];
    WalkCons(bar, [n2, nope, l11, Custom(1), l12]);
    assert [n2, nope, l11, Custom(1), l12] + Children(bar) == [n2] + [nope, l11, Custom(1), l12];
    WalkCons(n2, [nope, l11, Custom(1), l12]);
    assert [nope, l11, Custom(1), l12] + Children(n2) == [nope] + ([l11, Custom(1), l12] + n2.tokens);
    WalkCons(nope, [l11, Custom(1), l12] + n2.tokens);
    assert [l11, Custom(1), l12] + n2.tokens + Children(nope) == [l11, Custom(1), l12] + n2.tokens;
  }

  /** Literals at the front of the queue are skipped and a custom item is yielded. */
  lemma WalkExampleFront(l11: Element<int>, l12: Element<int>, tail: seq<Element<int>>)
    requires l11.Literal? && l12.Literal?
    ensures Walk([l11, Custom(1), l12] + tail) == [1] + Walk(tail)
  {
    WalkCons(l11, [Custom(1), l12] + tail);
    assert [l11, Custom(1), l12] + tail == [l11] + ([Custom(1), l12] + tail);
    assert [Custom(1), l12] + tail + Children(l11) == [Custom(1)] + ([l12] + tail);
    WalkCons(Custom(1), [l12] + tail);
    assert [l12] + tail + Children(Custom(1)) == [l12] + tail;
    WalkCons(l12, tail);
    assert tail + Children(l12) == tail;
  }

  /** The nested level: its literals are skipped, its custom item yielded, its appended literals skipped last. */
  lemma WalkExampleNested(l21: Element<int>, l22: Element<int>, l31: Element<int>, l32: Element<int>)
    requires l21.Literal? && l22.Literal? && l31.Literal? && l32.Literal?
    ensures Walk([l21, l22, Append([l31, l32]), Custom(2)]) == [2]
  {
    var a3 := Append([l31, l32]);
    WalkCons(l21, [l22, a3, Custom(2)]);
    assert [l22, a3, Custom(2)] + Children(l21) == [l22] + [a3, Custom(2)];
    WalkCons(l22, [a3, Custom(2)]);
    assert [a3, Custom(2)] + Children(l22) == [a3] + [Custom(2)];
    WalkCons(a3, [Custom(2)]);
    assert [Custom(2)] + Children(a3) == [Custom(2)] + [l31, l32];
    WalkCons(Custom(2), [l31, l32]);
    assert [l31, l32] + Children(Custom(2)) == [l31] + [l32];
    WalkCons(l31, [l32]);
    assert [l32] + Children(l31) == [l32] + [];
    WalkCons(l32, []);
    assert [] + Children(l32) == [];
  }

  /** The tree of the walk test: customs nested two levels deep are found, in breadth-first order. */
  lemma WalkExample()
    ensures Walk([
      Push([Literal("1:1"), Custom(1), Literal("1:2")]),
      Literal("bar"),
      Nested([Literal("2:1"), Literal("2:2"), Append([Literal("3:1"), Literal("3:2")]), Custom(2)]),
      Literal("nope")]) == [1, 2]
  {
    var n2: Element<int> := Nested([Literal("2:1"), Literal("2:2"), Append([Literal("3:1"), Literal("3:2")]), Custom(2)]);
    WalkExampleTop(Literal("1:1"), Literal("1:2"), Literal("bar"), Literal("nope"), n2);
    WalkExampleFront(Literal("1:1"), Literal("1:2"), n2.tokens);
    WalkExampleNested(Literal("2:1"), Literal("2:2"), Literal("3:1"), Literal("3:2"));
  }
}
