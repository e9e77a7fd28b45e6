/**
 * The token-building macros as ordinary methods: each starts a fresh
 * container, appends its arguments in order and then pushes or nests the
 * result into the destination.  A block form receives the container the
 * block has filled.
 */
module Macros {
  import opened TokenTree

  /** `toks!(x1, …, xn)`: a fresh container with each argument appended in order. */
  method Toks<C(==)>(xs: seq<Element<C>>) returns (r: seq<Element<C>>)
    ensures r == WithoutNone(xs)
    ensures (forall i | 0 <= i < |xs| :: xs[i] != Element.None) ==> r == xs
  {
    var t := new Tokens<C>();
    var i := 0;
    while i < |xs|
      invariant 0 <= i <= |xs|
      invariant t.elements == WithoutNone(xs[..i])
    {
      assert xs[..i + 1] == xs[..i] + [xs[i]];
      WithoutNoneSnoc(xs[..i], xs[i]);
      t.Append(xs[i]);
      i := i + 1;
    }
    assert xs[..i] == xs;
    WithoutNoneKeepsAll(xs);
    r := t.elements;
  }

  /** The recurring `toks![open, items.join(sep), close]`: the joined items between two delimiters. */
  function Enclosed<C(==)>(open: string, items: seq<Element<C>>, sep: Element<C>, close: string): seq<Element<C>>
  {
    [Literal(open), Append(Joined(items, sep)), Literal(close)]
  }

  method ToksEnclosed<C(==)>(open: string, items: seq<Element<C>>, sep: Element<C>, close: string)
    returns (r: seq<Element<C>>)
    ensures r == Enclosed(open, items, sep, close)
  {
    var joined := Join(items, sep);
    r := Toks([Literal(open), Append(joined), Literal(close)]);
  }

  /** `push!(dest, x1, …, xn)`: exactly one `Push` of the appended arguments. */
  method PushToks<C(==)>(dest: Tokens<C>, xs: seq<Element<C>>)
    modifies dest
    ensures dest.elements == old(dest.elements) + [Push(WithoutNone(xs))]
    ensures (forall i | 0 <= i < |xs| :: xs[i] != Element.None) ==> dest.elements == old(dest.elements) + [Push(xs)]
  {
    var t := Toks(xs);
    dest.Push(t);
  }

  /** `push!(dest, |t| { … })`: pushes whatever the block built in its fresh container `t`. */
  method PushBlock<C(==)>(dest: Tokens<C>, t: Tokens<C>)
    requires t != dest
    modifies dest
    ensures dest.elements == old(dest.elements) + [Push(t.elements)]
  {
    dest.Push(t.elements);
  }

  /** `nested!(dest, x1, …, xn)`: exactly one `Nested` of the appended arguments. */
  method NestedToks<C(==)>(dest: Tokens<C>, xs: seq<Element<C>>)
    modifies dest
    ensures dest.elements == old(dest.elements) + [Nested(WithoutNone(xs))]
    ensures (forall i | 0 <= i < |xs| :: xs[i] != Element.None) ==> dest.elements == old(dest.elements) + [Nested(xs)]
  {
    var t := Toks(xs);
    dest.Nested(t);
  }

  /** `nested!(dest, |t| { … })`: nests whatever the block built in its fresh container `t`. */
  method NestedBlock<C(==)>(dest: Tokens<C>, t: Tokens<C>)
    requires t != dest
    modifies dest
    ensures dest.elements == old(dest.elements) + [Nested(t.elements)]
  {
    dest.Nested(t.elements);
  }

  /** `push_f!(dest, f)`: one element appended to a fresh container, which is pushed. */
  method PushF<C(==)>(dest: Tokens<C>, f: Element<C>)
    modifies dest
    ensures dest.elements == old(dest.elements) + [Push(if f == Element.None then [] else [f])]
  {
    var t := new Tokens<C>();
    t.Append(f);
    assert t.elements == if f == Element.None then [] else [f];
    assert dest.elements == old(dest.elements);
    dest.Push(t.elements);
  }

  /** `nested_f!(dest, f)`: one element appended to a fresh container, which is nested. */
  method NestedF<C(==)>(dest: Tokens<C>, f: Element<C>)
    modifies dest
    ensures dest.elements == old(dest.elements) + [Nested(if f == Element.None then [] else [f])]
  {
    var t := new Tokens<C>();
    t.Append(f);
    assert t.elements == if f == Element.None then [] else [f];
    assert dest.elements == old(dest.elements);
    dest.Nested(t.elements);
  }

  /** The inner block of the macro test: two pushed lines. */
  method BarBody() returns (inner: Tokens<int>)
    ensures fresh(inner)
    ensures inner.elements == [Push([Literal("var v = a + b;")]), Push([Literal("return v;")])]
  {
    inner := new Tokens<int>();
    PushToks(inner, [Literal("var v = a + b;")]);
    PushToks(inner, [Literal("return v;")]);
  }

  /** The outer block of the macro test: a line, the nested inner block and a closing line. */
  method BarFunction() returns (outer: Tokens<int>)
    ensures fresh(outer)
    ensures outer.elements == [
      Push([Literal("function bar(a, b) {")]),
      Nested([Push([Literal("var v = a + b;")]), Push([Literal("return v;")])]),
      Push([Literal("}")])]
  {
    var inner := BarBody();
    outer := new Tokens<int>();
    PushToks(outer, [Literal("function bar(a, b) {")]);
    NestedBlock(outer, inner);
    PushToks(outer, [Literal("}")]);
  }

  /**
   * The macro test: a pushed block holding a line, a nested block of two
   * lines and a closing line, followed by one more pushed line.
   */
  method MacrosExample() returns (r: seq<Element<int>>)
    ensures r == [
      Push([
        Push([Literal("function bar(a, b) {")]),
        Nested([Push([Literal("var v = a + b;")]), Push([Literal("return v;")])]),
        Push([Literal("}")])]),
      Push([Literal("var foo = bar();")])]
  {
    var outer := BarFunction();
    var t := new Tokens<int>();
    PushBlock(t, outer);
    PushToks(t, [Literal("var foo = bar();")]);
    r := t.elements;
  }
}
