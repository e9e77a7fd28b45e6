/**
 * The Swift block comment: `/**`, one ` * ` line per comment line, ` */`,
 * then a spacing request, or nothing at all for an empty comment.
 */
module SwiftComment {
  import opened TokenTree
  import opened SwiftPlugin

  /** The ` * `-prefixed lines, in input order. */
  function CommentLines(lines: seq<string>): seq<Element<Swift>>
  {
    if lines == [] then []
    else CommentLines(lines[..|lines| - 1]) + [Push([Literal(" * ")]), Literal(lines[|lines| - 1])]
  }

  /** The tokens of a block comment over the given lines. */
  function BlockCommentTokens(lines: seq<string>): seq<Element<Swift>>
  {
    if lines == [] then []
    else [Push([Literal("/**")])] + CommentLines(lines) + [Push([Literal(" */")]), Push([PushSpacing])]
  }

  /** Builds the comment the way `into_tokens` does: an early return, then pushes and appends in a loop. */
  method BlockComment(lines: seq<string>) returns (r: seq<Element<Swift>>)
    ensures r == BlockCommentTokens(lines)
  {
    var t := new Tokens<Swift>();
    if lines == [] {
      return t.elements;
    }
    t.Push([Literal("/**")]);
    for i := 0 to |lines|
      invariant t.elements == [Push([Literal("/**")])] + CommentLines(lines[..i])
    {
      assert lines[..i + 1][..i] == lines[..i];
      t.Push([Literal(" * ")]);
      t.Append(Literal(lines[i]));
    }
    assert lines[..|lines|] == lines;
    t.Push([Literal(" */")]);
    t.Push([PushSpacing]);
    r := t.elements;
  }

  lemma {:induction false} CommentLinesShape(lines: seq<string>)
    ensures |CommentLines(lines)| == 2 * |lines|
    ensures forall k :: 0 <= k < |lines| ==>
      CommentLines(lines)[2 * k] == Push([Literal(" * ")]) && CommentLines(lines)[2 * k + 1] == Literal(lines[k])
  {
    if lines != [] {
      var init := lines[..|lines| - 1];
      CommentLinesShape(init);
      forall k | 0 <= k < |init|
        ensures init[k] == lines[k]
      {
      }
    }
  }

  /**
   * An empty comment produces nothing; n lines produce 2n+3 elements: the
   * opening push, each line after its ` * ` push in order, the closing push
   * and the spacing push.
   */
  lemma BlockCommentShape(lines: seq<string>)
    ensures lines == [] ==> BlockCommentTokens(lines) == []
    ensures lines != [] ==>
      var r := BlockCommentTokens(lines);
      var n := |lines|;
      && |r| == 2 * n + 3
      && r[0] == Push([Literal("/**")])
      && (forall k :: 0 <= k < n ==> r[2 * k + 1] == Push([Literal(" * ")]) && r[2 * k + 2] == Literal(lines[k]))
      && r[2 * n + 1] == Push([Literal(" */")])
      && r[2 * n + 2] == Push([PushSpacing])
  {
    CommentLinesShape(lines);
  }

  /** A one-line comment. */
  lemma BlockCommentSingle(line: string)
    ensures BlockCommentTokens([line])
         == [Push([Literal("/**")]), Push([Literal(" * ")]), Literal(line), Push([Literal(" */")]), Push([PushSpacing])]
  {
    assert [line][..0] == [];
    assert CommentLines([line]) == [Push([Literal(" * ")]), Literal(line)];
  }
}
