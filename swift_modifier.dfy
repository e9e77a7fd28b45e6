/**
 * Swift declaration modifiers: their keywords, their declaration order and
 * the conversion of a modifier list into tokens, which drops repetitions
 * and orders the modifiers as the enum declares them.
 */
module SwiftModifiers {
  import opened OrderedSets
  import opened TokenTree

  datatype Modifier =
    | Open
    | Public
    | Internal
    | FilePrivate
    | Private
    | Static
    | Final
    | Class
    | Mutating
    | Throws
    | Convenience
    | Override
    | Required

  /** The position of a modifier in the declaration, which is the order the enum derives. */
  function Rank(m: Modifier): nat
  {
    match m
    case Open => 0
    case Public => 1
    case Internal => 2
    case FilePrivate => 3
    case Private => 4
    case Static => 5
    case Final => 6
    case Class => 7
    case Mutating => 8
    case Throws => 9
    case Convenience => 10
    case Override => 11
    case Required => 12
  }

  predicate ModifierLess(a: Modifier, b: Modifier)
  {
    Rank(a) < Rank(b)
  }

  /** The derived order is a strict total order: no two modifiers share a rank. */
  lemma ModifierLessOrder()
    ensures StrictTotalOrder(ModifierLess)
  {
    forall a: Modifier, b: Modifier ensures a == b || ModifierLess(a, b) || ModifierLess(b, a) {
      RankInjective(a, b);
    }
  }

  lemma RankInjective(a: Modifier, b: Modifier)
    ensures Rank(a) == Rank(b) ==> a == b
  {
  }

  /** The Swift keyword of a modifier. */
  function Name(m: Modifier): (r: string)
    ensures r != [] && forall k :: 0 <= k < |r| ==> 'a' <= r[k] <= 'z'
  {
    match m
    case Open => "open"
    case Public => "public"
    case Internal => "internal"
    case FilePrivate => "fileprivate"
    case Private => "private"
    case Static => "static"
    case Final => "final"
    case Class => "class"
    case Mutating => "mutating"
    case Throws => "throws"
    case Convenience => "convenience"
    case Override => "override"
    case Required => "required"
  }

  /** Distinct modifiers have distinct keywords. */
  lemma NamesDistinct(a: Modifier, b: Modifier)
    ensures Name(a) == Name(b) ==> a == b
  {
    if Name(a) == Name(b) {
      assert |Name(a)| == |Name(b)| && Name(a)[0] == Name(b)[0] && Name(a)[|Name(a)| - 1] == Name(b)[|Name(b)| - 1];
    }
  }

  /** The element a modifier converts to: the literal of its keyword. */
  function ModifierElement<C>(m: Modifier): Element<C>
  {
    Literal(Name(m))
  }

  /** Each modifier of a list converted to its element, in order. */
  function Elements<C>(ms: seq<Modifier>): (r: seq<Element<C>>)
    ensures |r| == |ms|
  {
    if ms == [] then [] else Elements(ms[..|ms| - 1]) + [ModifierElement(ms[|ms| - 1])]
  }

  /** Position `k` of the converted list is the literal of the `k`th modifier's keyword. */
  lemma {:induction false} ElementsAt<C>(ms: seq<Modifier>, k: nat)
    requires k < |ms|
    ensures Elements<C>(ms)[k] == Literal(Name(ms[k]))
    decreases |ms|
  {
    if k < |ms| - 1 {
      ElementsAt<C>(ms[..|ms| - 1], k);
    }
  }

  /** Every position of the converted list holds the literal of the modifier there. */
  lemma ElementsPositions<C>(ms: seq<Modifier>)
    ensures forall k :: 0 <= k < |ms| ==> Elements<C>(ms)[k] == Literal(Name(ms[k]))
  {
    forall k | 0 <= k < |ms| ensures Elements<C>(ms)[k] == Literal(Name(ms[k])) {
      ElementsAt<C>(ms, k);
    }
  }

  /** The `BTreeSet` a modifier list is collected into, as its ascending sequence of members. */
  function Collected(ms: seq<Modifier>): seq<Modifier>
  {
    if ms == [] then [] else Inserted(Collected(ms[..|ms| - 1]), ms[|ms| - 1], ModifierLess)
  }

  lemma {:induction false} CollectedSpec(ms: seq<Modifier>)
    ensures Increasing(Collected(ms), ModifierLess)
    ensures forall m :: m in Collected(ms) <==> m in ms
  {
    if ms != [] {
      var init := ms[..|ms| - 1];
      CollectedSpec(init);
      ModifierLessOrder();
      InsertIncreasing(Collected(init), ms[|ms| - 1], ModifierLess);
      InsertMembers(Collected(init), ms[|ms| - 1], ModifierLess);
      assert ms == init + [ms[|ms| - 1]];
    }
  }

  /** `IntoTokens for Vec<Modifier>`: the distinct modifiers in declaration order, each as its keyword. */
  function ModifierTokens<C>(ms: seq<Modifier>): seq<Element<C>>
  {
    Elements(Collected(ms))
  }

  /**
   * The tokens of a modifier list: one keyword per distinct modifier, no
   * more, ordered by declaration, each the literal of its keyword.
   */
  lemma ModifierTokensSpec<C>(ms: seq<Modifier>)
    ensures var r: seq<Element<C>> := ModifierTokens(ms);
      var c := Collected(ms);
      && |r| == |c| == |set m | m in ms|
      && (forall m :: m in c <==> m in ms)
      && (forall i, j :: 0 <= i < j < |c| ==> Rank(c[i]) < Rank(c[j]))
      && (forall k :: 0 <= k < |r| ==> r[k] == Literal(Name(c[k])))
  {
    var c := Collected(ms);
    CollectedSpec(ms);
    ElementsPositions<C>(c);
    forall i, j | 0 <= i < j < |c| ensures c[i] != c[j] {
      assert ModifierLess(c[i], c[j]);
    }
    DistinctCardinality(c);
    assert (set m | m in c) == (set m | m in ms);
  }

  /** Every modifier in declaration order. */
  const ALL: seq<Modifier> := [Open, Public, Internal, FilePrivate, Private, Static, Final, Class, Mutating, Throws, Convenience, Override, Required]

  lemma AllModifiers(m: Modifier)
    ensures m in ALL
  {
    assert ALL[Rank(m)] == m;
  }

  lemma AllIncreasing()
    ensures Increasing(ALL, ModifierLess)
  {
    assert forall i :: 0 <= i < |ALL| ==> Rank(ALL[i]) == i;
  }

  /** The members of `xs` that occur in `ms`, in the order of `xs`. */
  function Keep(xs: seq<Modifier>, ms: seq<Modifier>): (r: seq<Modifier>)
    ensures forall m :: m in r <==> m in xs && m in ms
  {
    if xs == [] then [] else (if xs[0] in ms then [xs[0]] else []) + Keep(xs[1..], ms)
  }

  lemma {:induction false} KeepIncreasing(xs: seq<Modifier>, ms: seq<Modifier>)
    requires Increasing(xs, ModifierLess)
    ensures Increasing(Keep(xs, ms), ModifierLess)
  {
    if xs != [] {
      KeepIncreasing(xs[1..], ms);
      var r := Keep(xs, ms);
      var t := Keep(xs[1..], ms);
      forall i, j | 0 <= i < j < |r| ensures ModifierLess(r[i], r[j]) {
        if xs[0] in ms && i == 0 {
          assert r[j] == t[j - 1] && r[j] in xs[1..];
        }
      }
    }
  }

  /**
   * The collected modifiers are exactly the declaration-ordered list with
   * the modifiers that do not occur removed: an independent statement of
   * what the `BTreeSet` iteration yields.
   */
  lemma CollectedIsDeclarationOrder(ms: seq<Modifier>)
    ensures Collected(ms) == Keep(ALL, ms)
  {
    CollectedSpec(ms);
    AllIncreasing();
    KeepIncreasing(ALL, ms);
    ModifierLessOrder();
    forall m ensures m in Keep(ALL, ms) <==> m in Collected(ms) {
      AllModifiers(m);
    }
    IncreasingUnique(Collected(ms), Keep(ALL, ms), ModifierLess);
  }

  /** The modifier test: `public`, `static` and `final` joined with spaces. */
  lemma ModifiersExample<C>()
    ensures Joined(Elements<C>([Public, Static, Final]), Spacing)
      == [Literal("public"), Spacing, Literal("static"), Spacing, Literal("final")]
  {
    ElementsPositions<C>([Public, Static, Final]);
    JoinedShape(Elements<C>([Public, Static, Final]), Spacing);
  }

  /** Out of order and repeated, the same modifiers come out once each, in declaration order. */
  lemma CollectedExample()
    ensures Collected([Final, Static, Public, Static]) == [Public, Static, Final]
  {
    var ms := [Final, Static, Public, Static];
    assert ms[..3][..2] == ms[..2] && ms[..2][..1] == ms[..1] && ms[..1][..0] == [];
    assert Collected(ms[..1]) == [Final];
    assert Collected(ms[..2]) == Inserted([Final], Static, ModifierLess) == [Static, Final];
    assert Collected(ms[..3]) == Inserted([Static, Final], Public, ModifierLess) == [Public, Static, Final];
    assert ms[..4] == ms && ms[..4][..3] == ms[..3];
    assert Inserted([Static, Final], Static, ModifierLess) == [Static, Final];
    assert Collected(ms) == Inserted([Public, Static, Final], Static, ModifierLess);
  }

  /** A sorted list with one more modifier, placed before the first one ranked above it. */
  function InsertSorted(x: Modifier, s: seq<Modifier>): (r: seq<Modifier>)
    ensures multiset(r) == multiset(s) + multiset{x}
    ensures |r| == |s| + 1
  {
    if s == [] || Rank(x) <= Rank(s[0]) then [x] + s
    else
      assert s == [s[0]] + s[1..];
      [s[0]] + InsertSorted(x, s[1..])
  }

  predicate Sorted(s: seq<Modifier>)
  {
    forall i, j :: 0 <= i < j < |s| ==> Rank(s[i]) <= Rank(s[j])
  }

  lemma {:induction false} InsertSortedSorted(x: Modifier, s: seq<Modifier>)
    requires Sorted(s)
    ensures Sorted(InsertSorted(x, s))
  {
    if !(s == [] || Rank(x) <= Rank(s[0])) {
      SortedTail(s);
      InsertSortedSorted(x, s[1..]);
      var t := InsertSorted(x, s[1..]);
      forall k | 0 <= k < |t| ensures Rank(s[0]) <= Rank(t[k]) {
        RankedAboveHead(x, s, t[k]);
      }
      SortedCons(s[0], t);
    }
  }

  /** What is inserted into the tail of a sorted list, or already there, ranks no lower than its head. */
  lemma RankedAboveHead(x: Modifier, s: seq<Modifier>, y: Modifier)
    requires Sorted(s) && s != [] && Rank(s[0]) < Rank(x)
    requires y in multiset(InsertSorted(x, s[1..]))
    ensures Rank(s[0]) <= Rank(y)
  {
    if y != x {
      assert y in s[1..];
    }
  }

  /** A modifier ranked no higher than every element of a sorted list can go in front of it. */
  lemma SortedCons(h: Modifier, t: seq<Modifier>)
    requires Sorted(t)
    requires forall k :: 0 <= k < |t| ==> Rank(h) <= Rank(t[k])
    ensures Sorted([h] + t)
  {
    var r := [h] + t;
    forall i, j | 0 <= i < j < |r| ensures Rank(r[i]) <= Rank(r[j]) {
      assert r[j] == t[j - 1];
      if i > 0 {
        assert r[i] == t[i - 1];
      }
    }
  }

  /** `Vec<Modifier>::sort`: the modifiers in declaration order, repetitions kept. */
  function SortModifiers(ms: seq<Modifier>): seq<Modifier>
  {
    if ms == [] then [] else InsertSorted(ms[|ms| - 1], SortModifiers(ms[..|ms| - 1]))
  }

  /** Sorting orders the modifiers and keeps every one of them, repetitions included. */
  lemma {:induction false} SortModifiersSpec(ms: seq<Modifier>)
    ensures Sorted(SortModifiers(ms))
    ensures multiset(SortModifiers(ms)) == multiset(ms)
    ensures |SortModifiers(ms)| == |ms|
  {
    if ms != [] {
      var init, x := ms[..|ms| - 1], ms[|ms| - 1];
      SortModifiersSpec(init);
      InsertSortedSorted(x, SortModifiers(init));
      assert ms == init + [x];
      assert multiset(ms) == multiset(init) + multiset{x};
    }
  }

  /** The head of a sorted list ranks no higher than any member. */
  lemma SortedHeadLeast(s: seq<Modifier>, x: Modifier)
    requires Sorted(s) && x in multiset(s)
    ensures Rank(s[0]) <= Rank(x)
  {
    var i :| 0 <= i < |s| && s[i] == x;
  }

  /** Two sorted arrangements of the same modifiers are the same sequence. */
  lemma {:induction false} SortedUnique(a: seq<Modifier>, b: seq<Modifier>)
    requires Sorted(a) && Sorted(b) && multiset(a) == multiset(b)
    ensures a == b
  {
    if a == [] {
      assert |multiset(b)| == 0;
    } else {
      assert b != [] by {
        assert a[0] in multiset(b);
      }
      SortedHeadLeast(b, a[0]);
      SortedHeadLeast(a, b[0]);
      RankInjective(a[0], b[0]);
      MultisetTail(a, b);
      SortedTail(a);
      SortedTail(b);
      SortedUnique(a[1..], b[1..]);
      assert a == [a[0]] + a[1..] && b == [b[0]] + b[1..];
    }
  }

  lemma SortedTail(s: seq<Modifier>)
    requires Sorted(s) && s != []
    ensures Sorted(s[1..])
  {
    forall i, j | 0 <= i < j < |s| - 1 ensures Rank(s[1..][i]) <= Rank(s[1..][j]) {
      assert s[1..][i] == s[i + 1] && s[1..][j] == s[j + 1];
    }
  }

  /** Removing equal heads from two equal multisets leaves equal multisets. */
  lemma MultisetTail(a: seq<Modifier>, b: seq<Modifier>)
    requires a != [] && b != [] && a[0] == b[0] && multiset(a) == multiset(b)
    ensures multiset(a[1..]) == multiset(b[1..])
  {
    assert a == [a[0]] + a[1..];
    assert multiset(a[1..]) == multiset(a) - multiset{a[0]};
    assert b == [b[0]] + b[1..];
    assert multiset(b[1..]) == multiset(b) - multiset{b[0]};
  }

  /** The first `n` cells of the array are in declaration order. */
  ghost predicate SortedPrefix(a: array<Modifier>, n: int)
    requires 0 <= n <= a.Length
    reads a
  {
    forall p, q :: 0 <= p < q < n ==> Rank(a[p]) <= Rank(a[q])
  }

  /** Exchanges two adjacent cells. */
  method SwapDown(a: array<Modifier>, j: int)
    requires 0 < j < a.Length
    modifies a
    ensures a[..] == old(a[..])[j - 1 := old(a[j])][j := old(a[j - 1])]
    ensures multiset(a[..]) == multiset(old(a[..]))
  {
    a[j - 1], a[j] := a[j], a[j - 1];
  }

  /** Moves the cell at `i` down into the sorted prefix before it, one swap at a time. */
  method SinkInto(a: array<Modifier>, i: int)
    requires 0 <= i < a.Length && SortedPrefix(a, i)
    modifies a
    ensures SortedPrefix(a, i + 1)
    ensures multiset(a[..]) == multiset(old(a[..]))
  {
    var j := i;
    while j > 0 && Rank(a[j - 1]) > Rank(a[j])
      invariant 0 <= j <= i
      invariant multiset(a[..]) == multiset(old(a[..]))
      invariant forall p, q :: 0 <= p < q <= i && p != j && q != j ==> Rank(a[p]) <= Rank(a[q])
      invariant forall k :: j < k <= i ==> Rank(a[j]) < Rank(a[k])
      invariant 0 < j < i ==> Rank(a[j - 1]) <= Rank(a[j + 1])
    {
      SwapDown(a, j);
      j := j - 1;
    }
  }

  /**
   * `Vec<Modifier>::sort` on the vector itself: an insertion sort by
   * adjacent swaps, which leaves the array holding the sorted arrangement
   * of what it held.
   */
  method Sort(a: array<Modifier>)
    modifies a
    ensures Sorted(a[..])
    ensures multiset(a[..]) == multiset(old(a[..]))
    ensures a[..] == SortModifiers(old(a[..]))
  {
    for i := 0 to a.Length
      invariant SortedPrefix(a, i)
      invariant multiset(a[..]) == multiset(old(a[..]))
    {
      SinkInto(a, i);
    }
    assert Sorted(a[..]) by {
      forall p, q | 0 <= p < q < a.Length
        ensures Rank(a[..][p]) <= Rank(a[..][q])
      {
      }
    }
    SortModifiersSpec(old(a[..]));
    SortedUnique(a[..], SortModifiers(old(a[..])));
  }

  /** Sorts an owned copy of a modifier list in place and hands back its contents. */
  method SortedCopy(ms: seq<Modifier>) returns (r: seq<Modifier>)
    ensures r == SortModifiers(ms)
  {
    var a := new Modifier[|ms|](i requires 0 <= i < |ms| => ms[i]);
    assert a[..] == ms;
    Sort(a);
    r := a[..];
  }

  /** A single modifier renders as its one keyword. */
  lemma SingleModifierTokens<C>(m: Modifier)
    ensures ModifierTokens<C>([m]) == [Literal(Name(m))]
  {
    assert Collected([m]) == [m] by {
      assert [m][..0] == [];
    }
  }
}
