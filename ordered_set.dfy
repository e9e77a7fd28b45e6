/**
 * Ordered sets as kept by a `BTreeSet`: a strictly increasing sequence under a
 * strict total order, with insertion that keeps it so.  Iterating a `BTreeSet`
 * visits its members in ascending order, which is the order of `items` here.
 */
module OrderedSets {

  ghost predicate StrictTotalOrder<T(!new)>(less: (T, T) -> bool) {
    && (forall a :: !less(a, a))
    && (forall a, b, c :: less(a, b) && less(b, c) ==> less(a, c))
    && (forall a, b :: a == b || less(a, b) || less(b, a))
  }

  predicate Increasing<T>(s: seq<T>, less: (T, T) -> bool) {
    forall i, j :: 0 <= i < j < |s| ==> less(s[i], s[j])
  }

  /** Inserting `x` into the ascending sequence `s`; a member already present is not added again. */
  function Inserted<T(==)>(s: seq<T>, x: T, less: (T, T) -> bool): seq<T>
  {
    if s == [] then [x]
    else if s[0] == x then s
    else if less(x, s[0]) then [x] + s
    else [s[0]] + Inserted(s[1..], x, less)
  }

  lemma {:induction false} InsertMembers<T>(s: seq<T>, x: T, less: (T, T) -> bool)
    ensures forall y :: y in Inserted(s, x, less) <==> y in s || y == x
  {
    if s != [] && s[0] != x && !less(x, s[0]) {
      InsertMembers(s[1..], x, less);
      assert s == [s[0]] + s[1..];
    }
  }

  lemma {:induction false} InsertIncreasing<T(!new)>(s: seq<T>, x: T, less: (T, T) -> bool)
    requires StrictTotalOrder(less)
    requires Increasing(s, less)
    ensures Increasing(Inserted(s, x, less), less)
  {
    if s != [] && s[0] != x && !less(x, s[0]) {
      InsertIncreasing(s[1..], x, less);
      InsertMembers(s[1..], x, less);
      var r := Inserted(s, x, less);
      assert less(s[0], x);
      forall i, j | 0 <= i < j < |r| ensures less(r[i], r[j]) {
        if i == 0 {
          assert r[j] in Inserted(s[1..], x, less);
          assert r[j] == x || r[j] in s[1..];
        }
      }
    }
  }

  /** Two ascending sequences with the same members are the same sequence: a `BTreeSet` has one iteration order. */
  lemma {:induction false} IncreasingUnique<T(!new)>(a: seq<T>, b: seq<T>, less: (T, T) -> bool)
    requires StrictTotalOrder(less)
    requires Increasing(a, less) && Increasing(b, less)
    requires forall x :: x in a <==> x in b
    ensures a == b
  {
    if a != [] {
      assert a[0] in a;
      assert b[0] in b;
      assert a[0] == b[0];
      forall x ensures x in a[1..] <==> x in b[1..] {
        if x in a[1..] {
          var i :| 1 <= i < |a| && a[i] == x;
          assert x in b;
          assert x != b[0];
        }
        if x in b[1..] {
          var j :| 1 <= j < |b| && b[j] == x;
          assert x in a;
          assert x != a[0];
        }
      }
      IncreasingUnique(a[1..], b[1..], less);
      assert a == [a[0]] + a[1..] && b == [b[0]] + b[1..];
    } else {
      DistinctCardinality(b);
      assert (set x | x in b) == {};
    }
  }

  /** A sequence without repetition has as many members as elements. */
  lemma {:induction false} DistinctCardinality<T>(s: seq<T>)
    requires forall i, j :: 0 <= i < j < |s| ==> s[i] != s[j]
    ensures |set x | x in s| == |s|
  {
    if s != [] {
      var init := s[..|s| - 1];
      DistinctCardinality(init);
      assert (set x | x in s) == (set x | x in init) + {s[|s| - 1]};
      assert s[|s| - 1] !in init;
    }
  }

  /** The set whose members are kept in `items`, in ascending order and without repetition. */
  class OrderedSet<T(==,!new)> {
    const less: (T, T) -> bool
    var items: seq<T>

    ghost predicate Valid()
      reads this
    {
      StrictTotalOrder(less) && Increasing(items, less)
    }

    constructor (less: (T, T) -> bool)
      requires StrictTotalOrder(less)
      ensures this.less == less && items == [] && Valid()
    {
      this.less := less;
      items := [];
    }

    method Insert(x: T)
      requires Valid()
      modifies this
      ensures Valid()
      ensures items == Inserted(old(items), x, less)
      ensures forall y :: y in items <==> y in old(items) || y == x
    {
      InsertIncreasing(items, x, less);
      InsertMembers(items, x, less);
      items := Inserted(items, x, less);
    }
  }

  /** Lexicographic order on strings by character code, the order of Rust's `str`. */
  predicate StrLess(a: string, b: string)
  {
    if a == [] then b != []
    else if b == [] then false
    else if a[0] != b[0] then a[0] < b[0]
    else StrLess(a[1..], b[1..])
  }

  lemma {:induction false} StrLessIrreflexive(a: string)
    ensures !StrLess(a, a)
  {
    if a != [] { StrLessIrreflexive(a[1..]); }
  }

  lemma {:induction false} StrLessTransitive(a: string, b: string, c: string)
    requires StrLess(a, b) && StrLess(b, c)
    ensures StrLess(a, c)
  {
    if a != [] && a[0] == b[0] && b[0] == c[0] {
      StrLessTransitive(a[1..], b[1..], c[1..]);
    }
  }

  lemma {:induction false} StrLessTotal(a: string, b: string)
    ensures a == b || StrLess(a, b) || StrLess(b, a)
  {
    if a != [] && b != [] && a[0] == b[0] {
      StrLessTotal(a[1..], b[1..]);
      if a[1..] == b[1..] {
        assert a == [a[0]] + a[1..] && b == [b[0]] + b[1..];
      }
    }
  }

  lemma StrLessOrder()
    ensures StrictTotalOrder(StrLess)
  {
    forall a ensures !StrLess(a, a) { StrLessIrreflexive(a); }
    forall a, b, c | StrLess(a, b) && StrLess(b, c) ensures StrLess(a, c) { StrLessTransitive(a, b, c); }
    forall a, b ensures a == b || StrLess(a, b) || StrLess(b, a) { StrLessTotal(a, b); }
  }

  /** Tuples of strings ordered by their first component, then their second, as Rust orders `(&str, &str)`. */
  predicate PairLess(p: (string, string), q: (string, string))
  {
    StrLess(p.0, q.0) || (p.0 == q.0 && StrLess(p.1, q.1))
  }

  lemma PairLessOrder()
    ensures StrictTotalOrder(PairLess)
  {
    StrLessOrder();
  }
}
