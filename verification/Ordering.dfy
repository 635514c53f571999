/** Python's ordering of strings and of tuples of strings, and `sorted` of a set of them. */
module Ordering {
  // The first differing element decides; a proper prefix comes first.
  predicate LexLess<T(==)>(less: (T, T) -> bool, a: seq<T>, b: seq<T>) {
    if b == [] then false
    else if a == [] then true
    else if a[0] == b[0] then LexLess(less, a[1..], b[1..])
    else less(a[0], b[0])
  }

  predicate CharLess(a: char, b: char) { a < b }

  predicate StringLess(a: string, b: string) { LexLess(CharLess, a, b) }

  predicate TupleLess(a: seq<string>, b: seq<string>) { LexLess(StringLess, a, b) }

  ghost predicate StrictTotal<T(!new)>(less: (T, T) -> bool) {
    && (forall a :: !less(a, a))
    && (forall a, b :: a == b || less(a, b) || less(b, a))
    && (forall a, b, c :: less(a, b) && less(b, c) ==> less(a, c))
  }

  lemma {:induction false} LexLessTrichotomy<T(!new)>(less: (T, T) -> bool, a: seq<T>, b: seq<T>)
    requires StrictTotal(less)
    ensures a == b || LexLess(less, a, b) || LexLess(less, b, a)
    ensures !LexLess(less, a, a)
    decreases |a|
  {
    if a != [] {
      LexLessTrichotomy(less, a[1..], if b == [] then [] else b[1..]);
      if b != [] && a[0] == b[0] && a[1..] == b[1..] {
        assert a == [a[0]] + a[1..] && b == [b[0]] + b[1..];
      }
    }
  }

  lemma {:induction false} LexLessTransitive<T(!new)>(less: (T, T) -> bool, a: seq<T>, b: seq<T>, c: seq<T>)
    requires StrictTotal(less) && LexLess(less, a, b) && LexLess(less, b, c)
    ensures LexLess(less, a, c)
  {
    if a != [] && a[0] == b[0] == c[0] {
      LexLessTransitive(less, a[1..], b[1..], c[1..]);
    }
  }

  lemma StringsAreOrdered()
    ensures StrictTotal(StringLess)
  {
    assert StrictTotal(CharLess);
    forall a, b: string
      ensures !StringLess(a, a) && (a == b || StringLess(a, b) || StringLess(b, a))
    {
      LexLessTrichotomy(CharLess, a, b);
    }
    forall a, b, c: string | StringLess(a, b) && StringLess(b, c)
      ensures StringLess(a, c)
    {
      LexLessTransitive(CharLess, a, b, c);
    }
  }

  lemma TuplesAreOrdered()
    ensures StrictTotal(TupleLess)
  {
    StringsAreOrdered();
    forall a, b: seq<string>
      ensures !TupleLess(a, a) && (a == b || TupleLess(a, b) || TupleLess(b, a))
    {
      LexLessTrichotomy(StringLess, a, b);
    }
    forall a, b, c: seq<string> | TupleLess(a, b) && TupleLess(b, c)
      ensures TupleLess(a, c)
    {
      LexLessTransitive(StringLess, a, b, c);
    }
  }

  lemma {:induction false} CommonPrefixKeepsOrder<T>(less: (T, T) -> bool, p: seq<T>, a: seq<T>, b: seq<T>)
    ensures LexLess(less, p + a, p + b) == LexLess(less, a, b)
    decreases |p|
  {
    if p == [] {
      assert p + a == a && p + b == b;
    } else {
      assert (p + a)[1..] == p[1..] + a && (p + b)[1..] == p[1..] + b;
      CommonPrefixKeepsOrder(less, p[1..], a, b);
    }
  }

  function Insert<T(==)>(less: (T, T) -> bool, x: T, s: seq<T>): seq<T> {
    if s == [] then [x]
    else if x == s[0] then s
    else if less(x, s[0]) then [x] + s
    else [s[0]] + Insert(less, x, s[1..])
  }

  /** `sorted(set(s))`. */
  function SortedSet<T(==)>(less: (T, T) -> bool, s: seq<T>): seq<T> {
    if s == [] then [] else Insert(less, s[0], SortedSet(less, s[1..]))
  }

  lemma {:induction false} InsertElements<T>(less: (T, T) -> bool, x: T, s: seq<T>, y: T)
    ensures y in Insert(less, x, s) <==> y == x || y in s
  {
    if s != [] { InsertElements(less, x, s[1..], y); }
  }

  lemma {:induction false} SortedSetElements<T>(less: (T, T) -> bool, s: seq<T>, y: T)
    ensures y in SortedSet(less, s) <==> y in s
  {
    if s != [] {
      SortedSetElements(less, s[1..], y);
      InsertElements(less, s[0], SortedSet(less, s[1..]), y);
    }
  }

  ghost predicate Ascending<T>(less: (T, T) -> bool, s: seq<T>) {
    forall i, j | 0 <= i < j < |s| :: less(s[i], s[j])
  }

  lemma {:induction false} InsertAscends<T(!new)>(less: (T, T) -> bool, x: T, s: seq<T>)
    requires StrictTotal(less) && Ascending(less, s)
    ensures Ascending(less, Insert(less, x, s))
  {
    if s != [] && x != s[0] && !less(x, s[0]) {
      assert Ascending(less, s[1..]) && forall y | y in s[1..] :: less(s[0], y);
      InsertAscends(less, x, s[1..]);
      var rest := Insert(less, x, s[1..]);
      forall j | 0 <= j < |rest| ensures less(s[0], rest[j]) { InsertElements(less, x, s[1..], rest[j]); }
    }
  }

  lemma {:induction false} SortedSetAscends<T(!new)>(less: (T, T) -> bool, s: seq<T>)
    requires StrictTotal(less)
    ensures Ascending(less, SortedSet(less, s))
  {
    if s != [] {
      SortedSetAscends(less, s[1..]);
      InsertAscends(less, s[0], SortedSet(less, s[1..]));
    }
  }

  lemma HeadIsLeast<T(!new)>(less: (T, T) -> bool, s: seq<T>, x: T)
    requires Ascending(less, s) && x in s
    ensures x == s[0] || less(s[0], x)
  {
    var i :| 0 <= i < |s| && s[i] == x;
  }

  /** An ascending sequence is determined by its elements. */
  lemma {:induction false} AscendingIsUnique<T(!new)>(less: (T, T) -> bool, a: seq<T>, b: seq<T>)
    requires StrictTotal(less) && Ascending(less, a) && Ascending(less, b)
    requires forall y :: y in a <==> y in b
    ensures a == b
    decreases |a|
  {
    assert a == [] <==> b == [] by {
      if a != [] { assert a[0] in b; }
      if b != [] { assert b[0] in a; }
    }
    if a != [] {
      HeadIsLeast(less, a, b[0]);
      HeadIsLeast(less, b, a[0]);
      assert a == [a[0]] + a[1..] && b == [b[0]] + b[1..];
      forall y ensures y in a[1..] <==> y in b[1..] {
        assert y in a <==> y == a[0] || y in a[1..];
        assert y in b <==> y == b[0] || y in b[1..];
        assert y in a[1..] ==> less(a[0], y);
        assert y in b[1..] ==> less(b[0], y);
      }
      AscendingIsUnique(less, a[1..], b[1..]);
    }
  }
}
