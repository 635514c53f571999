/** The wrapper gives every user a private store: proofs about `RuntimeStore`. */
module StoreIsolation {
  import opened Wrappers
  import opened Ordering
  import opened RuntimeStore

  function Widened(p: Namespace, item: Item): Item { item.(namespace := p + item.namespace) }

  function WidenedAll(p: Namespace, s: seq<Item>): seq<Item> {
    seq(|s|, i requires 0 <= i < |s| => Widened(p, s[i]))
  }

  function Prepended(p: Namespace, s: seq<Namespace>): seq<Namespace> {
    seq(|s|, i requires 0 <= i < |s| => p + s[i])
  }

  function WidenedReply(p: Namespace, reply: Reply): Reply {
    match reply
    case Nothing => Nothing
    case Found(item) => Found(Widened(p, item))
    case Many(es) => Many(seq(|es|, i requires 0 <= i < |es| => WidenedElement(p, es[i])))
  }

  function WidenedElement(p: Namespace, e: Element): Element {
    match e case Name(namespace) => Name(p + namespace) case Hit(item) => Hit(Widened(p, item))
  }

  // ---- Reads and writes below a prefix are reads and writes of the view

  lemma SamePlace(p: Namespace, item: Item, namespace: Namespace, key: string)
    ensures At(item, p + namespace, key) <==> p <= item.namespace && At(item.(namespace := item.namespace[|p|..]), namespace, key)
  {
    if p <= item.namespace {
      assert item.namespace == p + item.namespace[|p|..];
      if item.namespace == p + namespace { assert item.namespace[|p|..] == namespace; }
    }
  }

  lemma {:induction false} LookupIsPrivate(p: Namespace, s: seq<Item>, namespace: Namespace, key: string)
    ensures Lookup(s, p + namespace, key) ==
            match Lookup(View(p, s), namespace, key) case None => None case Some(i) => Some(Widened(p, i))
  {
    if s != [] {
      SamePlace(p, s[0], namespace, key);
      LookupIsPrivate(p, s[1..], namespace, key);
      if p <= s[0].namespace {
        assert View(p, s)[1..] == View(p, s[1..]);
        assert s[0].namespace == p + s[0].namespace[|p|..];
      }
    }
  }

  lemma {:induction false} WriteIsPrivate(
    p: Namespace, s: seq<Item>, namespace: Namespace, key: string, value: Fields, now: nat)
    ensures View(p, Written(s, p + namespace, key, value, now)) == Written(View(p, s), namespace, key, value, now)
  {
    var w := Written(s, p + namespace, key, value, now);
    if s == [] {
      assert w[1..] == [] && (p + namespace)[|p|..] == namespace;
    } else {
      SamePlace(p, s[0], namespace, key);
      WriteIsPrivate(p, s[1..], namespace, key, value, now);
      assert w[1..] == if At(s[0], p + namespace, key) then s[1..] else Written(s[1..], p + namespace, key, value, now);
      if p <= s[0].namespace { assert View(p, s)[1..] == View(p, s[1..]); }
    }
  }

  lemma {:induction false} WriteIsUnseen(
    p: Namespace, s: seq<Item>, namespace: Namespace, key: string, value: Fields, now: nat)
    requires !(p <= namespace)
    ensures View(p, Written(s, namespace, key, value, now)) == View(p, s)
  {
    var w := Written(s, namespace, key, value, now);
    if s != [] {
      WriteIsUnseen(p, s[1..], namespace, key, value, now);
      assert w[1..] == if At(s[0], namespace, key) then s[1..] else Written(s[1..], namespace, key, value, now);
    }
  }

  lemma {:induction false} RemovalIsPrivate(p: Namespace, s: seq<Item>, namespace: Namespace, key: string)
    ensures View(p, Removed(s, p + namespace, key)) == Removed(View(p, s), namespace, key)
  {
    if s != [] {
      SamePlace(p, s[0], namespace, key);
      RemovalIsPrivate(p, s[1..], namespace, key);
      if !At(s[0], p + namespace, key) {
        assert Removed(s, p + namespace, key)[1..] == Removed(s[1..], p + namespace, key);
      }
      if p <= s[0].namespace { assert View(p, s)[1..] == View(p, s[1..]); }
    }
  }

  lemma {:induction false} RemovalIsUnseen(p: Namespace, s: seq<Item>, namespace: Namespace, key: string)
    requires !(p <= namespace)
    ensures View(p, Removed(s, namespace, key)) == View(p, s)
  {
    if s != [] {
      RemovalIsUnseen(p, s[1..], namespace, key);
      if !At(s[0], namespace, key) {
        assert Removed(s, namespace, key)[1..] == Removed(s[1..], namespace, key);
      }
    }
  }

  lemma {:induction false} SelectionIsPrivate(p: Namespace, s: seq<Item>, prefix: Namespace, filter: Fields)
    ensures Selected(s, p + prefix, filter) == WidenedAll(p, Selected(View(p, s), prefix, filter))
  {
    if s != [] {
      SelectionIsPrivate(p, s[1..], prefix, filter);
      var n := s[0].namespace;
      if p <= n {
        assert n == p + n[|p|..] && View(p, s)[1..] == View(p, s[1..]);
        assert p + prefix <= n <==> prefix <= n[|p|..];
      }
      assert p + prefix <= n ==> p <= n;
    }
  }

  // ---- Listing namespaces

  /** A listing pages through the matching namespaces in strictly ascending order, each once. */
  lemma ListingIsSorted(s: seq<Item>, conditions: seq<Condition>, depth: Option<int>)
    ensures
      var all := SortedSet(TupleLess, Names(s, conditions, depth));
      Ascending(TupleLess, all) && forall n :: n in all <==> n in Names(s, conditions, depth)
  {
    var names := Names(s, conditions, depth);
    hide Names, TupleLess;
    TuplesAreOrdered();
    SortedSetAscends(TupleLess, names);
    forall n ensures n in SortedSet(TupleLess, names) <==> n in names { SortedSetElements(TupleLess, names, n); }
  }

  /** A suffix that matches inside a user's own namespace whenever it matches with the prefix in front. */
  predicate StaysInside(p: Namespace, path: Namespace)
    requires |p| == 2
  {
    && !(|path| >= 1 && Fits(path[0], p[1]))
    && !(|path| >= 2 && Fits(path[0], p[0]) && Fits(path[1], p[1]))
  }

  /** A suffix condition means the same with and without the prefix exactly when its path does not
      match into the prefix. */
  lemma SuffixAgreesExactly(p: Namespace, path: Namespace)
    requires |p| == 2
    ensures StaysInside(p, path) <==>
            forall n: Namespace :: Holds(Condition(Suffix, path), p + n) <==> Holds(Condition(Suffix, path), n)
  {
    var c := Condition(Suffix, path);
    if StaysInside(p, path) {
      forall n: Namespace ensures Holds(c, p + n) <==> Holds(c, n) { SuffixInside(p, path, n); }
    } else if |path| >= 1 && Fits(path[0], p[1]) {
      var n := path[1..];
      assert (p + n)[|p + n| - |path|..] == [p[1]] + n;
      assert Holds(c, p + n) && !Holds(c, n);
    } else {
      var n := path[2..];
      assert (p + n)[|p + n| - |path|..] == p + n;
      assert Holds(c, p + n) && !Holds(c, n);
    }
  }

  lemma SuffixInside(p: Namespace, path: Namespace, n: Namespace)
    requires |p| == 2 && StaysInside(p, path)
    ensures Holds(Condition(Suffix, path), p + n) <==> Holds(Condition(Suffix, path), n)
  {
    var m := p + n;
    if |path| <= |n| {
      assert m[|m| - |path|..] == n[|n| - |path|..];
    } else if |path| == |n| + 1 {
      assert m[|m| - |path|..][0] == p[1];
    } else if |path| == |n| + 2 {
      assert m[|m| - |path|..] == m && m[0] == p[0] && m[1] == p[1];
    }
  }

  /** Truncating below the prefix is truncating the private namespace exactly for non-negative depths. */
  lemma DepthAgreesExactly(p: Namespace, d: int)
    requires |p| == 2
    ensures d >= 0 <==>
            forall n: Namespace :: StripNamespace(p, Truncated(p + n, Some(2 + d))) == Ok(Truncated(n, Some(d)))
  {
    if d >= 0 {
      forall n: Namespace ensures StripNamespace(p, Truncated(p + n, Some(2 + d))) == Ok(Truncated(n, Some(d))) {
        DepthBelow(p, n, Some(d));
        assert (p + Truncated(n, Some(d)))[|p|..] == Truncated(n, Some(d));
      }
    } else {
      var n: Namespace := [];
      assert p + n == p && |Truncated(p + n, Some(2 + d))| < 2;
    }
  }

  lemma DepthBelow(p: Namespace, n: Namespace, depth: Option<int>)
    requires depth.Some? ==> depth.value >= 0
    ensures Truncated(p + n, ScopeDepth(p, depth)) == p + Truncated(n, depth)
  {}

  /** A prefix condition scoped to a user keeps to that user's namespaces exactly when the user id is
      not the wildcard. */
  lemma WildcardUserExactly(u: string)
    ensures u != "*" <==>
            forall n: Namespace :: Holds(Condition(Prefix, UserPrefix(u)), n) ==> UserPrefix(u) <= n
  {
    var c := Condition(Prefix, UserPrefix(u));
    if u == "*" {
      assert Holds(c, [ROOT, "x"]) && !(UserPrefix(u) <= [ROOT, "x"]);
    } else {
      forall n: Namespace | Holds(c, n) ensures UserPrefix(u) <= n {
        assert Fits(c.path[0], n[0]) && Fits(c.path[1], n[1]);
      }
    }
  }

  predicate Plain(p: Namespace) {
    |p| == 2 && p[0] != "*" && p[1] != "*"
  }

  /** The listings for which a private store and the shared one must agree; every other operation
      qualifies. */
  predicate Confined(p: Namespace, op: Op)
    requires |p| == 2
  {
    op.ListNamespaces? ==>
      && (op.maxDepth.Some? ==> op.maxDepth.value >= 0)
      && forall c <- Given(op.matchConditions) :: c.matchType.Suffix? ==> StaysInside(p, c.path)
  }

  lemma ScopedPrefixHolds(p: Namespace, path: Namespace, n: Namespace)
    requires Plain(p)
    ensures Holds(Condition(Prefix, p + path), n) <==> p <= n && Holds(Condition(Prefix, path), n[|p|..])
  {
    var c := Condition(Prefix, p + path);
    if Holds(c, n) {
      assert Fits(c.path[0], n[0]) && Fits(c.path[1], n[1]);
      assert forall i | 0 <= i < |path| :: c.path[|p| + i] == path[i] && n[|p| + i] == n[|p|..][i];
    }
    if p <= n && Holds(Condition(Prefix, path), n[|p|..]) {
      forall i | 0 <= i < |p + path| ensures Fits((p + path)[i], n[i]) {
        if i >= |p| { assert Fits(path[i - |p|], n[|p|..][i - |p|]); }
      }
    }
  }

  lemma ScopedConditionHolds(p: Namespace, c: Condition, n: Namespace)
    requires Plain(p) && (c.matchType.Suffix? ==> StaysInside(p, c.path))
    ensures p <= n ==> (Holds(ScopeCondition(p, c), n) <==> Holds(c, n[|p|..]))
    ensures c.matchType.Prefix? && Holds(ScopeCondition(p, c), n) ==> p <= n
  {
    if c.matchType.Prefix? {
      ScopedPrefixHolds(p, c.path, n);
    } else if p <= n {
      SuffixInside(p, c.path, n[|p|..]);
      assert n == p + n[|p|..];
    }
  }

  // Each scoped condition, by the index of the condition it came from.
  lemma ScopedAt(p: Namespace, conditions: seq<Condition>, n: Namespace, i: nat)
    requires Plain(p) && i < |conditions|
    requires forall c <- conditions :: c.matchType.Suffix? ==> StaysInside(p, c.path)
    ensures
      var scoped := ScopeConditions(p, conditions);
      var skip := |scoped| - |conditions|;
      && 0 <= skip <= 1 && (skip == 0 <==> HasPrefix(conditions)) && scoped[skip + i] == ScopeCondition(p, conditions[i])
      && (skip == 1 ==> scoped[0] == Condition(Prefix, p))
      && (p <= n ==> (Holds(scoped[skip + i], n) <==> Holds(conditions[i], n[|p|..])))
      && (conditions[i].matchType.Prefix? && Holds(scoped[skip + i], n) ==> p <= n)
  {
    hide Holds, StaysInside, Plain;
    ScopedConditionHolds(p, conditions[i], n);
  }

  lemma ScopedImpliesInside(p: Namespace, conditions: seq<Condition>, n: Namespace)
    requires Plain(p) && AllHold(ScopeConditions(p, conditions), n)
    requires forall c <- conditions :: c.matchType.Suffix? ==> StaysInside(p, c.path)
    ensures p <= n && AllHold(conditions, n[|p|..])
  {
    hide Holds, StaysInside, Plain, ScopeConditions;
    var scoped := ScopeConditions(p, conditions);
    ScopedHead(p, conditions, n);
    if HasPrefix(conditions) {
      var i :| 0 <= i < |conditions| && conditions[i].matchType.Prefix?;
      ScopedAt(p, conditions, n, i);
    }
    forall i | 0 <= i < |conditions| ensures Holds(conditions[i], n[|p|..]) { ScopedAt(p, conditions, n, i); }
  }

  // Without a prefix condition of the user's own the list begins with the user prefix.
  lemma ScopedHead(p: Namespace, conditions: seq<Condition>, n: Namespace)
    requires Plain(p)
    ensures
      var scoped := ScopeConditions(p, conditions);
      !HasPrefix(conditions) ==> scoped != [] && (Holds(scoped[0], n) <==> p <= n)
  {
    ScopedPrefixHolds(p, [], n);
    assert p + [] == p;
  }

  lemma InsideImpliesScoped(p: Namespace, conditions: seq<Condition>, n: Namespace)
    requires Plain(p) && p <= n && AllHold(conditions, n[|p|..])
    requires forall c <- conditions :: c.matchType.Suffix? ==> StaysInside(p, c.path)
    ensures AllHold(ScopeConditions(p, conditions), n)
  {
    hide Holds, StaysInside, Plain;
    var scoped := ScopeConditions(p, conditions);
    var skip := |scoped| - |conditions|;
    ScopedHead(p, conditions, n);
    forall j | 0 <= j < |scoped| ensures Holds(scoped[j], n) {
      if j >= skip {
        assert Holds(conditions[j - skip], n[|p|..]);
        ScopedAt(p, conditions, n, j - skip);
      }
    }
  }

  /** With the prefix condition every scoped list contains, exactly the user's own namespaces are asked. */
  lemma ScopedConditionsHold(p: Namespace, conditions: seq<Condition>, n: Namespace)
    requires Plain(p)
    requires forall c <- conditions :: c.matchType.Suffix? ==> StaysInside(p, c.path)
    ensures AllHold(ScopeConditions(p, conditions), n) <==> p <= n && AllHold(conditions, n[|p|..])
  {
    if AllHold(ScopeConditions(p, conditions), n) { ScopedImpliesInside(p, conditions, n); }
    if p <= n && AllHold(conditions, n[|p|..]) { InsideImpliesScoped(p, conditions, n); }
  }

  lemma PrependedCons(p: Namespace, h: Namespace, rest: seq<Namespace>)
    ensures Prepended(p, [h] + rest) == [p + h] + Prepended(p, rest)
  {}

  lemma NamesCons(first: Item, rest: seq<Item>, conditions: seq<Condition>, depth: Option<int>)
    ensures Names([first] + rest, conditions, depth) ==
            (if AllHold(conditions, first.namespace) then [Truncated(first.namespace, depth)] else [])
            + Names(rest, conditions, depth)
  {
    hide AllHold, Truncated;
    assert ([first] + rest)[1..] == rest;
  }

  lemma ViewCons(p: Namespace, first: Item, rest: seq<Item>)
    ensures View(p, [first] + rest) ==
            (if p <= first.namespace then [first.(namespace := first.namespace[|p|..])] else []) + View(p, rest)
  {
    assert ([first] + rest)[1..] == rest;
  }

  lemma {:induction false} NamesArePrivate(
    p: Namespace, s: seq<Item>, conditions: seq<Condition>, depth: Option<int>)
    requires Plain(p) && (depth.Some? ==> depth.value >= 0)
    requires forall c <- conditions :: c.matchType.Suffix? ==> StaysInside(p, c.path)
    ensures Names(s, ScopeConditions(p, conditions), ScopeDepth(p, depth)) ==
            Prepended(p, Names(View(p, s), conditions, depth))
  {
    if s != [] {
      var first, rest := s[0], s[1..];
      var n := first.namespace;
      assert s == [first] + rest;
      ScopedConditionsHold(p, conditions, n);
      NamesArePrivate(p, rest, conditions, depth);
      NamesCons(first, rest, ScopeConditions(p, conditions), ScopeDepth(p, depth));
      ViewCons(p, first, rest);
      if p <= n {
        var inner := first.(namespace := n[|p|..]);
        assert n == p + n[|p|..];
        DepthBelow(p, n[|p|..], depth);
        NamesCons(inner, View(p, rest), conditions, depth);
        PrependedCons(p, Truncated(n[|p|..], depth), Names(View(p, rest), conditions, depth));
      }
      hide *;
    }
  }

  lemma InsertCons(x: Namespace, h: Namespace, rest: seq<Namespace>)
    ensures Insert(TupleLess, x, [h] + rest) ==
            if x == h then [h] + rest
            else if TupleLess(x, h) then [x] + ([h] + rest)
            else [h] + Insert(TupleLess, x, rest)
  {
    assert ([h] + rest)[1..] == rest;
  }

  lemma SameOrder(p: Namespace, x: Namespace, y: Namespace)
    ensures TupleLess(p + x, p + y) == TupleLess(x, y)
    ensures p + x == p + y <==> x == y
  {
    CommonPrefixKeepsOrder(StringLess, p, x, y);
    assert (p + x)[|p|..] == x && (p + y)[|p|..] == y;
  }

  lemma {:induction false} InsertPrepended(p: Namespace, x: Namespace, s: seq<Namespace>)
    ensures Insert(TupleLess, p + x, Prepended(p, s)) == Prepended(p, Insert(TupleLess, x, s))
  {
    if s != [] {
      hide *;
      var h, rest := s[0], s[1..];
      assert s == [h] + rest;
      SameOrder(p, x, h);
      InsertPrepended(p, x, rest);
      InsertCons(x, h, rest);
      InsertCons(p + x, p + h, Prepended(p, rest));
      PrependedCons(p, h, rest);
      PrependedCons(p, x, [h] + rest);
      PrependedCons(p, h, Insert(TupleLess, x, rest));
    }
  }

  /** Sorting before or after stripping the common prefix gives the same order, and so the same pages. */
  lemma {:induction false} SortedPrepended(p: Namespace, s: seq<Namespace>)
    ensures SortedSet(TupleLess, Prepended(p, s)) == Prepended(p, SortedSet(TupleLess, s))
  {
    if s != [] {
      SortedPrepended(p, s[1..]);
      InsertPrepended(p, s[0], SortedSet(TupleLess, s[1..]));
      assert Prepended(p, s)[1..] == Prepended(p, s[1..]);
    }
  }

  // ---- Stripping undoes widening, so it never raises on an answer from below the prefix

  lemma {:induction false} StripWidened(p: Namespace, reply: Reply)
    ensures StripReply(p, WidenedReply(p, reply)) == Ok(reply)
  {
    match reply
    case Nothing =>
    case Found(item) => StripWidenedElement(p, Hit(item));
    case Many(es) => StripWidenedElements(p, es);
  }

  lemma StripWidenedElement(p: Namespace, e: Element)
    ensures StripElement(p, WidenedElement(p, e)) == Ok(e)
  {
    var n := if e.Name? then e.namespace else e.item.namespace;
    assert (p + n)[|p|..] == n;
  }

  lemma {:induction false} StripWidenedElements(p: Namespace, es: seq<Element>)
    ensures StripElements(p, seq(|es|, i requires 0 <= i < |es| => WidenedElement(p, es[i]))) == Ok(es)
  {
    var wide := seq(|es|, i requires 0 <= i < |es| => WidenedElement(p, es[i]));
    if es != [] {
      var front := es[..|es| - 1];
      StripWidenedElements(p, front);
      StripWidenedElement(p, es[|es| - 1]);
      assert wide[..|wide| - 1] == seq(|front|, i requires 0 <= i < |front| => WidenedElement(p, front[i]));
      assert es == front + [es[|es| - 1]];
    }
  }

  // ---- One operation

  lemma PageWidened(p: Namespace, s: seq<Item>, offset: nat, limit: nat)
    ensures Page(WidenedAll(p, s), offset, limit) == WidenedAll(p, Page(s, offset, limit))
  {}

  lemma PagePrepended(p: Namespace, s: seq<Namespace>, offset: nat, limit: nat)
    ensures Page(Prepended(p, s), offset, limit) == Prepended(p, Page(s, offset, limit))
  {}

  lemma SearchIsPrivate(p: Namespace, s: seq<Item>, op: Op)
    requires op.Search?
    ensures Answer(s, ScopeOp(p, op)) == WidenedReply(p, Answer(View(p, s), op))
  {
    hide Selected, View, Page;
    SelectionIsPrivate(p, s, op.namespacePrefix, op.filter);
    PageWidened(p, Selected(View(p, s), op.namespacePrefix, op.filter), op.offset, op.limit);
  }

  lemma ListingIsPrivate(p: Namespace, s: seq<Item>, op: Op)
    requires Plain(p) && Confined(p, op) && op.ListNamespaces?
    ensures Answer(s, ScopeOp(p, op)) == WidenedReply(p, Answer(View(p, s), op))
  {
    hide Names, SortedSet, View, ScopeConditions, ScopeDepth, Page, StaysInside;
    var conditions := Given(op.matchConditions);
    var names := Names(View(p, s), conditions, op.maxDepth);
    NamesArePrivate(p, s, conditions, op.maxDepth);
    SortedPrepended(p, names);
    PagePrepended(p, SortedSet(TupleLess, names), op.offset, op.limit);
  }

  lemma AnswerIsPrivate(p: Namespace, s: seq<Item>, op: Op)
    requires Plain(p) && Confined(p, op)
    ensures Answer(s, ScopeOp(p, op)) == WidenedReply(p, Answer(View(p, s), op))
  {
    match op
    case Put(_, _, _, _) =>
    case Get(namespace, key) => LookupIsPrivate(p, s, namespace, key);
    case Search(_, _, _, _) =>
      SearchIsPrivate(p, s, op);
      hide *;
    case ListNamespaces(_, _, _, _) =>
      ListingIsPrivate(p, s, op);
      hide *;
  }

  lemma AfterIsPrivate(p: Namespace, s: seq<Item>, op: Op)
    ensures View(p, After(s, ScopeOp(p, op))) == After(View(p, s), op)
  {
    match op
    case Put(namespace, key, Some(value), now) => WriteIsPrivate(p, s, namespace, key, value, now);
    case Put(namespace, key, None, _) => RemovalIsPrivate(p, s, namespace, key);
    case _ =>
  }

  lemma AfterIsUnseen(p: Namespace, q: Namespace, s: seq<Item>, op: Op)
    requires |p| == |q| && p != q
    ensures View(q, After(s, ScopeOp(p, op))) == View(q, s)
  {
    if op.Put? {
      assert !(q <= p + op.namespace) by { assert (p + op.namespace)[..|p|] == p; }
      match op.value
      case Some(value) => WriteIsUnseen(q, s, p + op.namespace, op.key, value, op.now);
      case None => RemovalIsUnseen(q, s, p + op.namespace, op.key);
    }
  }

  // ---- One call

  predicate AllConfined(p: Namespace, ops: seq<Op>)
    requires |p| == 2
  {
    forall op <- ops :: Confined(p, op)
  }

  lemma {:induction false} AfterAllIsPrivate(p: Namespace, s: seq<Item>, ops: seq<Op>)
    ensures View(p, AfterAll(s, ScopeOps(p, ops))) == AfterAll(View(p, s), ops)
    decreases |ops|
  {
    if ops != [] {
      assert ScopeOps(p, ops)[1..] == ScopeOps(p, ops[1..]);
      AfterIsPrivate(p, s, ops[0]);
      AfterAllIsPrivate(p, After(s, ScopeOp(p, ops[0])), ops[1..]);
    }
  }

  lemma {:induction false} AfterAllIsUnseen(p: Namespace, q: Namespace, s: seq<Item>, ops: seq<Op>)
    requires |p| == |q| && p != q
    ensures View(q, AfterAll(s, ScopeOps(p, ops))) == View(q, s)
    decreases |ops|
  {
    if ops != [] {
      assert ScopeOps(p, ops)[1..] == ScopeOps(p, ops[1..]);
      AfterIsUnseen(p, q, s, ops[0]);
      AfterAllIsUnseen(p, q, After(s, ScopeOp(p, ops[0])), ops[1..]);
    }
  }

  lemma {:induction false} AnswersArePrivate(readsFirst: bool, p: Namespace, s: seq<Item>, ops: seq<Op>)
    requires Plain(p) && AllConfined(p, ops)
    ensures forall i | 0 <= i < |ops| ::
      Answers(readsFirst, s, ScopeOps(p, ops))[i] == WidenedReply(p, Answers(readsFirst, View(p, s), ops)[i])
    decreases |ops|
  {
    if ops != [] {
      assert ScopeOps(p, ops)[1..] == ScopeOps(p, ops[1..]);
      AnswerIsPrivate(p, s, ops[0]);
      AfterIsPrivate(p, s, ops[0]);
      AnswersArePrivate(readsFirst, p, if readsFirst then s else After(s, ScopeOp(p, ops[0])), ops[1..]);
    }
  }

  lemma {:induction false} StripAllWidened(p: Namespace, wide: seq<Reply>, replies: seq<Reply>)
    requires |wide| == |replies| && forall i | 0 <= i < |wide| :: wide[i] == WidenedReply(p, replies[i])
    ensures StripReplies(p, wide) == Ok(replies)
  {
    if wide != [] {
      var n := |wide| - 1;
      StripAllWidened(p, wide[..n], replies[..n]);
      StripWidened(p, replies[n]);
      assert replies == replies[..n] + [replies[n]];
    }
  }

  /** A call of one user answers as that user's private store would, never raises, leaves the private
      store the call would have left, and leaves every other user's view alone. */
  lemma CallIsPrivate(readsFirst: bool, p: Namespace, s: seq<Item>, ops: seq<Op>)
    requires Plain(p) && AllConfined(p, ops)
    ensures Serve(readsFirst, p, s, ops).1 == Ok(Answers(readsFirst, View(p, s), ops))
    ensures View(p, Serve(readsFirst, p, s, ops).0) == AfterAll(View(p, s), ops)
    ensures forall q: Namespace | |q| == 2 && q != p :: View(q, Serve(readsFirst, p, s, ops).0) == View(q, s)
  {
    AnswersArePrivate(readsFirst, p, s, ops);
    StripAllWidened(p, Answers(readsFirst, s, ScopeOps(p, ops)), Answers(readsFirst, View(p, s), ops));
    AfterAllIsPrivate(p, s, ops);
    forall q: Namespace | |q| == 2 && q != p ensures View(q, Serve(readsFirst, p, s, ops).0) == View(q, s) {
      AfterAllIsUnseen(p, q, s, ops);
    }
  }

  // ---- Interleaved runs of many users

  datatype Call = Call(userId: string, ops: seq<Op>)

  // What `userId` is answered, call by call, while every user's calls reach the shared store.
  function SharedAnswers(readsFirst: bool, s: seq<Item>, run: seq<Call>, userId: string)
    : seq<Result<seq<Reply>, ()>>
    decreases |run|
  {
    if run == [] then [] else
      var served := Serve(readsFirst, UserPrefix(run[0].userId), s, run[0].ops);
      var rest := SharedAnswers(readsFirst, served.0, run[1..], userId);
      if run[0].userId == userId then [served.1] + rest else rest
  }

  // What a store that receives only the calls of `userId` answers.
  function PrivateAnswers(readsFirst: bool, s: seq<Item>, run: seq<Call>, userId: string)
    : seq<Result<seq<Reply>, ()>>
    decreases |run|
  {
    if run == [] then []
    else if run[0].userId != userId then PrivateAnswers(readsFirst, s, run[1..], userId)
    else [Ok(Answers(readsFirst, s, run[0].ops))] +
         PrivateAnswers(readsFirst, AfterAll(s, run[0].ops), run[1..], userId)
  }

  /** Whatever the interleaving, and whatever else other users ask, a user sees a private store. Only
      the user's own calls need to be confined. */
  lemma {:induction false} EveryUserHasAPrivateStore(
    readsFirst: bool, s: seq<Item>, run: seq<Call>, userId: string)
    requires userId != "*"
    requires forall c <- run :: c.userId == userId ==> AllConfined(UserPrefix(userId), c.ops)
    ensures SharedAnswers(readsFirst, s, run, userId) ==
            PrivateAnswers(readsFirst, View(UserPrefix(userId), s), run, userId)
    decreases |run|
  {
    if run != [] {
      var p, c := UserPrefix(userId), run[0];
      var served := Serve(readsFirst, UserPrefix(c.userId), s, c.ops);
      EveryUserHasAPrivateStore(readsFirst, served.0, run[1..], userId);
      if c.userId == userId {
        CallIsPrivate(readsFirst, p, s, c.ops);
      } else {
        AfterAllIsUnseen(UserPrefix(c.userId), p, s, c.ops);
      }
    }
  }

  // ---- Direct calls and batches of one

  // The conditions the base class builds from the keyword arguments of `list_namespaces`.
  function KeywordConditions(prefix: Namespace, suffix: Namespace): seq<Condition> {
    (if prefix == [] then [] else [Condition(Prefix, prefix)]) +
    (if suffix == [] then [] else [Condition(Suffix, suffix)])
  }

  /** `list_namespaces(prefix, suffix)` asks the base store exactly what a batch of that listing asks. */
  lemma DirectListingIsBatched(p: Namespace, prefix: Namespace, suffix: Namespace)
    requires |p| == 2
    ensures ScopeConditions(p, KeywordConditions(prefix, suffix)) == KeywordConditions(p + prefix, suffix)
  {
    var given := KeywordConditions(prefix, suffix);
    if prefix != [] { assert given[0].matchType.Prefix?; }
    assert prefix == [] ==> p + prefix == p;
  }
}
