/** Which paths the parser takes for copied ones. */
module ContainerPaths {
  import opened Wrappers
  import opened Manifest
  import opened PolicyPreserved

  // A part of a path: what lies between two separators.
  ghost predicate PartAt(s: string, c: char, i: nat, j: nat) {
    i <= j <= |s| && (i == 0 || s[i - 1] == c) && (j == |s| || s[j] == c) && c !in s[i..j]
  }

  lemma {:induction false} SplitFirst(first: string, rest: string, c: char)
    requires c !in first
    ensures Split(first, c) == [first] && Split(first + [c] + rest, c) == [first] + Split(rest, c)
  {
    var s := first + [c] + rest;
    if first != "" {
      SplitFirst(first[1..], rest, c);
      assert s[1..] == first[1..] + [c] + rest;
      assert first[0] in first && first == [first[0]] + first[1..];
    } else {
      assert s[1..] == rest;
    }
  }

  ghost predicate HasPart(s: string, c: char, p: string) {
    exists i: nat, j: nat :: PartAt(s, c, i, j) && p == s[i..j]
  }

  /** Splitting gives exactly the parts. */
  lemma {:induction false} SplitParts(s: string, c: char, p: string)
    ensures p in Split(s, c) <==> HasPart(s, c, p)
    decreases |s|
  {
    if c in s {
      var k := FirstAt(s, c);
      SplitFirst(s[..k], s[k + 1..], c);
      assert s == s[..k] + [c] + s[k + 1..];
      SplitParts(s[k + 1..], c, p);
      if HasPart(s[k + 1..], c, p) { PartOfRest(s, c, k, p); }
      if HasPart(s, c, p) { FirstOrRest(s, c, k, p); }
      assert PartAt(s, c, 0, k) && s[..k] == s[0..k];
      hide Split, PartAt;
    } else {
      SplitFirst(s, "", c);
      assert s[0..|s|] == s && PartAt(s, c, 0, |s|);
      if HasPart(s, c, p) {
        var i: nat, j: nat :| PartAt(s, c, i, j) && p == s[i..j];
        assert i == 0 && j == |s|;
      }
    }
  }

  lemma PartOfRest(s: string, c: char, k: nat, p: string)
    requires k < |s| && s[k] == c && HasPart(s[k + 1..], c, p)
    ensures HasPart(s, c, p)
  {
    var rest := s[k + 1..];
    var i: nat, j: nat :| PartAt(rest, c, i, j) && p == rest[i..j];
    assert s[i + k + 1..j + k + 1] == rest[i..j];
    assert PartAt(s, c, i + k + 1, j + k + 1);
  }

  lemma FirstOrRest(s: string, c: char, k: nat, p: string)
    requires k < |s| && s[k] == c && c !in s[..k] && HasPart(s, c, p)
    ensures p == s[..k] || HasPart(s[k + 1..], c, p)
  {
    var rest := s[k + 1..];
    var i: nat, j: nat :| PartAt(s, c, i, j) && p == s[i..j];
    assert forall n | 0 <= n < k :: s[n] == s[..k][n];
    assert forall n | i <= n < j :: s[n] == s[i..j][n - i];
    if i > k {
      assert rest[i - k - 1..j - k - 1] == s[i..j];
      assert PartAt(rest, c, i - k - 1, j - k - 1);
    }
  }

  function FirstAt(s: string, c: char): (k: nat)
    requires c in s
    ensures k < |s| && s[k] == c && c !in s[..k]
  {
    if s[0] == c then 0
    else
      assert c in s[1..];
      var k := FirstAt(s[1..], c) + 1;
      assert s[..k] == [s[0]] + s[1..][..k - 1];
      k
  }

  // No part of a path is empty, `.` or `..`, but for the empty one before its first slash.
  ghost predicate Normalized(path: string) {
    forall i: nat, j: nat | PartAt(path, '/', i, j) && i > 0 :: path[i..j] != "" && path[i..j] != "." && path[i..j] != ".."
  }

  predicate PlainPart(p: string) { p != "" && p != "." && p != ".." }

  lemma PartShifts(rest: string, i: nat, j: nat)
    requires i <= j <= |rest|
    ensures ("/" + rest)[i + 1..j + 1] == rest[i..j]
    ensures PartAt("/" + rest, '/', i + 1, j + 1) <==> PartAt(rest, '/', i, j)
  {
    var path := "/" + rest;
    assert path[i + 1..j + 1] == rest[i..j];
    assert path[i] == if i == 0 then '/' else rest[i - 1];
    assert j < |rest| ==> path[j + 1] == rest[j];
  }

  lemma NormalizedParts(rest: string)
    ensures Normalized("/" + rest) <==> forall p <- Split(rest, '/') :: PlainPart(p)
  {
    var path := "/" + rest;
    hide Split;
    if Normalized(path) {
      forall p <- Split(rest, '/') ensures PlainPart(p) {
        SplitParts(rest, '/', p);
        var i: nat, j: nat :| PartAt(rest, '/', i, j) && p == rest[i..j];
        PartShifts(rest, i, j);
      }
    }
    if forall p <- Split(rest, '/') :: PlainPart(p) {
      forall i: nat, j: nat | PartAt(path, '/', i, j) && i > 0 ensures PlainPart(path[i..j]) {
        PartShifts(rest, i - 1, j - 1);
        SplitParts(rest, '/', path[i..j]);
      }
    }
  }

  lemma FirstOf(s: string, c: char, first: string)
    requires c !in first
    ensures first + [c] <= s ==> Split(s, c) == [first] + Split(s[|first| + 1..], c)
    ensures s == first ==> Split(s, c) == [first]
  {
    SplitFirst(first, "", c);
    if first + [c] <= s {
      SplitFirst(first, s[|first| + 1..], c);
      assert s == first + [c] + s[|first| + 1..];
    }
    hide Split;
  }

  lemma FirstIs(s: string, c: char, first: string)
    requires c !in first
    ensures Split(s, c)[0] == first <==> s == first || first + [c] <= s
  {
    FirstOf(s, c, first);
    if c in s {
      var k := FirstAt(s, c);
      SplitFirst(s[..k], s[k + 1..], c);
      assert s == s[..k] + [c] + s[k + 1..];
    } else {
      FirstOf(s, c, s);
    }
    hide Split;
  }

  lemma FirstTwoAre(s: string, c: char, first: string, second: string)
    requires c !in first && c !in second
    ensures
      var parts := Split(s, c);
      |parts| >= 2 && parts[0] == first && parts[1] == second <==>
        s == first + [c] + second || first + [c] + second + [c] <= s
  {
    FirstOf(s, c, first);
    FirstIs(s, c, first);
    if first + [c] <= s {
      var rest := s[|first| + 1..];
      assert s == first + [c] + rest;
      FirstIs(rest, c, second);
      PrefixShifts(first + [c], second + [c], rest);
      assert first + [c] + second + [c] == first + [c] + (second + [c]);
      assert s == first + [c] + second <==> rest == second by { PrefixCancels(first + [c], second, rest); }
    } else {
      NotBelow(s, first + [c], second, c);
    }
    hide Split;
  }

  lemma PrefixCancels(a: string, b: string, c: string)
    ensures a + b == a + c <==> b == c
  {
    assert (a + b)[|a|..] == b && (a + c)[|a|..] == c;
  }

  lemma PrefixShifts(a: string, b: string, c: string)
    ensures a + b <= a + c <==> b <= c
  {
    assert (a + c)[|a|..] == c && (a + b)[|a|..] == b;
    if a + b <= a + c { assert (a + c)[|a|..|a + b|] == (a + b)[|a|..]; }
  }

  lemma NotBelow(s: string, a: string, b: string, c: char)
    requires !(a <= s)
    ensures s != a + b && !(a + b + [c] <= s)
  {
    assert (a + b + [c])[..|a|] == a;
  }

  /** A path is that of a copied directory exactly when it is the container root or below it, and normalized. */
  lemma ContainerPathExactly(path: string)
    ensures ContainerPath(path) <==> (path == "/deps/agent" || "/deps/agent/" <= path) && Normalized(path)
  {
    ContainerPathIs(path, "deps", "agent");
    Literals();
  }

  lemma Literals()
    ensures "/" + ("deps" + ['/'] + "agent") == "/deps/agent"
    ensures "/" + ("deps" + ['/'] + "agent" + ['/']) == "/deps/agent/"
  {}

  lemma ContainerPathIs(path: string, a: string, b: string)
    requires '/' !in a && '/' !in b && a == "deps" && b == "agent"
    ensures ContainerPath(path) <==>
            (path == "/" + (a + ['/'] + b) || "/" + (a + ['/'] + b + ['/']) <= path) && Normalized(path)
  {
    FirstOf(path, '/', "");
    FirstIs(path, '/', "");
    assert "" + ['/'] == "/";
    if "/" <= path {
      var rest, parts := path[1..], Split(path, '/');
      assert path == "/" + rest;
      assert parts[1..] == Split(rest, '/');
      NormalizedParts(rest);
      FirstTwoAre(rest, '/', a, b);
      PartsAfterFirst(parts);
      PrefixCancels("/", a + ['/'] + b, rest);
      PrefixShifts("/", a + ['/'] + b + ['/'], rest);
    } else {
      NotSlashed(path, a + ['/'] + b);
      NotSlashed(path, a + ['/'] + b + ['/']);
    }
    hide Split, Normalized;
  }

  lemma NotSlashed(path: string, rest: string)
    requires !("/" <= path)
    ensures path != "/" + rest && !("/" + rest <= path)
  {
    assert ("/" + rest)[..1] == "/";
  }

  lemma PartsAfterFirst(parts: seq<string>)
    requires parts != []
    ensures (forall i | 1 <= i < |parts| :: PlainPart(parts[i])) <==> forall p <- parts[1..] :: PlainPart(p)
  {
    hide PlainPart;
    assert forall i | 1 <= i < |parts| :: parts[i] == parts[1..][i - 1] && parts[i] in parts[1..];
  }

  // ---- References

  lemma FourParts(path: string, c: char, x: string, y: string, z: string)
    requires c !in x && c !in y && c !in z
    requires path == x + [c] + (y + [c] + z) || x + [c] + (y + [c] + (z + [c])) <= path
    ensures |Split(path, c)| >= 4 <==> x + [c] + (y + [c] + (z + [c])) <= path
  {
    var tail := path[|x| + 1..];
    assert path == x + [c] + tail;
    assert tail == y + [c] + z || y + [c] + (z + [c]) <= tail by {
      PrefixCancels(x + [c], y + [c] + z, tail);
      PrefixShifts(x + [c], y + [c] + (z + [c]), tail);
    }
    FirstOf(path, c, x);
    FirstOf(tail, c, y);
    var rest := tail[|y| + 1..];
    assert tail == y + [c] + rest;
    PrefixCancels(y + [c], z, rest);
    PrefixShifts(y + [c], z + [c], rest);
    FirstOf(rest, c, z);
    PrefixShifts(x + [c], y + [c] + (z + [c]), tail);
    hide Split;
  }

  lemma ModuleIs(m: string, symbol: string)
    requires ':' !in symbol
    ensures RightSplit(m + ":" + symbol) == Some((m, symbol)) && ModuleOf(m + ":" + symbol) == m
  {
    LastColon(m, symbol);
  }

  /** A reference with a slash names a copied module: a symbol of a normalized path below the container root. */
  lemma PathReferenceExactly(m: string, symbol: string, allowEmpty: bool)
    requires ':' !in symbol && '/' in m
    ensures PreloadedReference(m + ":" + symbol, allowEmpty) <==>
            symbol != "" && '\\' !in m && "/deps/agent/" <= m && Normalized(m)
  {
    ModuleIs(m, symbol);
    ContainerPathExactly(m);
    if ContainerPath(m) {
      RootParts();
      FourParts(m, '/', "", "deps", "agent");
    }
    hide RightSplit, ContainerPath, Split, Normalized, ModuleOf;
  }

  lemma RootParts()
    ensures "" + ['/'] + ("deps" + ['/'] + "agent") == "/deps/agent"
    ensures "" + ['/'] + ("deps" + ['/'] + ("agent" + ['/'])) == "/deps/agent/"
    ensures "/deps/agent" != "/deps/agent/"
  {}

  /** Any other reference names an importable one: every part of its module and its symbol is an identifier. */
  lemma DottedReferenceExactly(m: string, symbol: string, allowEmpty: bool)
    requires ':' !in symbol && !IsPathReference(m + ":" + symbol)
    ensures PreloadedReference(m + ":" + symbol, allowEmpty) <==>
            Identifier(symbol) && forall p | HasPart(m, '.', p) :: Identifier(p)
  {
    ModuleIs(m, symbol);
    forall p ensures p in Split(m, '.') <==> HasPart(m, '.', p) { SplitParts(m, '.', p); }
    if m == "" {
      assert PartAt(m, '.', 0, 0) && m[0..0] == "";
      assert HasPart(m, '.', "");
      assert !Identifier("");
    }
    hide RightSplit, HasPart, Split, ModuleOf;
  }
}
