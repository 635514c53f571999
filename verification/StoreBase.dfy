/** What the base store answers, and what changes what it answers: the store a user has, by StoreIsolation. */
module StoreBase {
  import opened Wrappers
  import opened Ordering
  import opened RuntimeStore
  import opened StoreIsolation

  /** A put is read back under its key, keeping when the item was first put, and changes nothing else. */
  lemma {:induction false} PutIsRead(
    s: seq<Item>, namespace: Namespace, key: string, value: Fields, now: nat, other: Namespace, otherKey: string)
    ensures
      Lookup(After(s, Put(namespace, key, Some(value), now)), other, otherKey) ==
      if other == namespace && otherKey == key
      then
        var before := Lookup(s, namespace, key);
        Some(Item(namespace, key, value, if before.Some? then before.value.createdAt else now, now))
      else Lookup(s, other, otherKey)
  {
    if s != [] && !At(s[0], namespace, key) {
      PutIsRead(s[1..], namespace, key, value, now, other, otherKey);
      assert Written(s, namespace, key, value, now)[1..] == Written(s[1..], namespace, key, value, now);
    } else if s != [] {
      assert Written(s, namespace, key, value, now)[1..] == s[1..];
    } else {
      assert Written(s, namespace, key, value, now)[1..] == [];
    }
  }

  /** A delete leaves nothing under its key, and changes nothing else. */
  lemma {:induction false} DeleteIsRead(
    s: seq<Item>, namespace: Namespace, key: string, now: nat, other: Namespace, otherKey: string)
    ensures
      Lookup(After(s, Put(namespace, key, None, now)), other, otherKey) ==
      if other == namespace && otherKey == key then None else Lookup(s, other, otherKey)
  {
    if s != [] {
      DeleteIsRead(s[1..], namespace, key, now, other, otherKey);
      if !At(s[0], namespace, key) { assert Removed(s, namespace, key)[1..] == Removed(s[1..], namespace, key); }
    }
  }

  /** A get answers what is under its key. */
  lemma {:induction false} GetFinds(s: seq<Item>, namespace: Namespace, key: string)
    ensures Answer(s, Get(namespace, key)).Nothing? <==>
            forall item <- s :: !(item.namespace == namespace && item.key == key)
    ensures
      var r := Answer(s, Get(namespace, key));
      !r.Nothing? ==> r.Found? && r.item in s && r.item.namespace == namespace && r.item.key == key
  {
    if s != [] {
      GetFinds(s[1..], namespace, key);
      assert s == [s[0]] + s[1..];
    }
  }

  // The items a search is about: those below its prefix with the fields of its filter.
  predicate Matches(item: Item, prefix: Namespace, filter: Fields) {
    && |prefix| <= |item.namespace| && item.namespace[..|prefix|] == prefix
    && forall k <- filter :: k in item.value && item.value[k] == filter[k]
  }

  /** A search selects them all, in the order in which they were first put. */
  lemma {:induction false} SelectedExactly(s: seq<Item>, prefix: Namespace, filter: Fields, i: nat)
    requires i <= |s|
    ensures forall item :: item in Selected(s, prefix, filter) <==> item in s && Matches(item, prefix, filter)
    ensures Selected(s, prefix, filter) == Selected(s[..i], prefix, filter) + Selected(s[i..], prefix, filter)
  {
    SelectedElements(s, prefix, filter);
    SelectedInOrder(s[..i], s[i..], prefix, filter);
    assert s == s[..i] + s[i..];
    hide Selected, Matches;
  }

  lemma {:induction false} SelectedElements(s: seq<Item>, prefix: Namespace, filter: Fields)
    ensures forall item :: item in Selected(s, prefix, filter) <==> item in s && Matches(item, prefix, filter)
  {
    if s != [] {
      SelectedElements(s[1..], prefix, filter);
      assert s == [s[0]] + s[1..];
    }
  }

  lemma {:induction false} SelectedInOrder(a: seq<Item>, b: seq<Item>, prefix: Namespace, filter: Fields)
    ensures Selected(a + b, prefix, filter) == Selected(a, prefix, filter) + Selected(b, prefix, filter)
    decreases |a|
  {
    if a == [] {
      assert a + b == b;
    } else {
      assert (a + b)[1..] == a[1..] + b;
      SelectedInOrder(a[1..], b, prefix, filter);
    }
  }

  /** A page is the part of a list that its limit and offset name, as far as the list goes. */
  lemma PageExactly<T>(s: seq<T>, offset: nat, limit: nat)
    ensures
      var page := Page(s, offset, limit);
      && |page| == (if offset >= |s| then 0 else if offset + limit >= |s| then |s| - offset else limit)
      && forall i | 0 <= i < |page| :: page[i] == s[offset + i]
  {}

  // A namespace meets a condition: `*` stands for any one part.
  predicate Meets(c: Condition, namespace: Namespace) {
    && |c.path| <= |namespace|
    && var part := if c.matchType.Prefix? then namespace[..|c.path|] else namespace[|namespace| - |c.path|..];
       forall i | 0 <= i < |c.path| :: c.path[i] == "*" || c.path[i] == part[i]
  }

  /** The namespaces of a listing: those of some item that meet every condition, cut to the depth asked for. */
  lemma {:induction false} NamesExactly(s: seq<Item>, conditions: seq<Condition>, depth: Option<int>, name: Namespace)
    requires depth.Some? ==> depth.value >= 0
    ensures name in Names(s, conditions, depth) <==>
      exists item <- s ::
        && (forall c <- conditions :: Meets(c, item.namespace))
        && name == if depth.Some? && depth.value < |item.namespace| then item.namespace[..depth.value] else item.namespace
  {
    if s != [] {
      NamesExactly(s[1..], conditions, depth, name);
      assert s == [s[0]] + s[1..];
      MeetsIsHolds(conditions, s[0].namespace);
    }
  }

  lemma MeetsIsHolds(conditions: seq<Condition>, namespace: Namespace)
    ensures AllHold(conditions, namespace) <==> forall c <- conditions :: Meets(c, namespace)
  {
    forall c <- conditions ensures Holds(c, namespace) <==> Meets(c, namespace) {
      if |c.path| <= |namespace| { assert forall i | 0 <= i < |c.path| :: namespace[..|c.path|][i] == namespace[i]; }
    }
  }
}
