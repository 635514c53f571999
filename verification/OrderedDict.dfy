/** A Python dict with string keys: its items in insertion order. Assigning to a key that is present
    keeps its place; a popped key that comes back goes last. */
module OrderedDict {
  import opened Wrappers

  type Dict<V> = seq<(string, V)>

  function Get<V>(d: Dict<V>, key: string): Option<V> {
    if d == [] then None else if d[0].0 == key then Some(d[0].1) else Get(d[1..], key)
  }

  predicate Has<V>(d: Dict<V>, key: string) { Get(d, key).Some? }

  function Put<V>(d: Dict<V>, key: string, value: V): Dict<V> {
    if d == [] then [(key, value)]
    else if d[0].0 == key then [(key, value)] + d[1..]
    else [d[0]] + Put(d[1..], key, value)
  }

  function Pop<V>(d: Dict<V>, key: string): Dict<V> {
    if d == [] then []
    else if d[0].0 == key then Pop(d[1..], key)
    else [d[0]] + Pop(d[1..], key)
  }

  function PutOrPop<V>(d: Dict<V>, key: string, value: Option<V>): Dict<V> {
    if value.Some? then Put(d, key, value.value) else Pop(d, key)
  }

  // A dict lists each key once.
  ghost predicate Unique<V>(d: Dict<V>) {
    forall i, j | 0 <= i < j < |d| :: d[i].0 != d[j].0
  }

  lemma {:induction false} GetPut<V>(d: Dict<V>, key: string, value: V, other: string)
    ensures Get(Put(d, key, value), other) == if other == key then Some(value) else Get(d, other)
  {
    if d != [] && d[0].0 != key {
      GetPut(d[1..], key, value, other);
      assert Put(d, key, value)[1..] == Put(d[1..], key, value);
    } else if d == [] {
      assert Put(d, key, value)[1..] == [];
    } else {
      assert Put(d, key, value)[1..] == d[1..];
    }
  }

  lemma {:induction false} GetPop<V>(d: Dict<V>, key: string, other: string)
    ensures Get(Pop(d, key), other) == if other == key then None else Get(d, other)
  {
    if d != [] {
      GetPop(d[1..], key, other);
      if d[0].0 != key { assert Pop(d, key)[1..] == Pop(d[1..], key); }
    }
  }

  lemma GetPutOrPop<V>(d: Dict<V>, key: string, value: Option<V>, other: string)
    ensures Get(PutOrPop(d, key, value), other) == if other == key then value else Get(d, other)
  {
    if value.Some? { GetPut(d, key, value.value, other); } else { GetPop(d, key, other); }
  }

  lemma {:induction false} GetIn<V>(d: Dict<V>, key: string)
    ensures Has(d, key) <==> exists i :: 0 <= i < |d| && d[i].0 == key
    ensures Has(d, key) ==> (key, Get(d, key).value) in d
  {
    if d != [] {
      GetIn(d[1..], key);
      assert d == [d[0]] + d[1..];
      if d[0].0 != key && exists i :: 0 <= i < |d| && d[i].0 == key {
        var i :| 0 <= i < |d| && d[i].0 == key;
        assert d[1..][i - 1].0 == key;
      }
    }
  }

  lemma {:induction false} GetAt<V>(d: Dict<V>, i: nat)
    requires Unique(d) && i < |d|
    ensures Get(d, d[i].0) == Some(d[i].1)
  {
    if i > 0 {
      assert d[0].0 != d[i].0;
      GetAt(d[1..], i - 1);
    }
  }
}
