/** The base store and the per-user wrapper as the objects they are. */
module StoreWrapper {
  import opened Wrappers
  import opened RuntimeStore
  import opened StoreIsolation

  class BaseStore {
    var items: seq<Item>
    const readsFirst: bool

    constructor (readsFirst: bool)
      ensures items == [] && this.readsFirst == readsFirst
    {
      items, this.readsFirst := [], readsFirst;
    }

    method Batch(ops: seq<Op>) returns (replies: seq<Reply>)
      modifies this
      ensures replies == Answers(readsFirst, old(items), ops)
      ensures items == AfterAll(old(items), ops)
    {
      replies := Answers(readsFirst, items, ops);
      items := AfterAll(items, ops);
    }

    // The base class turns each direct method into a batch of one operation.
    method One(op: Op) returns (reply: Reply)
      modifies this
      ensures reply == Answer(old(items), op) && items == After(old(items), op)
    {
      var replies := Batch([op]);
      assert [op][1..] == [];
      reply := replies[0];
    }

    method ListNamespaces(prefix: Namespace, suffix: Namespace, maxDepth: Option<int>, limit: nat, offset: nat)
      returns (namespaces: seq<Element>)
      modifies this
      ensures items == old(items)
      ensures Many(namespaces) ==
              Answer(items, Op.ListNamespaces(Some(KeywordConditions(prefix, suffix)), maxDepth, limit, offset))
    {
      var reply := One(Op.ListNamespaces(Some(KeywordConditions(prefix, suffix)), maxDepth, limit, offset));
      namespaces := reply.elements;
    }
  }

  function Single(reply: Result<Reply, ()>): Result<seq<Reply>, ()> {
    match reply case Err(_) => Err(()) case Ok(r) => Ok([r])
  }

  /** A call with one operation is that operation scoped, answered and stripped. */
  lemma ServeOne(readsFirst: bool, p: Namespace, s: seq<Item>, op: Op)
    ensures Serve(readsFirst, p, s, [op]) ==
            (After(s, ScopeOp(p, op)), Single(StripReply(p, Answer(s, ScopeOp(p, op)))))
  {
    var scoped := ScopeOps(p, [op]);
    assert scoped == [ScopeOp(p, op)] && scoped[1..] == [];
    assert AfterAll(s, scoped) == AfterAll(After(s, scoped[0]), scoped[1..]) == After(s, scoped[0]);
    var replies := Answers(readsFirst, s, scoped);
    assert replies[0] == Answer(s, ScopeOp(p, op)) && replies[..0] == [];
    assert StripReplies(p, replies[..0]) == Ok([]);
    match StripReply(p, replies[0]) {
      case Err(_) =>
      case Ok(r) => assert [] + [r] == [r];
    }
  }

  /** Every direct method is specified by `Serve` on a batch of one, so it agrees with `Batch`. */
  class UserScopedStore {
    const store: BaseStore
    const userPrefix: Namespace

    constructor (store: BaseStore, userId: string)
      ensures this.store == store && userPrefix == UserPrefix(userId)
    {
      this.store, userPrefix := store, UserPrefix(userId);
    }

    ghost function Served(ops: seq<Op>): (seq<Item>, Result<seq<Reply>, ()>)
      reads store
    {
      Serve(store.readsFirst, userPrefix, store.items, ops)
    }

    /** `_scope_namespace_conditions`. */
    method ScopeNamespaceConditions(conditions: Option<seq<Condition>>) returns (scoped: seq<Condition>)
      ensures scoped == ScopeConditions(userPrefix, Given(conditions))
    {
      var given := if conditions.None? then [] else conditions.value;
      scoped := [];
      var sawPrefix := false;
      for i := 0 to |given|
        invariant scoped == ScopeEach(userPrefix, given[..i])
        invariant sawPrefix <==> HasPrefix(given[..i])
      {
        assert given[..i + 1] == given[..i] + [given[i]];
        var condition := ScopeCondition(userPrefix, given[i]);
        if condition.matchType.Prefix? {
          sawPrefix := true;
          assert given[..i + 1][i] in given[..i + 1];
        }
        scoped := scoped + [condition];
      }
      assert given[..|given|] == given;
      if !sawPrefix { scoped := [Condition(Prefix, userPrefix)] + scoped; }
    }

    /** `_strip_batch_result`. */
    method StripBatchResult(reply: Reply) returns (r: Result<Reply, ()>)
      ensures r == StripReply(userPrefix, reply)
    {
      match reply
      case Nothing => r := Ok(Nothing);
      case Found(item) =>
        var stripped := StripItem(userPrefix, item);
        if stripped.Err? { return Err(()); }
        r := Ok(Found(stripped.value));
      case Many(elements) =>
        var stripped: seq<Element> := [];
        for i := 0 to |elements|
          invariant StripElements(userPrefix, elements[..i]) == Ok(stripped)
        {
          assert elements[..i + 1][..i] == elements[..i];
          var e := StripElement(userPrefix, elements[i]);
          if e.Err? {
            StripStops(userPrefix, elements, i + 1);
            return Err(());
          }
          stripped := stripped + [e.value];
        }
        assert elements[..|elements|] == elements;
        r := Ok(Many(stripped));
    }

    /** `batch`. */
    method Batch(ops: seq<Op>) returns (r: Result<seq<Reply>, ()>)
      modifies store
      ensures (store.items, r) == old(Served(ops))
    {
      var scopedOps: seq<Op> := [];
      for i := 0 to |ops|
        invariant scopedOps == ScopeOps(userPrefix, ops[..i])
        invariant store.items == old(store.items)
      {
        var op := ops[i];
        if op.ListNamespaces? {
          var conditions := ScopeNamespaceConditions(op.matchConditions);
          var maxDepth := if op.maxDepth.None? then None else Some(|userPrefix| + op.maxDepth.value);
          op := Op.ListNamespaces(Some(conditions), maxDepth, op.limit, op.offset);
        } else {
          op := ScopeOp(userPrefix, op);
        }
        scopedOps := scopedOps + [op];
      }
      assert ops[..|ops|] == ops;
      var results := store.Batch(scopedOps);
      var stripped: seq<Reply> := [];
      for i := 0 to |results|
        invariant StripReplies(userPrefix, results[..i]) == Ok(stripped)
        invariant store.items == old(Served(ops)).0
      {
        assert results[..i + 1][..i] == results[..i];
        var one := StripBatchResult(results[i]);
        if one.Err? {
          StripRepliesStop(userPrefix, results, i + 1);
          return Err(());
        }
        stripped := stripped + [one.value];
      }
      assert results[..|results|] == results;
      r := Ok(stripped);
    }

    /** `put` and, with no value, `delete`. */
    method Put(namespace: Namespace, key: string, value: Option<Fields>, now: nat)
      modifies store
      ensures (store.items, Single(Ok(Nothing))) == old(Served([Op.Put(namespace, key, value, now)]))
    {
      ServeOne(store.readsFirst, userPrefix, store.items, Op.Put(namespace, key, value, now));
      var reply := store.One(Op.Put(userPrefix + namespace, key, value, now));
    }

    method Get(namespace: Namespace, key: string) returns (r: Result<Reply, ()>)
      modifies store
      ensures (store.items, Single(r)) == old(Served([Op.Get(namespace, key)]))
    {
      ServeOne(store.readsFirst, userPrefix, store.items, Op.Get(namespace, key));
      var reply := store.One(Op.Get(userPrefix + namespace, key));
      r := StripBatchResult(reply);
    }

    method Search(namespacePrefix: Namespace, filter: Fields, limit: nat, offset: nat)
      returns (r: Result<Reply, ()>)
      modifies store
      ensures (store.items, Single(r)) == old(Served([Op.Search(namespacePrefix, filter, limit, offset)]))
    {
      ServeOne(store.readsFirst, userPrefix, store.items, Op.Search(namespacePrefix, filter, limit, offset));
      var reply := store.One(Op.Search(userPrefix + namespacePrefix, filter, limit, offset));
      r := StripBatchResult(reply);
    }

    method ListNamespaces(prefix: Namespace, suffix: Namespace, maxDepth: Option<int>, limit: nat, offset: nat)
      returns (r: Result<Reply, ()>)
      requires |userPrefix| == 2
      modifies store
      ensures (store.items, Single(r)) ==
              old(Served([Op.ListNamespaces(Some(KeywordConditions(prefix, suffix)), maxDepth, limit, offset)]))
    {
      var op := Op.ListNamespaces(Some(KeywordConditions(prefix, suffix)), maxDepth, limit, offset);
      ServeOne(store.readsFirst, userPrefix, store.items, op);
      DirectListingIsBatched(userPrefix, prefix, suffix);
      var scopedMaxDepth := if maxDepth.None? then None else Some(|userPrefix| + maxDepth.value);
      var namespaces := store.ListNamespaces(userPrefix + prefix, suffix, scopedMaxDepth, limit, offset);
      r := StripBatchResult(Many(namespaces));
    }
  }

  // Once stripping has failed it stays failed.
  lemma {:induction false} StripStops(p: Namespace, es: seq<Element>, n: nat)
    requires n <= |es| && StripElements(p, es[..n]) == Err(())
    ensures StripElements(p, es) == Err(())
    decreases |es| - n
  {
    if n < |es| {
      assert es[..n + 1][..n] == es[..n];
      StripStops(p, es, n + 1);
    } else {
      assert es[..n] == es;
    }
  }

  lemma {:induction false} StripRepliesStop(p: Namespace, replies: seq<Reply>, n: nat)
    requires n <= |replies| && StripReplies(p, replies[..n]) == Err(())
    ensures StripReplies(p, replies) == Err(())
    decreases |replies| - n
  {
    if n < |replies| {
      assert replies[..n + 1][..n] == replies[..n];
      StripRepliesStop(p, replies, n + 1);
    } else {
      assert replies[..n] == replies;
    }
  }
}
