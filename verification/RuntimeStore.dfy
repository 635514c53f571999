/**
  The shared store and the wrapper that gives each user a namespace of its own in it. The base store
  keeps its items in the order they were first put; a put to an existing key replaces the value in
  place. Values are string-keyed fields, and a filter asks for equal fields. The clock is a parameter.
*/
module RuntimeStore {
  import opened Wrappers
  import opened Ordering

  type Namespace = seq<string>
  type Fields = map<string, string>

  datatype Item = Item(namespace: Namespace, key: string, value: Fields, createdAt: nat, updatedAt: nat)

  datatype MatchType = Prefix | Suffix

  datatype Condition = Condition(matchType: MatchType, path: Namespace)

  datatype Op =
    | Put(namespace: Namespace, key: string, value: Option<Fields>, now: nat)   // None deletes
    | Get(namespace: Namespace, key: string)
    | Search(namespacePrefix: Namespace, filter: Fields, limit: nat, offset: nat)
    | ListNamespaces(matchConditions: Option<seq<Condition>>, maxDepth: Option<int>, limit: nat, offset: nat)

  datatype Element = Name(namespace: Namespace) | Hit(item: Item)

  datatype Reply = Nothing | Found(item: Item) | Many(elements: seq<Element>)

  // ---- The base store

  predicate At(item: Item, namespace: Namespace, key: string) {
    item.namespace == namespace && item.key == key
  }

  function Lookup(s: seq<Item>, namespace: Namespace, key: string): Option<Item> {
    if s == [] then None
    else if At(s[0], namespace, key) then Some(s[0])
    else Lookup(s[1..], namespace, key)
  }

  function Written(s: seq<Item>, namespace: Namespace, key: string, value: Fields, now: nat): seq<Item> {
    if s == [] then [Item(namespace, key, value, now, now)]
    else if At(s[0], namespace, key) then [s[0].(value := value, updatedAt := now)] + s[1..]
    else [s[0]] + Written(s[1..], namespace, key, value, now)
  }

  function Removed(s: seq<Item>, namespace: Namespace, key: string): seq<Item> {
    if s == [] then []
    else if At(s[0], namespace, key) then Removed(s[1..], namespace, key)
    else [s[0]] + Removed(s[1..], namespace, key)
  }

  predicate Satisfies(value: Fields, filter: Fields) {
    forall k <- filter :: k in value && value[k] == filter[k]
  }

  function Selected(s: seq<Item>, prefix: Namespace, filter: Fields): seq<Item> {
    if s == [] then []
    else if prefix <= s[0].namespace && Satisfies(s[0].value, filter) then [s[0]] + Selected(s[1..], prefix, filter)
    else Selected(s[1..], prefix, filter)
  }

  predicate Fits(pattern: string, name: string) { pattern == "*" || pattern == name }

  predicate Holds(c: Condition, namespace: Namespace) {
    && |c.path| <= |namespace|
    && match c.matchType
       case Prefix => forall i | 0 <= i < |c.path| :: Fits(c.path[i], namespace[i])
       case Suffix => forall i | 0 <= i < |c.path| :: Fits(c.path[i], namespace[|namespace| - |c.path|..][i])
  }

  predicate AllHold(conditions: seq<Condition>, namespace: Namespace) {
    forall c <- conditions :: Holds(c, namespace)
  }

  // Python's namespace[:depth].
  function Truncated(namespace: Namespace, depth: Option<int>): Namespace {
    match depth
    case None => namespace
    case Some(d) =>
      var end := if d >= 0 then d else |namespace| + d;
      if end <= 0 then [] else if end >= |namespace| then namespace else namespace[..end]
  }

  function Names(s: seq<Item>, conditions: seq<Condition>, depth: Option<int>): seq<Namespace> {
    if s == [] then []
    else if AllHold(conditions, s[0].namespace)
    then [Truncated(s[0].namespace, depth)] + Names(s[1..], conditions, depth)
    else Names(s[1..], conditions, depth)
  }

  function Page<T>(s: seq<T>, offset: nat, limit: nat): seq<T> {
    var from := if offset <= |s| then offset else |s|;
    var to := if from + limit <= |s| then from + limit else |s|;
    s[from..to]
  }

  function Given(conditions: Option<seq<Condition>>): seq<Condition> {
    if conditions.None? then [] else conditions.value
  }

  function Answer(s: seq<Item>, op: Op): Reply {
    match op
    case Put(_, _, _, _) => Nothing
    case Get(namespace, key) =>
      (match Lookup(s, namespace, key) case None => Nothing case Some(item) => Found(item))
    case Search(prefix, filter, limit, offset) =>
      var page := Page(Selected(s, prefix, filter), offset, limit);
      Many(seq(|page|, i requires 0 <= i < |page| => Hit(page[i])))
    case ListNamespaces(conditions, depth, limit, offset) =>
      var page := Page(SortedSet(TupleLess, Names(s, Given(conditions), depth)), offset, limit);
      Many(seq(|page|, i requires 0 <= i < |page| => Name(page[i])))
  }

  function After(s: seq<Item>, op: Op): seq<Item> {
    match op
    case Put(namespace, key, Some(value), now) => Written(s, namespace, key, value, now)
    case Put(namespace, key, None, _) => Removed(s, namespace, key)
    case _ => s
  }

  function AfterAll(s: seq<Item>, ops: seq<Op>): seq<Item>
    decreases |ops|
  {
    if ops == [] then s else AfterAll(After(s, ops[0]), ops[1..])
  }

  /** A batch answers each operation either as it comes to it or, when the base store groups reads
      before writes, on the state the batch started from. */
  function Answers(readsFirst: bool, s: seq<Item>, ops: seq<Op>): (replies: seq<Reply>)
    ensures |replies| == |ops|
    decreases |ops|
  {
    if ops == [] then []
    else [Answer(s, ops[0])] + Answers(readsFirst, if readsFirst then s else After(s, ops[0]), ops[1..])
  }

  // ---- The wrapper

  const ROOT := "__agentseek_users__"

  function UserPrefix(userId: string): (p: Namespace)
    ensures |p| == 2
  {
    [ROOT, userId]
  }

  function StripNamespace(p: Namespace, namespace: Namespace): Result<Namespace, ()> {
    if p <= namespace then Ok(namespace[|p|..]) else Err(())
  }

  function StripItem(p: Namespace, item: Item): Result<Item, ()> {
    match StripNamespace(p, item.namespace)
    case Err(_) => Err(())
    case Ok(namespace) => Ok(item.(namespace := namespace))
  }

  function StripElement(p: Namespace, e: Element): Result<Element, ()> {
    match e
    case Name(namespace) =>
      (match StripNamespace(p, namespace) case Err(_) => Err(()) case Ok(n) => Ok(Name(n)))
    case Hit(item) =>
      (match StripItem(p, item) case Err(_) => Err(()) case Ok(i) => Ok(Hit(i)))
  }

  function StripElements(p: Namespace, es: seq<Element>): Result<seq<Element>, ()> {
    if es == [] then Ok([]) else
      match StripElements(p, es[..|es| - 1])
      case Err(_) => Err(())
      case Ok(front) =>
        match StripElement(p, es[|es| - 1])
        case Err(_) => Err(())
        case Ok(e) => Ok(front + [e])
  }

  function StripReply(p: Namespace, reply: Reply): Result<Reply, ()> {
    match reply
    case Nothing => Ok(Nothing)
    case Found(item) => (match StripItem(p, item) case Err(_) => Err(()) case Ok(i) => Ok(Found(i)))
    case Many(es) => (match StripElements(p, es) case Err(_) => Err(()) case Ok(stripped) => Ok(Many(stripped)))
  }

  function StripReplies(p: Namespace, replies: seq<Reply>): Result<seq<Reply>, ()> {
    if replies == [] then Ok([]) else
      match StripReplies(p, replies[..|replies| - 1])
      case Err(_) => Err(())
      case Ok(front) =>
        match StripReply(p, replies[|replies| - 1])
        case Err(_) => Err(())
        case Ok(r) => Ok(front + [r])
  }

  function ScopeCondition(p: Namespace, c: Condition): Condition {
    if c.matchType.Prefix? then Condition(Prefix, p + c.path) else c
  }

  function ScopeEach(p: Namespace, conditions: seq<Condition>): seq<Condition> {
    seq(|conditions|, i requires 0 <= i < |conditions| => ScopeCondition(p, conditions[i]))
  }

  predicate HasPrefix(conditions: seq<Condition>) {
    exists c <- conditions :: c.matchType.Prefix?
  }

  function ScopeConditions(p: Namespace, conditions: seq<Condition>): seq<Condition> {
    (if HasPrefix(conditions) then [] else [Condition(Prefix, p)]) + ScopeEach(p, conditions)
  }

  function ScopeDepth(p: Namespace, depth: Option<int>): Option<int> {
    match depth case None => None case Some(d) => Some(|p| + d)
  }

  function ScopeOp(p: Namespace, op: Op): Op {
    match op
    case Put(namespace, key, value, now) => Put(p + namespace, key, value, now)
    case Get(namespace, key) => Get(p + namespace, key)
    case Search(prefix, filter, limit, offset) => Search(p + prefix, filter, limit, offset)
    case ListNamespaces(conditions, depth, limit, offset) =>
      ListNamespaces(Some(ScopeConditions(p, Given(conditions))), ScopeDepth(p, depth), limit, offset)
  }

  function ScopeOps(p: Namespace, ops: seq<Op>): seq<Op> {
    seq(|ops|, i requires 0 <= i < |ops| => ScopeOp(p, ops[i]))
  }

  /** What one call through the wrapper of the user with prefix `p` does to the shared store and what
      that user gets back. */
  function Serve(readsFirst: bool, p: Namespace, s: seq<Item>, ops: seq<Op>)
    : (seq<Item>, Result<seq<Reply>, ()>)
  {
    (AfterAll(s, ScopeOps(p, ops)), StripReplies(p, Answers(readsFirst, s, ScopeOps(p, ops))))
  }

  /** The part of the shared store below prefix `p`, as a store of its own. */
  function View(p: Namespace, s: seq<Item>): seq<Item> {
    if s == [] then []
    else if p <= s[0].namespace then [s[0].(namespace := s[0].namespace[|p|..])] + View(p, s[1..])
    else View(p, s[1..])
  }
}
