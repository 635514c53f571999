/** JSON-like Python values, and the freezing of them. A dict is its items in order; `Other` stands for
    anything that is not a JSON value, a mapping with a key that is not a string included. */
module JsonValues {
  import opened Wrappers
  import opened OrderedDict

  datatype Json =
    | Null
    | Bool(b: bool)
    | Int(n: int)
    | Float(r: real)
    | NotFinite
    | Str(s: string)
    | List(items: seq<Json>)
    | Tuple(items: seq<Json>)
    | Obj(fields: Dict<Json>)
    | Other

  datatype Frozen =
    | FNull
    | FBool(b: bool)
    | FInt(n: int)
    | FFloat(r: real)
    | FStr(s: string)
    | FTuple(items: seq<Frozen>)
    | FObj(fields: Dict<Frozen>)

  // Finite JSON all the way down.
  predicate Freezable(v: Json) {
    match v
    case NotFinite => false
    case Other => false
    case List(items) => forall i | 0 <= i < |items| :: Freezable(items[i])
    case Tuple(items) => forall i | 0 <= i < |items| :: Freezable(items[i])
    case Obj(fields) => forall i | 0 <= i < |fields| :: Freezable(fields[i].1)
    case _ => true
  }

  function Frost(v: Json): (f: Frozen)
    requires Freezable(v)
    ensures v.Obj? ==> f.FObj?
  {
    match v
    case Null => FNull
    case Bool(b) => FBool(b)
    case Int(n) => FInt(n)
    case Float(r) => FFloat(r)
    case Str(s) => FStr(s)
    case List(items) => FTuple(seq(|items|, i requires 0 <= i < |items| => Frost(items[i])))
    case Tuple(items) => FTuple(seq(|items|, i requires 0 <= i < |items| => Frost(items[i])))
    case Obj(fields) => FObj(seq(|fields|, i requires 0 <= i < |fields| => (fields[i].0, Frost(fields[i].1))))
  }

  /** `_freeze_json`. */
  function Freeze(v: Json): Result<Frozen, ()> {
    if Freezable(v) then Ok(Frost(v)) else Err(())
  }

  /** `_json_value`. */
  function Thaw(f: Frozen): Json {
    match f
    case FNull => Null
    case FBool(b) => Bool(b)
    case FInt(n) => Int(n)
    case FFloat(r) => Float(r)
    case FStr(s) => Str(s)
    case FTuple(items) => List(seq(|items|, i requires 0 <= i < |items| => Thaw(items[i])))
    case FObj(fields) => Obj(seq(|fields|, i requires 0 <= i < |fields| => (fields[i].0, Thaw(fields[i].1))))
  }

  // What reading JSON text gives: no tuples.
  predicate TupleFree(v: Json) {
    match v
    case Tuple(_) => false
    case List(items) => forall i | 0 <= i < |items| :: TupleFree(items[i])
    case Obj(fields) => forall i | 0 <= i < |fields| :: TupleFree(fields[i].1)
    case _ => true
  }

  /** Thawing and freezing again changes nothing. */
  lemma {:induction false} FreezeThaw(f: Frozen)
    ensures Freezable(Thaw(f)) && Frost(Thaw(f)) == f && TupleFree(Thaw(f))
  {
    match f
    case FTuple(items) =>
      forall i | 0 <= i < |items|
        ensures Freezable(Thaw(items[i])) && Frost(Thaw(items[i])) == items[i] && TupleFree(Thaw(items[i]))
      {
        FreezeThaw(items[i]);
      }
    case FObj(fields) =>
      forall i | 0 <= i < |fields|
        ensures Freezable(Thaw(fields[i].1)) && Frost(Thaw(fields[i].1)) == fields[i].1 && TupleFree(Thaw(fields[i].1))
      {
        FreezeThaw(fields[i].1);
      }
      var back := Frost(Thaw(f)).fields;
      assert forall i | 0 <= i < |fields| :: back[i] == (fields[i].0, Frost(Thaw(fields[i].1))) == fields[i];
    case _ =>
  }

  /** A value that can be frozen comes back from thawing exactly when it holds no tuple. */
  lemma ThawFreeze(v: Json)
    requires Freeze(v).Ok?
    ensures Freeze(Thaw(Freeze(v).value)) == Freeze(v)
    ensures Thaw(Freeze(v).value) == v <==> TupleFree(v)
  {
    FreezeThaw(Frost(v));
    if TupleFree(v) { ThawFreezeForward(v); }
  }

  lemma {:induction false} ThawFreezeForward(v: Json)
    requires Freezable(v) && TupleFree(v)
    ensures Thaw(Frost(v)) == v
  {
    match v
    case List(items) =>
      forall i | 0 <= i < |items| ensures Thaw(Frost(items[i])) == items[i] { ThawFreezeForward(items[i]); }
    case Obj(fields) =>
      forall i | 0 <= i < |fields| ensures Thaw(Frost(fields[i].1)) == fields[i].1 { ThawFreezeForward(fields[i].1); }
      var back := Thaw(Frost(v)).fields;
      assert forall i | 0 <= i < |fields| :: back[i] == (fields[i].0, Thaw(Frost(fields[i].1))) == fields[i];
    case _ =>
  }

  // ---- Building objects

  type Slot = (string, Option<Json>)

  /** `_omit_none`. */
  function OmitNone(slots: seq<Slot>): Dict<Json> {
    if slots == [] then []
    else (if slots[0].1.Some? then [(slots[0].0, slots[0].1.value)] else []) + OmitNone(slots[1..])
  }

  // `_validate_allowed`.
  predicate Allowed(fields: Dict<Json>, names: seq<string>) {
    forall i | 0 <= i < |fields| :: fields[i].0 in names
  }

  predicate DistinctNames(slots: seq<Slot>) {
    forall i, j | 0 <= i < j < |slots| :: slots[i].0 != slots[j].0
  }

  lemma {:induction false} OmittedAllowed(slots: seq<Slot>, names: seq<string>)
    requires forall i | 0 <= i < |slots| :: slots[i].0 in names
    ensures Allowed(OmitNone(slots), names)
  {
    if slots != [] { OmittedAllowed(slots[1..], names); }
  }

  lemma {:induction false} GetConcat(a: Dict<Json>, b: Dict<Json>, name: string)
    ensures Get(a + b, name) == if Has(a, name) then Get(a, name) else Get(b, name)
    decreases |a|
  {
    if a == [] {
      assert a + b == b;
    } else {
      assert (a + b)[1..] == a[1..] + b;
      GetConcat(a[1..], b, name);
    }
  }

  lemma {:induction false} GetOmittedNone(slots: seq<Slot>, name: string)
    requires forall i | 0 <= i < |slots| :: slots[i].0 != name
    ensures Get(OmitNone(slots), name) == None
  {
    if slots != [] {
      GetOmittedNone(slots[1..], name);
      GetConcat(if slots[0].1.Some? then [(slots[0].0, slots[0].1.value)] else [], OmitNone(slots[1..]), name);
    }
  }

  /** Looking a slot up gives back what went into it. */
  lemma {:induction false} GetOmitted(slots: seq<Slot>, i: nat)
    requires DistinctNames(slots) && i < |slots|
    ensures Get(OmitNone(slots), slots[i].0) == slots[i].1
  {
    var head := if slots[0].1.Some? then [(slots[0].0, slots[0].1.value)] else [];
    GetConcat(head, OmitNone(slots[1..]), slots[i].0);
    if i == 0 {
      GetOmittedNone(slots[1..], slots[0].0);
    } else {
      GetOmitted(slots[1..], i - 1);
    }
  }
}
