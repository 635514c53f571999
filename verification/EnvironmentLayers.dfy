/** The in-place merge meets a simple specification: proofs about `Environment`. */
module EnvironmentLayers {
  import opened Wrappers
  import opened OrderedDict
  import opened Environment

  // ---- The specification: the highest layer that assigns a variable decides

  datatype Assignment = Assignment(key: string, value: string, origin: Origin, missing: Option<set<string>>)

  // What the first `n` items of the layer assign to the variable `name` stands for, last item first.
  function SaysUpTo(p: Platform, layer: Layer, name: string, n: nat): Option<Assignment>
    requires n <= |layer.values| && Sourced(layer)
  {
    if n == 0 then None
    else
      var key, value := layer.values[n - 1].0, layer.values[n - 1].1;
      if value.Some? && Same(p, key, name)
      then Some(Assignment(key, value.value, Get(layer.origins, key).value, Get(layer.unresolved, key)))
      else SaysUpTo(p, layer, name, n - 1)
  }

  function Says(p: Platform, layer: Layer, name: string): Option<Assignment>
    requires Sourced(layer)
  {
    SaysUpTo(p, layer, name, |layer.values|)
  }

  function Winner(p: Platform, layers: seq<Layer>, name: string): Option<Assignment>
    requires forall l <- layers :: Sourced(l)
  {
    if layers == [] then None else
      var top := Says(p, layers[|layers| - 1], name);
      if top.Some? then top else Winner(p, layers[..|layers| - 1], name)
  }

  datatype Reading = Reading(value: Option<string>, origin: Option<Origin>, missing: Option<set<string>>)

  const UNSET := Reading(None, None, None)

  function Read(env: Env, name: string): Reading {
    Reading(Get(env.values, name), Get(env.origins, name), Get(env.unresolved, name))
  }

  // A variable is set under the spelling of the layer that assigned it, and under no other.
  function Shown(a: Option<Assignment>, name: string): Reading {
    if a.Some? && a.value.key == name then Reading(Some(a.value.value), Some(a.value.origin), a.value.missing)
    else UNSET
  }

  /** Values and origins have the same keys, nothing else is unresolved, and no two keys stand for the
      same variable. */
  ghost predicate Clean(p: Platform, env: Env) {
    && (forall k :: Has(env.origins, k) <==> Has(env.values, k))
    && (forall k :: Has(env.unresolved, k) ==> Has(env.values, k))
    && (forall j, k :: Has(env.values, j) && Has(env.values, k) && Same(p, j, k) ==> j == k)
  }

  // ---- One assignment

  lemma {:induction false} PreviousIsSame(p: Platform, d: Dict<string>, key: string)
    ensures Previous(p, d, key).Some? ==> Has(d, Previous(p, d, key).value) && Same(p, Previous(p, d, key).value, key)
    ensures Previous(p, d, key).None? && p.Windows? ==> forall k :: Has(d, k) ==> !Same(p, k, key)
  {
    if d != [] { PreviousIsSame(p, d[1..], key); }
  }

  lemma ClearedReads(p: Platform, env: Env, key: string, name: string)
    requires Clean(p, env)
    ensures Read(Cleared(p, env, key), name) == if name != key && Same(p, key, name) then UNSET else Read(env, name)
  {
    PreviousIsSame(p, env.values, key);
    var previous := Previous(p, env.values, key);
    if previous.Some? && previous.value != key {
      GetPop(env.values, previous.value, name);
      GetPop(env.origins, previous.value, name);
      GetPop(env.unresolved, previous.value, name);
      assert Same(p, previous.value, key);
      if name != previous.value && Same(p, key, name) {
        assert !Has(env.values, name) by { assert Same(p, previous.value, name); }
      }
    } else if name != key && Same(p, key, name) {
      assert !Has(env.values, name);
    }
  }

  lemma AssignedReads(
    p: Platform, env: Env, key: string, value: string, origin: Origin, missing: Option<set<string>>, name: string)
    requires Clean(p, env)
    ensures Read(Assigned(p, env, key, value, origin, missing), name) ==
            if Same(p, key, name) then Shown(Some(Assignment(key, value, origin, missing)), name) else Read(env, name)
  {
    ClearedReads(p, env, key, name);
    var cleared := Cleared(p, env, key);
    GetPut(cleared.values, key, value, name);
    GetPut(cleared.origins, key, origin, name);
    GetPutOrPop(cleared.unresolved, key, missing, name);
  }

  lemma AssignedIsClean(
    p: Platform, env: Env, key: string, value: string, origin: Origin, missing: Option<set<string>>)
    requires Clean(p, env)
    ensures Clean(p, Assigned(p, env, key, value, origin, missing))
  {
    var next := Assigned(p, env, key, value, origin, missing);
    forall k ensures Read(next, k) ==
                     if Same(p, key, k) then Shown(Some(Assignment(key, value, origin, missing)), k) else Read(env, k)
    {
      AssignedReads(p, env, key, value, origin, missing, k);
    }
    hide Assigned, Get;
    forall k
      ensures Has(next.origins, k) <==> Has(next.values, k)
      ensures Has(next.unresolved, k) ==> Has(next.values, k)
    {
      assert Read(next, k) == Reading(Get(next.values, k), Get(next.origins, k), Get(next.unresolved, k));
      assert Read(env, k) == Reading(Get(env.values, k), Get(env.origins, k), Get(env.unresolved, k));
      assert Has(env.origins, k) <==> Has(env.values, k);
    }
    forall j, k | Has(next.values, j) && Has(next.values, k) && Same(p, j, k) ensures j == k {
      assert Read(next, j).value == Get(next.values, j) && Read(next, k).value == Get(next.values, k);
    }
  }

  // ---- One layer, all layers

  lemma {:induction false} MergeReads(p: Platform, env: Env, layer: Layer, n: nat, name: string)
    requires Clean(p, env) && n <= |layer.values| && Sourced(layer)
    ensures Clean(p, MergedUpTo(p, env, layer, n))
    ensures Read(MergedUpTo(p, env, layer, n), name) ==
            if SaysUpTo(p, layer, name, n).Some? then Shown(SaysUpTo(p, layer, name, n), name) else Read(env, name)
  {
    if n > 0 {
      MergeReads(p, env, layer, n - 1, name);
      var before := MergedUpTo(p, env, layer, n - 1);
      var key, value := layer.values[n - 1].0, layer.values[n - 1].1;
      if value.Some? {
        var origin, missing := Get(layer.origins, key).value, Get(layer.unresolved, key);
        AssignedReads(p, before, key, value.value, origin, missing, name);
        AssignedIsClean(p, before, key, value.value, origin, missing);
      }
      hide Assigned, Clean;
    }
  }

  lemma {:induction false} MergeAllReads(p: Platform, layers: seq<Layer>, name: string)
    requires forall l <- layers :: Sourced(l)
    ensures Clean(p, MergedAll(p, layers))
    ensures Read(MergedAll(p, layers), name) == Shown(Winner(p, layers, name), name)
  {
    if layers != [] {
      var front, top := layers[..|layers| - 1], layers[|layers| - 1];
      MergeAllReads(p, front, name);
      MergeReads(p, MergedAll(p, front), top, |top.values|, name);
      hide Clean;
    }
  }

  /** What a successful resolution says about a name is what the highest layer assigning that variable
      says: value, origin and missing references, under that layer's spelling only. On POSIX a name
      is its own only spelling; on Windows no two result keys differ only by case. */
  lemma HighestLayerWins(p: Platform, plan: Plan, policy: Policy, compatibility: set<string>, name: string)
    requires Resolve(p, plan, policy, compatibility).Ok?
    ensures
      var env := Resolve(p, plan, policy, compatibility).value;
      Clean(p, env) && Read(env, name) == Shown(Winner(p, Layers(p, plan, policy, compatibility), name), name)
  {
    MergeAllReads(p, Layers(p, plan, policy, compatibility), name);
  }

  // ---- The order of the layers

  function Rank(kind: SourceKind): nat {
    match kind
    case ConfigDotenv => 0
    case ConfigMapping => 1
    case Auth => 2
    case CliDotenv => 3
    case Launch => 4
    case Command => 5
  }

  ghost predicate Ranked(layers: seq<Layer>) {
    forall i, j | 0 <= i < j < |layers| :: Rank(layers[i].kind) <= Rank(layers[j].kind)
  }

  /** The layers come in the documented order, so among ranks the winner's is the highest. */
  lemma LayersAreRanked(p: Platform, plan: Plan, policy: Policy, compatibility: set<string>)
    ensures Ranked(Layers(p, plan, policy, compatibility))
  {
    hide EligibleNames, AllowedAmbient, LaunchValues, Accounts;
    var names := EligibleNames(plan, policy, compatibility);
    var ambient := AllowedAmbient(p, plan.launch, policy, names);
    DocumentLayersAccount(p, ConfigDotenv, plan.configDotenv, ambient);
    DocumentLayersAccount(p, CliDotenv, plan.cliDotenv, ambient);
    CommandLayersAccount(plan.commands, policy.target);
  }

  lemma {:induction false} SaysIsFromLayer(p: Platform, layer: Layer, name: string, n: nat)
    requires n <= |layer.values| && Accounts(layer)
    ensures
      var a := SaysUpTo(p, layer, name, n);
      a.Some? ==> a.value.origin.kind == layer.kind && Same(p, a.value.key, name)
  {
    if n > 0 {
      SaysIsFromLayer(p, layer, name, n - 1);
      var key, value := layer.values[n - 1].0, layer.values[n - 1].1;
      if value.Some? { GetIn(layer.origins, key); }
    }
  }

  /** The winner's origin names its layer, and no layer of a higher rank assigns the variable. */
  lemma {:induction false} WinnerOutranks(p: Platform, layers: seq<Layer>, name: string)
    requires Ranked(layers) && forall l <- layers :: Accounts(l) && Sourced(l)
    ensures
      var w := Winner(p, layers, name);
      && (w.None? ==> forall l <- layers :: Says(p, l, name).None?)
      && (w.Some? ==>
            && (exists l <- layers :: Says(p, l, name) == w && w.value.origin.kind == l.kind)
            && forall l <- layers :: Says(p, l, name).Some? ==> Rank(l.kind) <= Rank(w.value.origin.kind))
  {
    if layers != [] {
      var front, top := layers[..|layers| - 1], layers[|layers| - 1];
      WinnerOutranks(p, front, name);
      SaysIsFromLayer(p, top, name, |top.values|);
      assert forall l <- layers :: l in front || l == top;
      assert top in layers && forall l <- front :: l in layers;
      hide SaysUpTo;
    }
  }

  /** A key of the result names, in its origin, the highest layer that assigns its variable. */
  lemma OriginNamesTheHighestLayer(p: Platform, plan: Plan, policy: Policy, compatibility: set<string>, name: string)
    requires Resolve(p, plan, policy, compatibility).Ok?
    requires Has(Resolve(p, plan, policy, compatibility).value.values, name)
    ensures
      var origin := Get(Resolve(p, plan, policy, compatibility).value.origins, name);
      && origin.Some?
      && forall l <- Layers(p, plan, policy, compatibility) ::
           Says(p, l, name).Some? ==> Rank(l.kind) <= Rank(origin.value.kind)
  {
    HighestLayerWins(p, plan, policy, compatibility, name);
    LayersAreRanked(p, plan, policy, compatibility);
    var layers := Layers(p, plan, policy, compatibility);
    hide Resolve, Layers;
    WinnerOutranks(p, layers, name);
  }

  // ---- Documents

  // The plain resolver of one document: context and values, nothing else.
  function PlainUpTo(document: Document, ambient: Context, n: nat): (Context, Dict<Option<string>>)
    requires n <= |document.bindings|
  {
    if n == 0 then (ambient, [])
    else
      var (context, values) := PlainUpTo(document, ambient, n - 1);
      var b := document.bindings[n - 1];
      if b.key.None? then (context, values)
      else
        var value := if b.hasValue then Some(Join(Posix, context, b.atoms)) else None;
        (Put(context, b.key.value, value), Put(values, b.key.value, value))
  }

  function ResolveDotenvDocument(document: Document, ambient: Context): Dict<Option<string>> {
    PlainUpTo(document, ambient, |document.bindings|).1
  }

  lemma {:induction false} SameAsPlain(kind: SourceKind, document: Document, ambient: Context, n: nat)
    requires n <= |document.bindings|
    ensures
      var s := ResolvedUpTo(Posix, kind, document, ambient, n);
      (s.context, s.layer.values) == PlainUpTo(document, ambient, n)
  {
    if n > 0 {
      SameAsPlain(kind, document, ambient, n - 1);
      hide Join, Missing;
    }
  }

  /** On POSIX a document's values are those of the plain resolver. */
  lemma DocumentsAgree(kind: SourceKind, document: Document, ambient: Context)
    ensures DocumentLayer(Posix, kind, document, ambient).values == ResolveDotenvDocument(document, ambient)
  {
    SameAsPlain(kind, document, ambient, |document.bindings|);
  }

  /** The last binding of a key decides: a bare one leaves the key without an assignment, another gives
      it the text of its atoms in the context of the bindings before it. */
  lemma {:induction false} LastBindingDecides(
    p: Platform, kind: SourceKind, document: Document, ambient: Context, i: nat, n: nat)
    requires i < n <= |document.bindings| && document.bindings[i].key.Some?
    requires forall j | i < j < n :: document.bindings[j].key != document.bindings[i].key
    ensures
      var b := document.bindings[i];
      var context := ResolvedUpTo(p, kind, document, ambient, i).context;
      Get(ResolvedUpTo(p, kind, document, ambient, n).layer.values, b.key.value) ==
      Some(if b.hasValue then Some(Join(p, context, b.atoms)) else None)
  {
    var b, last := document.bindings[i], document.bindings[n - 1];
    var before := ResolvedUpTo(p, kind, document, ambient, n - 1);
    if n - 1 > i { LastBindingDecides(p, kind, document, ambient, i, n - 1); }
    if last.key.Some? {
      var value := if last.hasValue then Some(Join(p, before.context, last.atoms)) else None;
      GetPut(before.layer.values, last.key.value, value, b.key.value);
    }
    hide Join, Missing, Get;
  }
}
