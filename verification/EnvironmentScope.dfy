/** What launch variables outside the eligible names can influence: on POSIX nothing, unless a scope
    admits all names. */
module EnvironmentScope {
  import opened Wrappers
  import opened OrderedDict
  import opened Environment
  import opened EnvironmentLayers

  ghost predicate SameLookups<V(!new)>(a: Dict<V>, b: Dict<V>) {
    forall n :: Get(a, n) == Get(b, n)
  }

  lemma {:induction false} GetFiltered(launch: Dict<string>, names: set<string>, name: string)
    ensures Get(Filtered(Posix, launch, names), name) == if name in names then Get(launch, name) else None
  {
    if launch != [] {
      GetFiltered(launch[1..], names, name);
      var kept := Filtered(Posix, launch, names);
      assert Eligible(Posix, names, launch[0].0) <==> launch[0].0 in names;
      if launch[0].0 in names { assert kept[1..] == Filtered(Posix, launch[1..], names); }
    }
  }

  lemma {:induction false} FilteredIsUnique(launch: Dict<string>, names: set<string>)
    requires Unique(launch)
    ensures Unique(Filtered(Posix, launch, names))
  {
    if launch != [] {
      FilteredIsUnique(launch[1..], names);
      var rest := Filtered(Posix, launch[1..], names);
      forall i | 0 <= i < |rest| ensures rest[i].0 != launch[0].0 {
        GetIn(rest, rest[i].0);
        GetFiltered(launch[1..], names, rest[i].0);
        GetIn(launch[1..], rest[i].0);
      }
    }
  }

  lemma {:induction false} GetOptional(d: Dict<string>, name: string)
    ensures Get(Optional(d), name) == match Get(d, name) case None => None case Some(v) => Some(Some(v))
  {
    if d != [] {
      GetOptional(d[1..], name);
      assert Optional(d)[1..] == Optional(d[1..]);
    }
  }

  // ---- A document sees its context only through lookups

  lemma {:induction false} JoinSees(a: Context, b: Context, atoms: seq<Atom>)
    requires SameLookups(a, b)
    ensures Join(Posix, a, atoms) == Join(Posix, b, atoms) && Missing(Posix, a, atoms) == Missing(Posix, b, atoms)
  {
    if atoms != [] { JoinSees(a, b, atoms[..|atoms| - 1]); }
  }

  lemma {:induction false} DocumentSees(kind: SourceKind, document: Document, a: Context, b: Context, n: nat)
    requires SameLookups(a, b) && n <= |document.bindings|
    ensures
      var s, t := ResolvedUpTo(Posix, kind, document, a, n), ResolvedUpTo(Posix, kind, document, b, n);
      s.layer == t.layer && SameLookups(s.context, t.context)
  {
    if n > 0 {
      DocumentSees(kind, document, a, b, n - 1);
      var s := ResolvedUpTo(Posix, kind, document, a, n - 1);
      var t := ResolvedUpTo(Posix, kind, document, b, n - 1);
      var binding := document.bindings[n - 1];
      JoinSees(s.context, t.context, binding.atoms);
      if binding.key.Some? {
        var key := binding.key.value;
        var value := if binding.hasValue then Some(Join(Posix, s.context, binding.atoms)) else None;
        forall m ensures Get(Put(s.context, key, value), m) == Get(Put(t.context, key, value), m) {
          GetPut(s.context, key, value, m);
          GetPut(t.context, key, value, m);
        }
      }
      hide Join, Missing, Get, Put;
    }
  }

  // ---- Merging a layer without references only clears unresolved keys

  function Without<V>(d: Dict<V>, keys: set<string>): Dict<V> {
    if d == [] then []
    else if d[0].0 in keys then Without(d[1..], keys)
    else [d[0]] + Without(d[1..], keys)
  }

  lemma {:induction false} PopWithout<V>(d: Dict<V>, keys: set<string>, key: string)
    ensures Pop(Without(d, keys), key) == Without(d, keys + {key})
  {
    if d != [] {
      PopWithout(d[1..], keys, key);
      if d[0].0 !in keys { assert Without(d, keys)[1..] == Without(d[1..], keys); }
    }
  }

  lemma {:induction false} WithoutNothing<V>(d: Dict<V>)
    ensures Without(d, {}) == d
  {
    if d != [] { WithoutNothing(d[1..]); }
  }

  function KeySet(d: Dict<string>): set<string> {
    if d == [] then {} else KeySet(d[..|d| - 1]) + {d[|d| - 1].0}
  }

  lemma {:induction false} InKeySet(d: Dict<string>, key: string)
    ensures key in KeySet(d) <==> Has(d, key)
  {
    if d != [] {
      InKeySet(d[..|d| - 1], key);
      GetAppend(d[..|d| - 1], d[|d| - 1], key);
      assert d == d[..|d| - 1] + [d[|d| - 1]];
    }
  }

  lemma {:induction false} PlainMergeClears(env: Env, d: Dict<string>, origin: Origin, n: nat)
    requires n <= |d|
    ensures MergedUpTo(Posix, env, PlainLayer(d, origin), n).unresolved == Without(env.unresolved, KeySet(d[..n]))
  {
    if n == 0 {
      WithoutNothing(env.unresolved);
    } else {
      PlainMergeClears(env, d, origin, n - 1);
      PopWithout(env.unresolved, KeySet(d[..n - 1]), d[n - 1].0);
      assert d[..n][..n - 1] == d[..n - 1];
      hide Without, Put, Get;
    }
  }

  lemma {:induction false} MergeUnresolved(a: Env, b: Env, layer: Layer, n: nat)
    requires a.unresolved == b.unresolved && n <= |layer.values| && Sourced(layer)
    ensures MergedUpTo(Posix, a, layer, n).unresolved == MergedUpTo(Posix, b, layer, n).unresolved
  {
    if n > 0 { MergeUnresolved(a, b, layer, n - 1); }
  }

  lemma {:induction false} PlainSays(d: Dict<string>, origin: Origin, name: string, n: nat)
    requires Unique(d) && n <= |d|
    ensures SaysUpTo(Posix, PlainLayer(d, origin), name, n) ==
            match Get(d[..n], name) case None => None case Some(v) => Some(Assignment(name, v, origin, None))
  {
    if n > 0 {
      PlainSays(d, origin, name, n - 1);
      var front, layer := d[..n - 1], PlainLayer(d, origin);
      assert d[..n] == front + [d[n - 1]];
      GetAppend(front, d[n - 1], name);
      if d[n - 1].0 == name {
        GetIn(front, name);
        GetIn(layer.origins, name);
      }
    }
  }

  lemma {:induction false} GetAppend<V>(d: Dict<V>, item: (string, V), name: string)
    ensures Get(d + [item], name) == if Has(d, name) then Get(d, name) else if item.0 == name then Some(item.1) else None
  {
    if d != [] {
      assert (d + [item])[1..] == d[1..] + [item];
      GetAppend(d[1..], item, name);
    } else {
      assert d + [item] == [item] && [item][1..] == [];
    }
  }

  lemma {:induction false} SameWinner(a: seq<Layer>, b: seq<Layer>, name: string)
    requires |a| == |b| && (forall l <- a :: Sourced(l)) && (forall l <- b :: Sourced(l))
    requires forall i | 0 <= i < |a| :: Says(Posix, a[i], name) == Says(Posix, b[i], name)
    ensures Winner(Posix, a, name) == Winner(Posix, b, name)
  {
    if a != [] {
      var n := |a| - 1;
      assert forall i | 0 <= i < n :: Says(Posix, a[..n][i], name) == Says(Posix, b[..n][i], name) by {
        assert forall i | 0 <= i < n :: a[..n][i] == a[i] && b[..n][i] == b[i];
      }
      SameWinner(a[..n], b[..n], name);
    }
  }

  lemma {:induction false} SameUnresolvedAbove(a: seq<Layer>, b: seq<Layer>, above: seq<Layer>)
    requires forall l <- a + above :: Sourced(l)
    requires forall l <- b + above :: Sourced(l)
    requires (assert forall l <- a :: l in a + above; MergedAll(Posix, a).unresolved) ==
             (assert forall l <- b :: l in b + above; MergedAll(Posix, b).unresolved)
    ensures MergedAll(Posix, a + above).unresolved == MergedAll(Posix, b + above).unresolved
    decreases |above|
  {
    if above == [] {
      assert a + above == a && b + above == b;
    } else {
      var front, top := above[..|above| - 1], above[|above| - 1];
      assert (a + above)[..|a + above| - 1] == a + front && (b + above)[..|b + above| - 1] == b + front;
      assert top in a + above;
      SameUnresolvedAbove(a, b, front);
      MergeUnresolved(MergedAll(Posix, a + front), MergedAll(Posix, b + front), top, |top.values|);
    }
  }

  ghost predicate SameResult(a: Result<Env, ResolveError>, b: Result<Env, ResolveError>) {
    match (a, b)
    case (Err(e), Err(f)) => e == f
    case (Ok(x), Ok(y)) => forall n :: Read(x, n) == Read(y, n)
    case _ => false
  }

  // The two launch environments agree on the names the policy lets through.
  ghost predicate AgreeOnEligible(plan: Plan, other: Dict<string>, policy: Policy, compatibility: set<string>) {
    forall n <- EligibleNames(plan, policy, compatibility) :: Get(plan.launch, n) == Get(other, n)
  }

  predicate AdmitsAll(policy: Policy) { policy.interpolation.AllNames? || policy.assignment.AllNames? }

  lemma AllowedSame(plan: Plan, other: Dict<string>, policy: Policy, compatibility: set<string>)
    requires AgreeOnEligible(plan, other, policy, compatibility) && !policy.interpolation.AllNames?
    requires Unique(plan.launch) && Unique(other)
    ensures
      var names := EligibleNames(plan, policy, compatibility);
      var a, b := AllowedAmbient(Posix, plan.launch, policy, names), AllowedAmbient(Posix, other, policy, names);
      SameLookups(a, b) && Unique(a) && Unique(b)
  {
    var names := EligibleNames(plan, policy, compatibility);
    if policy.interpolation.ContainerEligible? {
      forall n ensures Get(Filtered(Posix, plan.launch, names), n) == Get(Filtered(Posix, other, names), n) {
        GetFiltered(plan.launch, names, n);
        GetFiltered(other, names, n);
      }
      FilteredIsUnique(plan.launch, names);
      FilteredIsUnique(other, names);
    }
  }

  lemma DocumentLayersSee(kind: SourceKind, document: Option<Document>, a: Dict<string>, b: Dict<string>)
    requires SameLookups(a, b)
    ensures DocumentLayers(Posix, kind, document, a) == DocumentLayers(Posix, kind, document, b)
  {
    if document.Some? {
      forall n ensures Get(Optional(a), n) == Get(Optional(b), n) {
        GetOptional(a, n);
        GetOptional(b, n);
      }
      DocumentSees(kind, document.value, Optional(a), Optional(b), |document.value.bindings|);
    }
  }

  // Two plain layers with the same lookups merge to the same readings.
  lemma SamePlainLayers(a: Dict<string>, b: Dict<string>, origin: Origin)
    requires SameLookups(a, b) && Unique(a) && Unique(b)
    ensures forall n :: Says(Posix, PlainLayer(a, origin), n) == Says(Posix, PlainLayer(b, origin), n)
    ensures KeySet(a) == KeySet(b)
  {
    forall n ensures Says(Posix, PlainLayer(a, origin), n) == Says(Posix, PlainLayer(b, origin), n) {
      PlainSays(a, origin, n, |a|);
      PlainSays(b, origin, n, |b|);
      assert a[..|a|] == a && b[..|b|] == b;
    }
    forall k ensures k in KeySet(a) <==> k in KeySet(b) {
      InKeySet(a, k);
      InKeySet(b, k);
      assert Get(a, k) == Get(b, k);
    }
  }

  lemma {:induction false} SameFirstUnresolved(unresolved: Dict<set<string>>, a: Dict<string>, b: Dict<string>)
    requires SameLookups(a, b)
    ensures FirstUnresolved(unresolved, a) == FirstUnresolved(unresolved, b)
  {
    if unresolved != [] {
      assert Get(a, unresolved[0].0) == Get(b, unresolved[0].0);
      SameFirstUnresolved(unresolved[1..], a, b);
    }
  }

  /** On POSIX, unless a scope admits all names, launch variables outside the eligible names change
      neither the result nor the error. */
  lemma IneligibleNamesChangeNothing(plan: Plan, other: Dict<string>, policy: Policy, compatibility: set<string>)
    requires !AdmitsAll(policy) && AgreeOnEligible(plan, other, policy, compatibility)
    requires Unique(plan.launch) && Unique(other)
    ensures SameResult(Resolve(Posix, plan, policy, compatibility),
                       Resolve(Posix, plan.(launch := other), policy, compatibility))
  {
    var changed := plan.(launch := other);
    var layers, others := Layers(Posix, plan, policy, compatibility), Layers(Posix, changed, policy, compatibility);
    SameLayerEffects(plan, other, policy, compatibility);
    var env, env' := MergedAll(Posix, layers), MergedAll(Posix, others);
    forall n ensures Read(env, n) == Read(env', n) {
      MergeAllReads(Posix, layers, n);
      MergeAllReads(Posix, others, n);
    }
    assert SameLookups(env.values, env'.values) by {
      forall n ensures Get(env.values, n) == Get(env'.values, n) { assert Read(env, n) == Read(env', n); }
    }
    SameFirstUnresolved(env.unresolved, env.values, env'.values);
    NoClashOnPosix(plan, policy);
    NoClashOnPosix(changed, policy);
    hide Layers, MergedAll, NameClash, FirstUnresolved, Read;
  }

  lemma SameLayerEffects(plan: Plan, other: Dict<string>, policy: Policy, compatibility: set<string>)
    requires !AdmitsAll(policy) && AgreeOnEligible(plan, other, policy, compatibility)
    requires Unique(plan.launch) && Unique(other)
    ensures
      var layers := Layers(Posix, plan, policy, compatibility);
      var others := Layers(Posix, plan.(launch := other), policy, compatibility);
      && MergedAll(Posix, layers).unresolved == MergedAll(Posix, others).unresolved
      && forall n :: Winner(Posix, layers, n) == Winner(Posix, others, n)
  {
    var changed := plan.(launch := other);
    var names := EligibleNames(plan, policy, compatibility);
    assert names == EligibleNames(changed, policy, compatibility);
    AllowedSame(plan, other, policy, compatibility);
    var a, b := AllowedAmbient(Posix, plan.launch, policy, names), AllowedAmbient(Posix, other, policy, names);
    DocumentLayersSee(ConfigDotenv, plan.configDotenv, a, b);
    DocumentLayersSee(CliDotenv, plan.cliDotenv, a, b);
    var below := Below(Posix, plan, a);
    assert below == Below(Posix, changed, b);
    var x, y := LaunchValues(Posix, plan, policy, names), LaunchValues(Posix, changed, policy, names);
    var origin := Origin(Launch, "launch", None);
    SamePlainLayers(x, y, origin);
    var commands := CommandLayers(plan.commands, policy.target);
    CommandLayersAccount(plan.commands, policy.target);
    LaunchLayerEffects(below, x, y, origin, commands);
  }

  lemma LaunchLayerEffects(
    below: seq<Layer>, x: Dict<string>, y: Dict<string>, origin: Origin, commands: seq<Layer>)
    requires (forall l <- below :: Accounts(l)) && forall l <- commands :: Accounts(l)
    requires forall n :: Says(Posix, PlainLayer(x, origin), n) == Says(Posix, PlainLayer(y, origin), n)
    requires KeySet(x) == KeySet(y)
    ensures
      var layers, others := below + [PlainLayer(x, origin)] + commands, below + [PlainLayer(y, origin)] + commands;
      && (forall l <- layers :: Sourced(l)) && (forall l <- others :: Sourced(l))
      && MergedAll(Posix, layers).unresolved == MergedAll(Posix, others).unresolved
      && forall n :: Winner(Posix, layers, n) == Winner(Posix, others, n)
  {
    hide KeySet, Without, Get, Put, Assigned, SaysUpTo;
    var p, q := PlainLayer(x, origin), PlainLayer(y, origin);
    var layers, others := below + [p] + commands, below + [q] + commands;
    PlainMergeClears(MergedAll(Posix, below), x, origin, |x|);
    PlainMergeClears(MergedAll(Posix, below), y, origin, |y|);
    assert x[..|x|] == x && y[..|y|] == y;
    assert (below + [p])[..|below|] == below && (below + [q])[..|below|] == below;
    SameUnresolvedAbove(below + [p], below + [q], commands);
    forall n ensures Winner(Posix, layers, n) == Winner(Posix, others, n) { SameWinner(layers, others, n); }
  }

  lemma {:induction false} NoClashOnPosix(plan: Plan, policy: Policy)
    ensures NameClash(Posix, plan, policy) == None
  {
    NoCommandClash(plan.commands, policy.target);
  }

  lemma {:induction false} NoCommandClash(commands: seq<CommandAssignment>, target: Target)
    ensures CommandClash(Posix, commands, target) == None
  {
    if commands != [] { NoCommandClash(commands[..|commands| - 1], target); }
  }

  const DOCUMENT := Document("env", [Binding(Some("A"), [Variable("X", None)], 1, true)])

  function Witness(policy: Policy, launch: Dict<string>): Plan {
    Plan(None, if policy.assignment.AllNames? then None else Some(DOCUMENT), [], None, None, launch, [], [])
  }

  // With a context that has X or is empty, the document assigns A and misses X exactly when it is absent.
  lemma WitnessLayer(ambient: Dict<string>)
    requires ambient == [("X", "1")] || ambient == []
    ensures
      var value := if ambient == [] then "" else "1";
      DocumentLayer(Posix, ConfigDotenv, DOCUMENT, Optional(ambient)) ==
      Layer(ConfigDotenv, [("A", Some(value))], [("A", Origin(ConfigDotenv, "env", Some(1)))],
            if ambient == [] then [("A", {"X"})] else [])
  {
    var context, atom, atoms := Optional(ambient), Variable("X", None), [Variable("X", None)];
    if ambient != [] { assert context == [("X", Some("1"))]; }
    assert Lookup(Posix, context, "X", None) == if ambient == [] then None else Some("1");
    assert atoms[..0] == [] && Join(Posix, context, atoms[..0]) == "";
    assert Join(Posix, context, atoms) == "" + ResolveAtom(Posix, context, atom) == if ambient == [] then "" else "1";
    assert Missing(Posix, context, atoms) == if ambient == [] then {"X"} else {};
    assert ResolvedUpTo(Posix, ConfigDotenv, DOCUMENT, context, 0).layer == Layer(ConfigDotenv, [], [], []);
    hide Join, Missing, Lookup;
  }

  lemma WitnessLayers(policy: Policy, launch: Dict<string>, compatibility: set<string>)
    requires AdmitsAll(policy) && (launch == [("X", "1")] || launch == [])
    ensures
      var plan := Witness(policy, launch);
      var values := LaunchValues(Posix, plan, policy, EligibleNames(plan, policy, compatibility));
      && (policy.assignment.AllNames? ==> values == launch)
      && (values == launch || values == [])
      && Layers(Posix, plan, policy, compatibility) ==
         (if policy.assignment.AllNames? then []
          else [DocumentLayer(Posix, ConfigDotenv, DOCUMENT, Optional(launch))]) +
         [PlainLayer([], Origin(ConfigMapping, "config", None)), PlainLayer(values, Origin(Launch, "launch", None))]
  {
    hide DocumentLayer;
    var plan := Witness(policy, launch);
    var values := LaunchValues(Posix, plan, policy, EligibleNames(plan, policy, compatibility));
    var top := PlainLayer(values, Origin(Launch, "launch", None));
    assert CommandLayers(plan.commands, policy.target) == [];
    assert Below(Posix, plan, launch) ==
      (if policy.assignment.AllNames? then []
       else [DocumentLayer(Posix, ConfigDotenv, DOCUMENT, Optional(launch))]) +
      [PlainLayer([], Origin(ConfigMapping, "config", None))];
    hide Below, EligibleNames;
    if policy.assignment.AllNames? {
      assert plan.configDotenv == None;
    }
  }

  lemma TwoPlainLayers(docs: seq<Layer>, values: Dict<string>, mapping: Origin, launch: Origin, name: string)
    requires (forall l <- docs :: Accounts(l) && Sourced(l)) && Unique(values)
    ensures
      var layers := docs + [PlainLayer([], mapping), PlainLayer(values, launch)];
      && (forall l <- layers :: Sourced(l))
      && MergedAll(Posix, layers).unresolved == Without(MergedAll(Posix, docs).unresolved, KeySet(values))
      && Winner(Posix, layers, name) ==
         match Get(values, name)
         case None => Winner(Posix, docs, name)
         case Some(v) => Some(Assignment(name, v, launch, None))
  {
    var low, top := PlainLayer([], mapping), PlainLayer(values, launch);
    var layers, lower := docs + [low, top], docs + [low];
    assert layers[..|layers| - 1] == lower && lower[..|lower| - 1] == docs;
    PlainSays(values, launch, name, |values|);
    assert values[..|values|] == values;
    PlainMergeClears(MergedAll(Posix, docs), [], mapping, 0);
    WithoutNothing(MergedAll(Posix, docs).unresolved);
    PlainMergeClears(MergedAll(Posix, lower), values, launch, |values|);
    hide Without, PlainLayer, Get;
  }

  lemma OneDocument(layer: Layer, value: string, origin: Origin)
    requires layer.values == [("A", Some(value))] && layer.origins == [("A", origin)] && Sourced(layer)
    ensures Winner(Posix, [layer], "A").Some? && Winner(Posix, [layer], "A").value.value == value
    ensures Winner(Posix, [layer], "A").value.key == "A"
    ensures layer.unresolved == [] ==> MergedAll(Posix, [layer]).unresolved == []
  {
    assert [layer][..0] == [];
    assert SaysUpTo(Posix, layer, "A", 1).Some?;
    assert MergedUpTo(Posix, NOTHING, layer, 0) == NOTHING;
  }

  // What the witness resolves to: X itself if launch variables are assigned, else A from the document.
  lemma WitnessReads(policy: Policy, launch: Dict<string>, compatibility: set<string>)
    requires AdmitsAll(policy) && (launch == [("X", "1")] || launch == [])
    ensures
      var env := MergedAll(Posix, Layers(Posix, Witness(policy, launch), policy, compatibility));
      && (policy.assignment.AllNames? ==> Get(env.values, "X") == if launch == [] then None else Some("1"))
      && (!policy.assignment.AllNames? ==> Get(env.values, "A") == Some(if launch == [] then "" else "1"))
      && (policy.assignment.AllNames? || launch != [] ==> env.unresolved == [])
  {
    var plan := Witness(policy, launch);
    var layers := Layers(Posix, plan, policy, compatibility);
    var values := LaunchValues(Posix, plan, policy, EligibleNames(plan, policy, compatibility));
    WitnessLayers(policy, launch, compatibility);
    var name := if policy.assignment.AllNames? then "X" else "A";
    var mapping, top := Origin(ConfigMapping, "config", None), Origin(Launch, "launch", None);
    MergeAllReads(Posix, layers, name);
    assert Get(values, "A") == None by { assert values != [] ==> values[1..] == []; }
    if policy.assignment.AllNames? {
      assert layers == [] + [PlainLayer([], mapping), PlainLayer(values, top)];
      TwoPlainLayers([], values, mapping, top, name);
    } else {
      var layer := DocumentLayer(Posix, ConfigDotenv, DOCUMENT, Optional(launch));
      WitnessLayer(launch);
      DocumentAccounts(Posix, ConfigDotenv, DOCUMENT, Optional(launch), 1);
      OneDocument(layer, if launch == [] then "" else "1", Origin(ConfigDotenv, "env", Some(1)));
      TwoPlainLayers([layer], values, mapping, top, name);
    }
    hide Layers, PlainLayer, DocumentLayer, LaunchValues, MergedAll, Winner, Witness;
  }

  ghost predicate TellsApart(plan: Plan, other: Dict<string>, policy: Policy, compatibility: set<string>) {
    && Unique(plan.launch) && Unique(other) && AgreeOnEligible(plan, other, policy, compatibility)
    && !SameResult(Resolve(Posix, plan, policy, compatibility),
                   Resolve(Posix, plan.(launch := other), policy, compatibility))
  }

  lemma WitnessTellsApart(policy: Policy, compatibility: set<string>)
    requires AdmitsAll(policy) && !policy.target.ComposeControlPlane? && "X" !in compatibility
    ensures TellsApart(Witness(policy, [("X", "1")]), [], policy, compatibility)
  {
    var launch: Dict<string>, none: Dict<string> := [("X", "1")], [];
    var plan, bare := Witness(policy, launch), Witness(policy, none);
    assert plan.(launch := none) == bare && plan.launch == launch && Unique(launch) && Unique(none);
    WitnessAgrees(policy, compatibility);
    WitnessReads(policy, launch, compatibility);
    WitnessReads(policy, none, compatibility);
    hide Layers, MergedAll, Witness, Unique;
    ResolvesTo(plan, policy, compatibility);
    ResolvesTo(bare, policy, compatibility);
    hide Resolve, AgreeOnEligible;
    var name := if policy.assignment.AllNames? then "X" else "A";
    var env := MergedAll(Posix, Layers(Posix, plan, policy, compatibility));
    var env' := MergedAll(Posix, Layers(Posix, bare, policy, compatibility));
    assert Read(env, name) != Read(env', name);
  }

  // On POSIX a resolution is the merge, or an error if a reference is missing.
  lemma ResolvesTo(plan: Plan, policy: Policy, compatibility: set<string>)
    requires !policy.target.ComposeControlPlane?
    ensures
      var env := MergedAll(Posix, Layers(Posix, plan, policy, compatibility));
      var r := Resolve(Posix, plan, policy, compatibility);
      (r.Ok? ==> r.value == env) && (env.unresolved == [] ==> r.Ok?)
  {
    hide Layers, MergedAll, NameClash;
    NoClashOnPosix(plan, policy);
  }

  lemma WitnessAgrees(policy: Policy, compatibility: set<string>)
    requires AdmitsAll(policy) && "X" !in compatibility
    ensures AgreeOnEligible(Witness(policy, [("X", "1")]), [], policy, compatibility)
  {
    assert Keys(Witness(policy, []).configMapping) == [];
  }

  /** When a scope admits all names, some plan tells two launch environments apart that agree on every
      eligible name: the guard of the lemma above cannot be dropped. */
  lemma AllScopesLeak(policy: Policy, compatibility: set<string>)
    requires AdmitsAll(policy) && !policy.target.ComposeControlPlane? && "X" !in compatibility
    ensures exists plan: Plan, other: Dict<string> :: TellsApart(plan, other, policy, compatibility)
  {
    WitnessTellsApart(policy, compatibility);
  }
}
