/** The resolver as it runs: three dictionaries updated in place, layer by layer. */
module EnvironmentResolver {
  import opened Wrappers
  import opened OrderedDict
  import opened Environment

  lemma {:induction false} ClashingExactly(p: Platform, names: seq<string>, name: string)
    ensures Clashing(p, names, name).None? <==> forall n <- names :: Same(p, n, name) ==> n == name
    ensures
      var c := Clashing(p, names, name);
      c.Some? ==> c.value in names && c.value != name && Same(p, c.value, name)
  {
    if names != [] {
      ClashingExactly(p, names[1..], name);
      assert names == [names[0]] + names[1..];
    }
  }

  ghost predicate ClashFree(p: Platform, names: seq<string>) {
    forall a <- names, b <- names :: Same(p, a, b) ==> a == b
  }

  /** A list of names passes on Windows exactly when no two of them differ only by case. */
  lemma {:induction false} NoClashExactly(p: Platform, what: string, names: seq<string>)
    requires p.Windows?
    ensures FirstClash(p, what, names).None? <==> ClashFree(p, names)
  {
    if names != [] {
      var front, last := names[..|names| - 1], names[|names| - 1];
      NoClashExactly(p, what, front);
      ClashingExactly(p, front, last);
      assert forall n <- names :: n in front || n == last;
      assert last in names && forall n <- front :: n in names;
    }
  }

  /** `_check_windows_duplicates` and `_check_windows_names`. */
  method CheckWindowsNames(p: Platform, what: string, names: seq<string>) returns (e: Option<ResolveError>)
    ensures e == FirstClash(p, what, names)
  {
    if p.Posix? { return None; }
    var seen: map<string, string> := map[];
    for i := 0 to |names|
      invariant FirstClash(p, what, names[..i]) == None
      invariant forall n <- names[..i] :: p.casefold(n) in seen
      invariant forall f <- seen :: seen[f] in names[..i] && p.casefold(seen[f]) == f
    {
      var name := names[i];
      var normalized := p.casefold(name);
      NoClashExactly(p, what, names[..i]);
      ClashingExactly(p, names[..i], name);
      assert names[..i + 1][..i] == names[..i];
      if normalized in seen && seen[normalized] != name {
        ClashStays(p, what, names, i + 1);
        return Some(DuplicateName(what, seen[normalized], name));
      }
      seen := seen[normalized := name];
    }
    assert names[..|names|] == names;
    return None;
  }

  lemma {:induction false} ClashStays(p: Platform, what: string, names: seq<string>, n: nat)
    requires n <= |names| && FirstClash(p, what, names[..n]).Some?
    ensures FirstClash(p, what, names) == FirstClash(p, what, names[..n])
    decreases |names| - n
  {
    if n < |names| {
      assert names[..n + 1][..n] == names[..n];
      ClashStays(p, what, names, n + 1);
    } else {
      assert names[..n] == names;
    }
  }

  /** `_resolve_document`. */
  method ResolveDocument(p: Platform, kind: SourceKind, document: Document, ambient: Dict<string>)
    returns (layer: Layer)
    ensures layer == DocumentLayer(p, kind, document, Optional(ambient))
  {
    var context := Optional(ambient);
    layer := Layer(kind, [], [], []);
    for i := 0 to |document.bindings|
      invariant Resolving(context, layer) == ResolvedUpTo(p, kind, document, Optional(ambient), i)
      invariant layer.kind == kind
    {
      var binding := document.bindings[i];
      if binding.key.None? { continue; }
      var key := binding.key.value;
      if !binding.hasValue {
        layer := layer.(values := Put(layer.values, key, None));
        context := Put(context, key, None);
        continue;
      }
      var missing := Missing(p, context, binding.atoms);
      var value := Join(p, context, binding.atoms);
      layer := layer.(values := Put(layer.values, key, Some(value)));
      context := Put(context, key, Some(value));
      layer := layer.(origins := Put(layer.origins, key, Origin(kind, document.path, Some(binding.line))));
      if missing != {} {
        layer := layer.(unresolved := Put(layer.unresolved, key, missing));
      } else {
        layer := layer.(unresolved := Pop(layer.unresolved, key));
      }
    }
  }

  class Resolution {
    var values: Dict<string>
    var origins: Dict<Origin>
    var unresolved: Dict<set<string>>

    constructor ()
      ensures Now() == NOTHING
    {
      values, origins, unresolved := [], [], [];
    }

    ghost function Now(): Env
      reads this
    {
      Env(values, origins, unresolved)
    }

    /** `_merge_values`. */
    method MergeValues(p: Platform, layer: Layer)
      requires Sourced(layer)
      modifies this
      ensures Now() == Merged(p, old(Now()), layer)
    {
      for i := 0 to |layer.values|
        invariant Now() == MergedUpTo(p, old(Now()), layer, i)
      {
        var key, value := layer.values[i].0, layer.values[i].1;
        if value.None? { continue; }
        var previous := Previous(p, values, key);
        if previous.Some? && previous.value != key {
          values := Pop(values, previous.value);
          origins := Pop(origins, previous.value);
          unresolved := Pop(unresolved, previous.value);
        }
        values := Put(values, key, value.value);
        origins := Put(origins, key, Get(layer.origins, key).value);
        var missing := Get(layer.unresolved, key);
        if missing.Some? {
          unresolved := Put(unresolved, key, missing.value);
        } else {
          unresolved := Pop(unresolved, key);
        }
      }
    }

    // One more layer on top of those already merged.
    method Add(p: Platform, layer: Layer, ghost layers: seq<Layer>) returns (ghost more: seq<Layer>)
      requires Accounts(layer) && (forall l <- layers :: Accounts(l) && Sourced(l))
      requires Now() == MergedAll(p, layers)
      modifies this
      ensures more == layers + [layer] && (forall l <- more :: Accounts(l) && Sourced(l))
      ensures Now() == MergedAll(p, more)
    {
      more := layers + [layer];
      assert more[..|layers|] == layers;
      MergeValues(p, layer);
    }

    method AddDocument(p: Platform, kind: SourceKind, document: Option<Document>, ambient: Dict<string>,
                       ghost layers: seq<Layer>)
      returns (ghost more: seq<Layer>)
      requires (forall l <- layers :: Accounts(l) && Sourced(l)) && Now() == MergedAll(p, layers)
      modifies this
      ensures more == layers + DocumentLayers(p, kind, document, ambient)
      ensures (forall l <- more :: Accounts(l) && Sourced(l)) && Now() == MergedAll(p, more)
    {
      more := layers;
      if document.Some? {
        var layer := ResolveDocument(p, kind, document.value, ambient);
        DocumentAccounts(p, kind, document.value, Optional(ambient), |document.value.bindings|);
        more := Add(p, layer, layers);
      } else {
        assert layers + [] == layers;
      }
    }

    /** The command layers; a clash inside an assignment stops the resolution there. */
    method AddCommands(p: Platform, commands: seq<CommandAssignment>, target: Target, ghost layers: seq<Layer>)
      returns (e: Option<ResolveError>)
      requires (forall l <- layers :: Accounts(l) && Sourced(l)) && Now() == MergedAll(p, layers)
      modifies this
      ensures e == CommandClash(p, commands, target)
      ensures
        var all := layers + CommandLayers(commands, target);
        e.None? ==> (forall l <- all :: Sourced(l)) && Now() == MergedAll(p, all)
    {
      ghost var more := layers;
      assert layers + CommandLayers(commands[..0], target) == layers;
      for i := 0 to |commands|
        invariant more == layers + CommandLayers(commands[..i], target)
        invariant (forall l <- more :: Accounts(l) && Sourced(l)) && Now() == MergedAll(p, more)
        invariant CommandClash(p, commands[..i], target) == None
      {
        var assignment := commands[i];
        assert commands[..i + 1][..i] == commands[..i];
        if target !in assignment.targets {
          assert CommandLayers(commands[..i + 1], target) == CommandLayers(commands[..i], target);
          continue;
        }
        var clash := CheckWindowsNames(p, "command assignment", Keys(assignment.values));
        if clash.Some? {
          CommandClashStays(p, commands, target, i + 1);
          return clash;
        }
        more := Add(p, PlainLayer(assignment.values, Origin(Command, assignment.reason, None)), more);
      }
      assert commands[..|commands|] == commands;
      return None;
    }

    method AddAuth(p: Platform, plan: Plan, ghost layers: seq<Layer>) returns (ghost more: seq<Layer>)
      requires (forall l <- layers :: Accounts(l) && Sourced(l)) && Now() == MergedAll(p, layers)
      modifies this
      ensures more == layers + AuthLayers(plan)
      ensures (forall l <- more :: Accounts(l) && Sourced(l)) && Now() == MergedAll(p, more)
    {
      more := layers;
      if plan.authPath.Some? {
        more := Add(p, PlainLayer([(AUTH_KEY, plan.authPath.value)], Origin(Auth, ConfigName(plan), None)), layers);
      } else {
        assert layers + [] == layers;
      }
    }

    /** Everything below the launch environment. */
    method AddBelow(p: Platform, plan: Plan, ambient: Dict<string>) returns (ghost layers: seq<Layer>)
      requires Now() == NOTHING
      modifies this
      ensures layers == Below(p, plan, ambient)
      ensures (forall l <- layers :: Accounts(l) && Sourced(l)) && Now() == MergedAll(p, layers)
    {
      hide MergedUpTo, Accounts, Sourced, DocumentLayers, PlainLayer, AuthLayers;
      layers := [];
      layers := AddDocument(p, ConfigDotenv, plan.configDotenv, ambient, layers);
      layers := Add(p, PlainLayer(plan.configMapping, Origin(ConfigMapping, ConfigName(plan), None)), layers);
      layers := AddAuth(p, plan, layers);
      layers := AddDocument(p, CliDotenv, plan.cliDotenv, ambient, layers);
    }
  }

  lemma {:induction false} CommandClashStays(p: Platform, commands: seq<CommandAssignment>, target: Target, n: nat)
    requires n <= |commands| && CommandClash(p, commands[..n], target).Some?
    ensures CommandClash(p, commands, target) == CommandClash(p, commands[..n], target)
    decreases |commands| - n
  {
    if n < |commands| {
      assert commands[..n + 1][..n] == commands[..n];
      CommandClashStays(p, commands, target, n + 1);
    } else {
      assert commands[..n] == commands;
    }
  }

  /** The checks `resolve_environment` makes before it merges anything. */
  method CheckNames(p: Platform, plan: Plan) returns (e: Option<ResolveError>)
    ensures e == Earlier(FirstClash(p, "launch environment", Keys(plan.launch)),
                 Earlier(FirstClash(p, "config mapping", Keys(plan.configMapping)),
                 Earlier(FirstClash(p, "explicit environment selection", plan.explicitNames),
                 Earlier(DocumentClash(p, plan.configDotenv), DocumentClash(p, plan.cliDotenv)))))
  {
    e := CheckWindowsNames(p, "launch environment", Keys(plan.launch));
    if e.Some? { return; }
    e := CheckWindowsNames(p, "config mapping", Keys(plan.configMapping));
    if e.Some? { return; }
    e := CheckWindowsNames(p, "explicit environment selection", plan.explicitNames);
    if e.Some? { return; }
    if plan.configDotenv.Some? {
      e := CheckWindowsNames(p, "dotenv document", BoundKeys(plan.configDotenv.value.bindings));
      if e.Some? { return; }
    }
    if plan.cliDotenv.Some? {
      e := CheckWindowsNames(p, "dotenv document", BoundKeys(plan.cliDotenv.value.bindings));
    }
  }

  /** `resolve_environment`. */
  method ResolveEnvironment(p: Platform, plan: Plan, policy: Policy, compatibility: set<string>)
    returns (r: Result<Env, ResolveError>)
    ensures r == Resolve(p, plan, policy, compatibility)
  {
    hide MergedAll, FirstClash, DocumentClash, CommandClash, Below, CommandLayers, EligibleNames, Accounts, Sourced;
    if policy.target.ComposeControlPlane? { return Err(ComposeTarget); }
    var clash := CheckNames(p, plan);
    if clash.Some? { return Err(clash.value); }
    var names := EligibleNames(plan, policy, compatibility);
    var resolution := new Resolution();
    ghost var layers := resolution.AddBelow(p, plan, AllowedAmbient(p, plan.launch, policy, names));
    var launchLayer := PlainLayer(LaunchValues(p, plan, policy, names), Origin(Launch, "launch", None));
    layers := resolution.Add(p, launchLayer, layers);
    clash := resolution.AddCommands(p, plan.commands, policy.target, layers);
    if clash.Some? { return Err(clash.value); }
    assert resolution.Now() == MergedAll(p, Layers(p, plan, policy, compatibility));
    if policy.unresolvedIsError {
      var failed := FirstUnresolved(resolution.unresolved, resolution.values);
      if failed.Some? { return Err(failed.value); }
    }
    return Ok(Env(resolution.values, resolution.origins, resolution.unresolved));
  }
}
