/** The value of a name on POSIX, read off the plan itself: what each source of the plan gives it, and which
    source decides. */
module EnvironmentPlan {
  import opened Wrappers
  import opened OrderedDict
  import opened Environment
  import opened EnvironmentLayers
  import opened EnvironmentScope

  // ---- What a dotenv document gives a name

  // The last of the first `n` bindings of a name: its place, if there is one.
  function LastBinding(document: Document, name: string, n: nat): (i: Option<nat>)
    requires n <= |document.bindings|
    ensures i.Some? ==> i.value < n
  {
    if n == 0 then None
    else if document.bindings[n - 1].key == Some(name) then Some(n - 1)
    else LastBinding(document, name, n - 1)
  }

  /** What `${name}` stands for at binding `n` of a document: the text of the last binding of the name before
      it, nothing if that one is bare, and otherwise what is visible of the launch environment. */
  function Stands(document: Document, visible: string -> Option<string>, name: string, n: nat): Option<string>
    requires n <= |document.bindings|
    decreases n, 1, 0
  {
    match LastBinding(document, name, n)
    case None => visible(name)
    case Some(i) => if document.bindings[i].hasValue then Some(Text(document, visible, i, |document.bindings[i].atoms|)) else None
  }

  // The text of the first `k` atoms of binding `i`. A default stands in for a name that is not bound at all.
  function Text(document: Document, visible: string -> Option<string>, i: nat, k: nat): string
    requires i < |document.bindings| && k <= |document.bindings[i].atoms|
    decreases i, 2, k
  {
    if k == 0 then "" else
      Text(document, visible, i, k - 1) +
      match document.bindings[i].atoms[k - 1]
      case Literal(text) => text
      case Variable(name, default) =>
        var stands := Stands(document, visible, name, i);
        if stands.Some? then stands.value
        else if default.Some? && LastBinding(document, name, i).None? then default.value
        else ""
  }

  // The names without a default that stand for nothing in binding `i`.
  function Lacking(document: Document, visible: string -> Option<string>, i: nat): set<string>
    requires i < |document.bindings|
  {
    set a <- document.bindings[i].atoms |
      a.Variable? && a.default.None? && Stands(document, visible, a.name, i).None? :: a.name
  }

  // None for a document that does not bind the name, or binds it bare in the end.
  function FromDocument(kind: SourceKind, document: Option<Document>, visible: string -> Option<string>, name: string)
    : Option<Assignment>
  {
    if document.None? then None else
      var d := document.value;
      match LastBinding(d, name, |d.bindings|)
      case None => None
      case Some(i) =>
        if !d.bindings[i].hasValue then None
        else
          var lacking := Lacking(d, visible, i);
          Some(Assignment(name, Text(d, visible, i, |d.bindings[i].atoms|), Origin(kind, d.path, Some(d.bindings[i].line)),
                          if lacking == {} then None else Some(lacking)))
  }

  // ---- Which the resolver finds

  ghost predicate Shows(visible: string -> Option<string>, ambient: Dict<string>) {
    forall x :: visible(x) == Get(ambient, x)
  }

  function Bound(document: Document, visible: string -> Option<string>, i: nat): Option<string>
    requires i < |document.bindings|
  {
    if document.bindings[i].hasValue then Some(Text(document, visible, i, |document.bindings[i].atoms|)) else None
  }

  // What is read of a name once `n` bindings have been resolved.
  ghost predicate Reads(kind: SourceKind, document: Document, ambient: Dict<string>, visible: string -> Option<string>, name: string, n: nat)
    requires n <= |document.bindings|
  {
    var s := ResolvedUpTo(Posix, kind, document, Optional(ambient), n);
    match LastBinding(document, name, n)
    case None =>
      && Get(s.context, name) == (match Get(ambient, name) case None => None case Some(v) => Some(Some(v)))
      && Get(s.layer.values, name) == None
    case Some(i) =>
      && Get(s.context, name) == Some(Bound(document, visible, i))
      && Get(s.layer.values, name) == Some(Bound(document, visible, i))
      && (document.bindings[i].hasValue ==>
            && Get(s.layer.origins, name) == Some(Origin(kind, document.path, Some(document.bindings[i].line)))
            && Get(s.layer.unresolved, name) ==
               var lacking := Lacking(document, visible, i); if lacking == {} then None else Some(lacking))
  }

  lemma {:induction false} BindingsRead(kind: SourceKind, document: Document, ambient: Dict<string>, visible: string -> Option<string>, name: string, n: nat)
    requires n <= |document.bindings| && Shows(visible, ambient)
    ensures Reads(kind, document, ambient, visible, name, n)
    decreases n, 1
  {
    hide Reads, Shows, AtomsRead;
    if n == 0 {
      NothingRead(kind, document, ambient, visible, name);
    } else {
      BindingsRead(kind, document, ambient, visible, name, n - 1);
      AtomsAreRead(kind, document, ambient, visible, n - 1);
      BindingRead(kind, document, ambient, visible, name, n);
    }
  }

  // The text of a binding is what is joined, and its missing names are those that stand for nothing.
  ghost predicate AtomsRead(kind: SourceKind, document: Document, ambient: Dict<string>, visible: string -> Option<string>, i: nat)
    requires i < |document.bindings|
  {
    var s, b := ResolvedUpTo(Posix, kind, document, Optional(ambient), i), document.bindings[i];
    && Join(Posix, s.context, b.atoms) == Text(document, visible, i, |b.atoms|)
    && Missing(Posix, s.context, b.atoms) == Lacking(document, visible, i)
  }

  lemma AtomsAreRead(kind: SourceKind, document: Document, ambient: Dict<string>, visible: string -> Option<string>, i: nat)
    requires i < |document.bindings| && Shows(visible, ambient)
    ensures AtomsRead(kind, document, ambient, visible, i)
    decreases i, 4
  {
    var atoms := document.bindings[i].atoms;
    assert atoms[..|atoms|] == atoms;
    hide Shows, Text, Lacking, Join, Missing, ResolvedUpTo;
    TextIsJoined(kind, document, ambient, visible, i, |atoms|);
    MissingLack(kind, document, ambient, visible, i);
  }

  lemma NothingRead(kind: SourceKind, document: Document, ambient: Dict<string>, visible: string -> Option<string>, name: string)
    ensures Reads(kind, document, ambient, visible, name, 0)
  {
    GetOptional(ambient, name);
  }

  // What one binding changes of what is read of a name.
  lemma StepReads(path: string, s: Resolving, b: Binding, name: string)
    ensures
      var t := ResolveBinding(Posix, path, s, b);
      var value := if b.hasValue then Some(Join(Posix, s.context, b.atoms)) else None;
      var missing := Missing(Posix, s.context, b.atoms);
      if b.key == Some(name) then
        && Get(t.context, name) == Some(value) && Get(t.layer.values, name) == Some(value)
        && (b.hasValue ==>
              && Get(t.layer.origins, name) == Some(Origin(s.layer.kind, path, Some(b.line)))
              && Get(t.layer.unresolved, name) == if missing == {} then None else Some(missing))
      else
        && Get(t.context, name) == Get(s.context, name) && Get(t.layer.values, name) == Get(s.layer.values, name)
        && Get(t.layer.origins, name) == Get(s.layer.origins, name)
        && Get(t.layer.unresolved, name) == Get(s.layer.unresolved, name)
  {
    hide Join, Missing, Get, Put, PutOrPop;
    if b.key.Some? {
      var key := b.key.value;
      var value := if b.hasValue then Some(Join(Posix, s.context, b.atoms)) else None;
      GetPut(s.context, key, value, name);
      GetPut(s.layer.values, key, value, name);
      if b.hasValue {
        var missing := Missing(Posix, s.context, b.atoms);
        GetPut(s.layer.origins, key, Origin(s.layer.kind, path, Some(b.line)), name);
        GetPutOrPop(s.layer.unresolved, key, if missing != {} then Some(missing) else None, name);
      }
    }
  }

  lemma BindingRead(kind: SourceKind, document: Document, ambient: Dict<string>, visible: string -> Option<string>, name: string, n: nat)
    requires 0 < n <= |document.bindings| && Reads(kind, document, ambient, visible, name, n - 1)
    requires AtomsRead(kind, document, ambient, visible, n - 1)
    ensures Reads(kind, document, ambient, visible, name, n)
  {
    var s, b := ResolvedUpTo(Posix, kind, document, Optional(ambient), n - 1), document.bindings[n - 1];
    StepReads(document.path, s, b, name);
    DocumentAccounts(Posix, kind, document, Optional(ambient), n - 1);
    hide Accounts, Join, Missing, Text, Lacking, Get, ResolveBinding;
  }

  // A lookup finds what the name stands for.
  lemma LookupStands(kind: SourceKind, document: Document, ambient: Dict<string>, visible: string -> Option<string>, name: string, default: Option<string>, n: nat)
    requires n <= |document.bindings| && Shows(visible, ambient)
    ensures
      var context := ResolvedUpTo(Posix, kind, document, Optional(ambient), n).context;
      var stands := Stands(document, visible, name, n);
      Lookup(Posix, context, name, default) ==
      if stands.Some? then stands else if LastBinding(document, name, n).None? then default else None
    decreases n, 2
  {
    BindingsRead(kind, document, ambient, visible, name, n);
    hide Get;
  }

  lemma {:induction false} TextIsJoined(kind: SourceKind, document: Document, ambient: Dict<string>, visible: string -> Option<string>, i: nat, k: nat)
    requires i < |document.bindings| && k <= |document.bindings[i].atoms| && Shows(visible, ambient)
    ensures
      var context := ResolvedUpTo(Posix, kind, document, Optional(ambient), i).context;
      Join(Posix, context, document.bindings[i].atoms[..k]) == Text(document, visible, i, k)
    decreases i, 3, k
  {
    var atoms := document.bindings[i].atoms;
    if k > 0 {
      TextIsJoined(kind, document, ambient, visible, i, k - 1);
      assert atoms[..k][..k - 1] == atoms[..k - 1];
      var atom := atoms[k - 1];
      if atom.Variable? {
        LookupStands(kind, document, ambient, visible, atom.name, Some(if atom.default.Some? then atom.default.value else ""), i);
      }
      hide Lookup, Stands;
    }
  }

  lemma MissingLack(kind: SourceKind, document: Document, ambient: Dict<string>, visible: string -> Option<string>, i: nat)
    requires i < |document.bindings| && Shows(visible, ambient)
    ensures
      var context := ResolvedUpTo(Posix, kind, document, Optional(ambient), i).context;
      Missing(Posix, context, document.bindings[i].atoms) == Lacking(document, visible, i)
    decreases i, 3
  {
    var context := ResolvedUpTo(Posix, kind, document, Optional(ambient), i).context;
    forall a | a in document.bindings[i].atoms && a.Variable?
      ensures Lookup(Posix, context, a.name, None) == Stands(document, visible, a.name, i)
    {
      LookupStands(kind, document, ambient, visible, a.name, None, i);
    }
    hide Lookup, Stands;
  }

  // ---- What the other sources give a name

  // What an environment assigned at the command gives: the last one for this target.
  function FromCommands(commands: seq<CommandAssignment>, target: Target, name: string): Option<Assignment> {
    if commands == [] then None
    else
      var last := commands[|commands| - 1];
      if target in last.targets && Has(last.values, name)
      then Some(Assignment(name, Get(last.values, name).value, Origin(Command, last.reason, None), None))
      else FromCommands(commands[..|commands| - 1], target, name)
  }

  function Given(value: Option<string>, name: string, origin: Origin): Option<Assignment> {
    match value case None => None case Some(v) => Some(Assignment(name, v, origin, None))
  }

  predicate DeclaredIn(document: Option<Document>, name: string) {
    document.Some? && exists b <- document.value.bindings :: b.key == Some(name) && b.hasValue
  }

  // The names that may be passed on from the launch environment to a container.
  predicate MayPass(plan: Plan, policy: Policy, compatibility: set<string>, name: string) {
    || name in plan.explicitNames || Has(plan.configMapping, name)
    || (plan.authPath.Some? && name == "AUTH_MODULE_PATH")
    || DeclaredIn(plan.configDotenv, name) || DeclaredIn(plan.cliDotenv, name)
    || (policy.interpolation.ContainerEligible? && name in compatibility)
  }

  // What interpolation sees of the launch environment.
  function Seen(plan: Plan, policy: Policy, compatibility: set<string>, name: string): Option<string> {
    match policy.interpolation
    case AllNames => Get(plan.launch, name)
    case ContainerEligible => if MayPass(plan, policy, compatibility, name) then Get(plan.launch, name) else None
    case _ => None
  }

  function FromLaunch(plan: Plan, policy: Policy, compatibility: set<string>, name: string): Option<string> {
    match policy.assignment
    case AllNames => Get(plan.launch, name)
    case ContainerEligible => Seen(plan, policy, compatibility, name)
    case _ => None
  }

  function Or(a: Option<Assignment>, b: Option<Assignment>): Option<Assignment> { if a.Some? then a else b }

  /** What a plan gives a name: the command's own assignment, else the launch environment's, else the command
      line's dotenv file's, else the auth path, else the config's mapping, else the config's dotenv file's. */
  function Decided(plan: Plan, policy: Policy, compatibility: set<string>, name: string): Option<Assignment> {
    var visible := (x: string) => Seen(plan, policy, compatibility, x);
    var config := if plan.configPath.Some? then plan.configPath.value else "config";
    Or(FromCommands(plan.commands, policy.target, name),
    Or(Given(FromLaunch(plan, policy, compatibility, name), name, Origin(Launch, "launch", None)),
    Or(FromDocument(CliDotenv, plan.cliDotenv, visible, name),
    Or(Given(if name == "AUTH_MODULE_PATH" then plan.authPath else None, name, Origin(Auth, config, None)),
    Or(Given(Get(plan.configMapping, name), name, Origin(ConfigMapping, config, None)),
       FromDocument(ConfigDotenv, plan.configDotenv, visible, name))))))
  }

  // ---- The layers say the same

  lemma {:induction false} WinnerOf(a: seq<Layer>, b: seq<Layer>, name: string)
    requires forall l <- a + b :: Sourced(l)
    requires (forall l <- a :: Sourced(l)) && (forall l <- b :: Sourced(l))
    ensures Winner(Posix, a + b, name) == Or(Winner(Posix, b, name), Winner(Posix, a, name))
    decreases |b|
  {
    if b == [] {
      assert a + b == a;
    } else {
      var front := b[..|b| - 1];
      assert (a + b)[..|a + b| - 1] == a + front && (a + b)[|a + b| - 1] == b[|b| - 1];
      assert forall l <- a + front :: l in a + b;
      WinnerOf(a, front, name);
    }
  }

  lemma WinnerOfOne(l: Layer, name: string)
    requires Sourced(l)
    ensures Winner(Posix, [l], name) == Says(Posix, l, name)
  {
    assert [l][..0] == [];
  }

  // In a layer that lists each key once, what is said of a name is what stands under it.
  lemma {:induction false} SaysWhatStands(l: Layer, name: string, n: nat)
    requires Sourced(l) && Unique(l.values) && n <= |l.values|
    ensures
      if exists i | 0 <= i < n :: l.values[i].0 == name && l.values[i].1.Some?
      then
        && Has(l.values, name) && Get(l.values, name).value.Some? && Has(l.origins, name)
        && SaysUpTo(Posix, l, name, n) ==
           Some(Assignment(name, Get(l.values, name).value.value, Get(l.origins, name).value, Get(l.unresolved, name)))
      else SaysUpTo(Posix, l, name, n) == None
  {
    if n > 0 {
      SaysWhatStands(l, name, n - 1);
      if l.values[n - 1].0 == name { GetAt(l.values, n - 1); }
      hide Get;
    }
  }

  lemma LayerSays(l: Layer, name: string)
    requires Sourced(l) && Unique(l.values)
    ensures
      var v := Get(l.values, name);
      if v.Some? && v.value.Some?
      then Has(l.origins, name) && Says(Posix, l, name) ==
           Some(Assignment(name, v.value.value, Get(l.origins, name).value, Get(l.unresolved, name)))
      else Says(Posix, l, name) == None
  {
    SaysWhatStands(l, name, |l.values|);
    GetIn(l.values, name);
    forall i | 0 <= i < |l.values| && l.values[i].0 == name ensures Get(l.values, name) == Some(l.values[i].1) { GetAt(l.values, i); }
    hide Get, SaysUpTo;
  }

  lemma {:induction false} GetConstant(values: Dict<string>, origin: Origin, name: string)
    ensures
      var origins := seq(|values|, i requires 0 <= i < |values| => (values[i].0, origin));
      Get(origins, name) == if Has(values, name) then Some(origin) else None
  {
    if values != [] {
      GetConstant(values[1..], origin, name);
      var origins := seq(|values|, i requires 0 <= i < |values| => (values[i].0, origin));
      assert origins[1..] == seq(|values[1..]|, i requires 0 <= i < |values[1..]| => (values[1..][i].0, origin));
    }
  }

  lemma PlainSays(values: Dict<string>, origin: Origin, name: string)
    requires Unique(values)
    ensures Says(Posix, PlainLayer(values, origin), name) == Given(Get(values, name), name, origin)
  {
    var l := PlainLayer(values, origin);
    LayerSays(l, name);
    GetOptional(values, name);
    GetConstant(values, origin, name);
    hide Says, Get;
    assert l.values == Optional(values) && l.unresolved == [];
    assert Get(l.unresolved, name) == None by { NoneIn(name); }
  }

  lemma NoneIn(name: string)
    ensures Get<set<string>>([], name) == None
  {}

  lemma {:induction false} PutUnique<V>(d: Dict<V>, key: string, value: V)
    requires Unique(d)
    ensures Unique(Put(d, key, value))
  {
    if d != [] && d[0].0 != key {
      PutUnique(d[1..], key, value);
      PutElements(d[1..], key, value);
      var rest := Put(d[1..], key, value);
      forall i | 0 <= i < |rest| ensures rest[i].0 != d[0].0 {
        if rest[i] in d[1..] {
          var k :| 0 <= k < |d[1..]| && d[1..][k] == rest[i];
          assert d[k + 1].0 != d[0].0;
        }
      }
    }
  }

  lemma {:induction false} DocumentUnique(kind: SourceKind, document: Document, ambient: Dict<string>, n: nat)
    requires n <= |document.bindings|
    ensures Unique(ResolvedUpTo(Posix, kind, document, Optional(ambient), n).layer.values)
  {
    if n > 0 {
      DocumentUnique(kind, document, ambient, n - 1);
      var s, b := ResolvedUpTo(Posix, kind, document, Optional(ambient), n - 1), document.bindings[n - 1];
      hide Join, Missing, Unique;
      if b.key.Some? {
        PutUnique(s.layer.values, b.key.value, if b.hasValue then Some(Join(Posix, s.context, b.atoms)) else None);
      }
    }
  }

  lemma DocumentSays(
    kind: SourceKind, document: Option<Document>, ambient: Dict<string>, visible: string -> Option<string>, name: string)
    requires Shows(visible, ambient)
    ensures
      var layers := DocumentLayers(Posix, kind, document, ambient);
      (forall l <- layers :: Sourced(l)) && Winner(Posix, layers, name) == FromDocument(kind, document, visible, name)
  {
    DocumentLayersAccount(Posix, kind, document, ambient);
    if document.Some? {
      var d := document.value;
      var l := DocumentLayer(Posix, kind, d, Optional(ambient));
      WinnerOfOne(l, name);
      DocumentUnique(kind, d, ambient, |d.bindings|);
      LayerSays(l, name);
      BindingsRead(kind, d, ambient, visible, name, |d.bindings|);
      hide Says, Get, Winner, Text, Lacking;
    }
  }

  lemma CommandsSourced(commands: seq<CommandAssignment>, target: Target)
    ensures forall l <- CommandLayers(commands, target) :: Sourced(l)
  {
    CommandLayersAccount(commands, target);
    hide CommandLayers;
  }

  lemma {:induction false} CommandsSay(commands: seq<CommandAssignment>, target: Target, name: string)
    requires forall c <- commands :: Unique(c.values)
    ensures forall l <- CommandLayers(commands, target) :: Sourced(l)
    ensures Winner(Posix, CommandLayers(commands, target), name) == FromCommands(commands, target, name)
  {
    CommandsSourced(commands, target);
    if commands != [] {
      var front, last := commands[..|commands| - 1], commands[|commands| - 1];
      assert forall c <- front :: c in commands;
      hide Winner, Unique, Sourced, PlainLayer, Get;
      CommandsSay(front, target, name);
      if target in last.targets {
        CommandSays(CommandLayers(front, target), last, name);
      } else {
        assert CommandLayers(commands, target) == CommandLayers(front, target);
      }
    }
  }

  lemma CommandSays(layers: seq<Layer>, last: CommandAssignment, name: string)
    requires Unique(last.values) && forall l <- layers :: Sourced(l)
    ensures Winner(Posix, layers + [PlainLayer(last.values, Origin(Command, last.reason, None))], name) ==
            if Has(last.values, name)
            then Some(Assignment(name, Get(last.values, name).value, Origin(Command, last.reason, None), None))
            else Winner(Posix, layers, name)
  {
    var l := PlainLayer(last.values, Origin(Command, last.reason, None));
    PlainSays(last.values, Origin(Command, last.reason, None), name);
    WinnerOfOne(l, name);
    WinnerOf(layers, [l], name);
    hide Winner, Says, Unique, Sourced, PlainLayer, Get;
  }

  // ---- The whole plan

  // A Python dict lists each key once.
  ghost predicate Dicts(plan: Plan) {
    Unique(plan.launch) && Unique(plan.configMapping) && forall c <- plan.commands :: Unique(c.values)
  }

  lemma EligibleIsMayPass(plan: Plan, policy: Policy, compatibility: set<string>, name: string)
    ensures name in EligibleNames(plan, policy, compatibility) <==> MayPass(plan, policy, compatibility, name)
  {
    GetIn(plan.configMapping, name);
    var keys := Keys(plan.configMapping);
    assert name in keys <==> Has(plan.configMapping, name) by {
      if name in keys { var i :| 0 <= i < |keys| && keys[i] == name; assert plan.configMapping[i].0 == name; }
      if Has(plan.configMapping, name) {
        var i :| 0 <= i < |plan.configMapping| && plan.configMapping[i].0 == name;
        assert keys[i] == name;
      }
    }
    hide Get, Keys;
  }

  lemma AmbientShows(plan: Plan, policy: Policy, compatibility: set<string>, name: string)
    ensures Get(AllowedAmbient(Posix, plan.launch, policy, EligibleNames(plan, policy, compatibility)), name) ==
            Seen(plan, policy, compatibility, name)
  {
    GetFiltered(plan.launch, EligibleNames(plan, policy, compatibility), name);
    EligibleIsMayPass(plan, policy, compatibility, name);
    hide EligibleNames, MayPass, Filtered;
  }

  lemma LaunchGives(plan: Plan, policy: Policy, compatibility: set<string>, name: string)
    requires Unique(plan.launch)
    ensures
      var values := LaunchValues(Posix, plan, policy, EligibleNames(plan, policy, compatibility));
      Unique(values) && Get(values, name) == FromLaunch(plan, policy, compatibility, name)
  {
    AmbientShows(plan, policy, compatibility, name);
    FilteredIsUnique(plan.launch, EligibleNames(plan, policy, compatibility));
    hide EligibleNames, MayPass, Filtered, Seen;
  }

  lemma AuthSays(plan: Plan, name: string)
    ensures forall l <- AuthLayers(plan) :: Sourced(l)
    ensures Winner(Posix, AuthLayers(plan), name) ==
            Given(if name == "AUTH_MODULE_PATH" then plan.authPath else None, name, Origin(Auth, ConfigName(plan), None))
  {
    if plan.authPath.Some? {
      var values := [(AUTH_KEY, plan.authPath.value)];
      assert values[1..] == [];
      PlainSays(values, Origin(Auth, ConfigName(plan), None), name);
      WinnerOfOne(PlainLayer(values, Origin(Auth, ConfigName(plan), None)), name);
      hide Says, Winner;
    }
  }

  lemma BelowSays(
    plan: Plan, ambient: Dict<string>, visible: string -> Option<string>, name: string)
    requires Unique(plan.configMapping) && Shows(visible, ambient)
    ensures
      var config := ConfigName(plan);
      && (forall l <- Below(Posix, plan, ambient) :: Sourced(l))
      && Winner(Posix, Below(Posix, plan, ambient), name) ==
         Or(FromDocument(CliDotenv, plan.cliDotenv, visible, name),
         Or(Given(if name == "AUTH_MODULE_PATH" then plan.authPath else None, name, Origin(Auth, config, None)),
         Or(Given(Get(plan.configMapping, name), name, Origin(ConfigMapping, config, None)),
            FromDocument(ConfigDotenv, plan.configDotenv, visible, name))))
  {
    var mapping := PlainLayer(plan.configMapping, Origin(ConfigMapping, ConfigName(plan), None));
    var a, c := DocumentLayers(Posix, ConfigDotenv, plan.configDotenv, ambient), AuthLayers(plan);
    var d := DocumentLayers(Posix, CliDotenv, plan.cliDotenv, ambient);
    DocumentSays(ConfigDotenv, plan.configDotenv, ambient, visible, name);
    DocumentSays(CliDotenv, plan.cliDotenv, ambient, visible, name);
    PlainSays(plan.configMapping, Origin(ConfigMapping, ConfigName(plan), None), name);
    WinnerOfOne(mapping, name);
    AuthSays(plan, name);
    assert Below(Posix, plan, ambient) == a + [mapping] + c + d;
    hide Below, DocumentLayers, AuthLayers, Winner, Says, FromDocument, Given;
    WinnerOf(a, [mapping], name);
    WinnerOf(a + [mapping], c, name);
    WinnerOf(a + [mapping] + c, d, name);
  }

  /** The layers decide what the plan decides. */
  lemma PlanDecides(plan: Plan, policy: Policy, compatibility: set<string>, name: string)
    requires Dicts(plan)
    ensures Winner(Posix, Layers(Posix, plan, policy, compatibility), name) == Decided(plan, policy, compatibility, name)
  {
    var names := EligibleNames(plan, policy, compatibility);
    var ambient := AllowedAmbient(Posix, plan.launch, policy, names);
    var visible := (x: string) => Seen(plan, policy, compatibility, x);
    forall x ensures visible(x) == Get(ambient, x) { AmbientShows(plan, policy, compatibility, x); }
    var below := Below(Posix, plan, ambient);
    var launch := PlainLayer(LaunchValues(Posix, plan, policy, names), Origin(Launch, "launch", None));
    var commands := CommandLayers(plan.commands, policy.target);
    BelowSays(plan, ambient, visible, name);
    LaunchGives(plan, policy, compatibility, name);
    PlainSays(LaunchValues(Posix, plan, policy, names), Origin(Launch, "launch", None), name);
    WinnerOfOne(launch, name);
    CommandsSay(plan.commands, policy.target, name);
    assert Layers(Posix, plan, policy, compatibility) == below + [launch] + commands;
    hide Layers, Below, AllowedAmbient, EligibleNames, LaunchValues, CommandLayers, Winner, Says, FromDocument, FromCommands,
      FromLaunch, Given, Seen;
    WinnerOf(below, [launch], name);
    WinnerOf(below + [launch], commands, name);
  }

  /** On POSIX a plan is resolved, unless it is for the Compose control plane, or an unresolved reference is an
      error and what decides some name lacks one; and then every name has what the plan decides. */
  lemma ResolvedAsPlanned(plan: Plan, policy: Policy, compatibility: set<string>)
    requires Dicts(plan)
    ensures
      var r := Resolve(Posix, plan, policy, compatibility);
      && (r.Ok? <==>
            && !policy.target.ComposeControlPlane?
            && (policy.unresolvedIsError ==> forall name :: Complete(Decided(plan, policy, compatibility, name))))
      && (r.Ok? ==> forall name :: Read(r.value, name) == Shown(Decided(plan, policy, compatibility, name), name))
  {
    var env := MergedAll(Posix, Layers(Posix, plan, policy, compatibility));
    forall name ensures Read(env, name) == Shown(Decided(plan, policy, compatibility, name), name) {
      PlanDecides(plan, policy, compatibility, name);
      MergeAllReads(Posix, Layers(Posix, plan, policy, compatibility), name);
    }
    MergeAllReads(Posix, Layers(Posix, plan, policy, compatibility), "");
    NoClashOnPosix(plan, policy);
    UnresolvedExactly(env.unresolved, env.values);
    forall name ensures Complete(Decided(plan, policy, compatibility, name)) <==>
                        !(Has(env.unresolved, name) && Has(env.values, name)) {
      assert Read(env, name) == Shown(Decided(plan, policy, compatibility, name), name);
      DecidedKey(plan, policy, compatibility, name);
    }
    hide Layers, MergedAll, NameClash, FirstUnresolved, Decided, Get;
  }

  predicate Complete(a: Option<Assignment>) { a.None? || a.value.missing.None? }

  lemma DecidedKey(plan: Plan, policy: Policy, compatibility: set<string>, name: string)
    ensures
      var a := Decided(plan, policy, compatibility, name);
      a.Some? ==> a.value.key == name
  {
    CommandKey(plan.commands, policy.target, name);
    hide FromCommands, Text, Lacking, Get, Seen;
  }

  lemma {:induction false} CommandKey(commands: seq<CommandAssignment>, target: Target, name: string)
    ensures FromCommands(commands, target, name).Some? ==> FromCommands(commands, target, name).value.key == name
  {
    if commands != [] { CommandKey(commands[..|commands| - 1], target, name); }
  }

  lemma {:induction false} UnresolvedExactly(unresolved: Dict<set<string>>, values: Dict<string>)
    ensures FirstUnresolved(unresolved, values).None? <==> forall name :: !(Has(unresolved, name) && Has(values, name))
  {
    if unresolved != [] {
      UnresolvedExactly(unresolved[1..], values);
      assert Has(unresolved, unresolved[0].0);
      assert forall name | name != unresolved[0].0 :: Has(unresolved, name) <==> Has(unresolved[1..], name);
      if Has(values, unresolved[0].0) {} else {
        assert forall name :: Has(unresolved, name) && Has(values, name) ==> name != unresolved[0].0;
      }
    }
  }
}
