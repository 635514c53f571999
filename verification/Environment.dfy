/**
  Layered environment resolution: dotenv documents with file-local interpolation, merged in place
  with the other layers. Windows compares names by their case folding, which is a parameter.
*/
module Environment {
  import opened Wrappers
  import opened OrderedDict

  datatype Platform = Posix | Windows(casefold: string -> string)

  predicate Same(p: Platform, a: string, b: string) {
    match p case Posix => a == b case Windows(casefold) => casefold(a) == casefold(b)
  }

  // ---- Dotenv documents

  datatype Atom = Literal(text: string) | Variable(name: string, default: Option<string>)

  datatype Binding = Binding(key: Option<string>, atoms: seq<Atom>, line: int, hasValue: bool)

  datatype Document = Document(path: string, bindings: seq<Binding>)

  datatype SourceKind = ConfigDotenv | ConfigMapping | Auth | CliDotenv | Launch | Command

  datatype Origin = Origin(kind: SourceKind, name: string, line: Option<int>)

  type Context = Dict<Option<string>>

  // The value of the first key whose case folding is that of `name`.
  function FirstFolded(casefold: string -> string, context: Context, name: string): Option<Option<string>> {
    if context == [] then None
    else if casefold(context[0].0) == casefold(name) then Some(context[0].1)
    else FirstFolded(casefold, context[1..], name)
  }

  // context.get(name, default), with `_WindowsEnvironment`'s lookup on Windows.
  function Lookup(p: Platform, context: Context, name: string, default: Option<string>): Option<string> {
    match Get(context, name)
    case Some(value) => value
    case None =>
      match p
      case Posix => default
      case Windows(casefold) =>
        match FirstFolded(casefold, context, name) case Some(value) => value case None => default
  }

  function ResolveAtom(p: Platform, context: Context, atom: Atom): string {
    match atom
    case Literal(text) => text
    case Variable(name, default) =>
      var fallback := if default.Some? then default.value else "";
      match Lookup(p, context, name, Some(fallback)) case Some(value) => value case None => ""
  }

  function Join(p: Platform, context: Context, atoms: seq<Atom>): string {
    if atoms == [] then "" else
      Join(p, context, atoms[..|atoms| - 1]) + ResolveAtom(p, context, atoms[|atoms| - 1])
  }

  function Missing(p: Platform, context: Context, atoms: seq<Atom>): set<string> {
    set a <- atoms | a.Variable? && a.default.None? && Lookup(p, context, a.name, None).None? :: a.name
  }

  /** What one document or mapping contributes. */
  datatype Layer = Layer(
    kind: SourceKind, values: Dict<Option<string>>, origins: Dict<Origin>, unresolved: Dict<set<string>>)

  datatype Resolving = Resolving(context: Context, layer: Layer)

  function ResolveBinding(p: Platform, path: string, s: Resolving, b: Binding): Resolving {
    if b.key.None? then s
    else
      var key, layer := b.key.value, s.layer;
      if !b.hasValue then Resolving(Put(s.context, key, None), layer.(values := Put(layer.values, key, None)))
      else
        var missing := Missing(p, s.context, b.atoms);
        var value := Some(Join(p, s.context, b.atoms));
        Resolving(
          Put(s.context, key, value),
          Layer(layer.kind,
                Put(layer.values, key, value),
                Put(layer.origins, key, Origin(layer.kind, path, Some(b.line))),
                PutOrPop(layer.unresolved, key, if missing != {} then Some(missing) else None)))
  }

  function ResolvedUpTo(p: Platform, kind: SourceKind, document: Document, ambient: Context, n: nat): Resolving
    requires n <= |document.bindings|
  {
    if n == 0 then Resolving(ambient, Layer(kind, [], [], []))
    else ResolveBinding(p, document.path,
                        ResolvedUpTo(p, kind, document, ambient, n - 1), document.bindings[n - 1])
  }

  function DocumentLayer(p: Platform, kind: SourceKind, document: Document, ambient: Context): Layer {
    ResolvedUpTo(p, kind, document, ambient, |document.bindings|).layer
  }

  // ---- Merging

  datatype Env = Env(values: Dict<string>, origins: Dict<Origin>, unresolved: Dict<set<string>>)

  const NOTHING := Env([], [], [])

  // The first key already present that names the same variable; Windows only.
  function Previous(p: Platform, d: Dict<string>, key: string): Option<string> {
    if p.Posix? || d == [] then None
    else if Same(p, d[0].0, key) then Some(d[0].0)
    else Previous(p, d[1..], key)
  }

  function Cleared(p: Platform, env: Env, key: string): Env {
    var previous := Previous(p, env.values, key);
    if previous.None? || previous.value == key then env
    else Env(Pop(env.values, previous.value), Pop(env.origins, previous.value), Pop(env.unresolved, previous.value))
  }

  function Assigned(p: Platform, env: Env, key: string, value: string, origin: Origin, missing: Option<set<string>>)
    : Env
  {
    var cleared := Cleared(p, env, key);
    Env(Put(cleared.values, key, value), Put(cleared.origins, key, origin), PutOrPop(cleared.unresolved, key, missing))
  }

  // Every assigned key has an origin: the merge never fails on a missing one.
  predicate Sourced(layer: Layer) {
    forall i | 0 <= i < |layer.values| && layer.values[i].1.Some? :: Has(layer.origins, layer.values[i].0)
  }

  function MergedUpTo(p: Platform, env: Env, layer: Layer, n: nat): Env
    requires n <= |layer.values| && Sourced(layer)
  {
    if n == 0 then env
    else
      var before := MergedUpTo(p, env, layer, n - 1);
      var key, value := layer.values[n - 1].0, layer.values[n - 1].1;
      if value.None? then before
      else Assigned(p, before, key, value.value, Get(layer.origins, key).value, Get(layer.unresolved, key))
  }

  function Merged(p: Platform, env: Env, layer: Layer): Env
    requires Sourced(layer)
  {
    MergedUpTo(p, env, layer, |layer.values|)
  }

  function MergedAll(p: Platform, layers: seq<Layer>): Env
    requires forall l <- layers :: Sourced(l)
  {
    if layers == [] then NOTHING
    else Merged(p, MergedAll(p, layers[..|layers| - 1]), layers[|layers| - 1])
  }

  // ---- The whole resolution

  datatype Target = HostRuntime | DockerControlPlane | AppContainer | ComposeControlPlane

  datatype NameScope = NoNames | AllNames | DockerControl | ContainerEligible | ComposeSelected

  datatype Policy = Policy(target: Target, interpolation: NameScope, assignment: NameScope, unresolvedIsError: bool)

  datatype CommandAssignment = CommandAssignment(targets: set<Target>, values: Dict<string>, reason: string)

  datatype Plan = Plan(
    configPath: Option<string>, configDotenv: Option<Document>, configMapping: Dict<string>,
    authPath: Option<string>, cliDotenv: Option<Document>, launch: Dict<string>,
    commands: seq<CommandAssignment>, explicitNames: seq<string>)

  datatype ResolveError =
    | ComposeTarget
    | DuplicateName(what: string, first: string, second: string)
    | UnresolvedReference(key: string, names: set<string>)

  const AUTH_KEY := "AUTH_MODULE_PATH"

  function Keys<V>(d: Dict<V>): seq<string> { seq(|d|, i requires 0 <= i < |d| => d[i].0) }

  function BoundKeys(bindings: seq<Binding>): seq<string> {
    if bindings == [] then []
    else (if bindings[0].key.Some? then [bindings[0].key.value] else []) + BoundKeys(bindings[1..])
  }

  // The names a document gives a value to.
  function DeclaredNames(document: Document): set<string> {
    set b <- document.bindings | b.key.Some? && b.hasValue :: b.key.value
  }

  function DocumentNames(document: Option<Document>): set<string> {
    if document.None? then {} else DeclaredNames(document.value)
  }

  function EligibleNames(plan: Plan, policy: Policy, compatibility: set<string>): set<string> {
    (set n <- plan.explicitNames) + (set n <- Keys(plan.configMapping))
    + (if plan.authPath.Some? then {AUTH_KEY} else {})
    + DocumentNames(plan.configDotenv) + DocumentNames(plan.cliDotenv)
    + (if policy.interpolation.ContainerEligible? then compatibility else {})
  }

  predicate Eligible(p: Platform, names: set<string>, name: string) {
    exists n <- names :: Same(p, n, name)
  }

  function Filtered(p: Platform, launch: Dict<string>, names: set<string>): Dict<string> {
    if launch == [] then []
    else if Eligible(p, names, launch[0].0) then [launch[0]] + Filtered(p, launch[1..], names)
    else Filtered(p, launch[1..], names)
  }

  function AllowedAmbient(p: Platform, launch: Dict<string>, policy: Policy, names: set<string>): Dict<string> {
    match policy.interpolation
    case AllNames => launch
    case ContainerEligible => Filtered(p, launch, names)
    case _ => []
  }

  function Optional(d: Dict<string>): Dict<Option<string>> {
    seq(|d|, i requires 0 <= i < |d| => (d[i].0, Some(d[i].1)))
  }

  // A layer whose keys all come from one place.
  function PlainLayer(values: Dict<string>, origin: Origin): (layer: Layer)
    ensures layer.kind == origin.kind && Accounts(layer)
  {
    PlainAccounts(values, origin);
    Layer(origin.kind, Optional(values), seq(|values|, i requires 0 <= i < |values| => (values[i].0, origin)), [])
  }

  function LaunchValues(p: Platform, plan: Plan, policy: Policy, names: set<string>): Dict<string> {
    match policy.assignment
    case AllNames => plan.launch
    case ContainerEligible => AllowedAmbient(p, plan.launch, policy, names)
    case _ => []
  }

  function ConfigName(plan: Plan): string { if plan.configPath.Some? then plan.configPath.value else "config" }

  function DocumentLayers(p: Platform, kind: SourceKind, document: Option<Document>, ambient: Dict<string>): seq<Layer> {
    if document.None? then [] else [DocumentLayer(p, kind, document.value, Optional(ambient))]
  }

  function CommandLayers(commands: seq<CommandAssignment>, target: Target): seq<Layer> {
    if commands == [] then [] else
      var last := commands[|commands| - 1];
      CommandLayers(commands[..|commands| - 1], target) +
      if target in last.targets then [PlainLayer(last.values, Origin(Command, last.reason, None))] else []
  }

  // The layers below the launch environment.
  function Below(p: Platform, plan: Plan, ambient: Dict<string>): (layers: seq<Layer>)
    ensures forall l <- layers :: Accounts(l)
  {
    DocumentLayersAccount(p, ConfigDotenv, plan.configDotenv, ambient);
    DocumentLayersAccount(p, CliDotenv, plan.cliDotenv, ambient);
    DocumentLayers(p, ConfigDotenv, plan.configDotenv, ambient)
    + [PlainLayer(plan.configMapping, Origin(ConfigMapping, ConfigName(plan), None))]
    + AuthLayers(plan)
    + DocumentLayers(p, CliDotenv, plan.cliDotenv, ambient)
  }

  function AuthLayers(plan: Plan): (layers: seq<Layer>)
    ensures forall l <- layers :: l.kind == Auth && Accounts(l)
  {
    if plan.authPath.None? then []
    else [PlainLayer([(AUTH_KEY, plan.authPath.value)], Origin(Auth, ConfigName(plan), None))]
  }

  /** Lowest first: config dotenv, config mapping, auth, CLI dotenv, launch, then the command's own. */
  function Layers(p: Platform, plan: Plan, policy: Policy, compatibility: set<string>): (layers: seq<Layer>)
    ensures forall l <- layers :: Accounts(l)
  {
    CommandLayersAccount(plan.commands, policy.target);
    var names := EligibleNames(plan, policy, compatibility);
    Below(p, plan, AllowedAmbient(p, plan.launch, policy, names))
    + [PlainLayer(LaunchValues(p, plan, policy, names), Origin(Launch, "launch", None))]
    + CommandLayers(plan.commands, policy.target)
  }

  // ---- Errors, in the order they are raised

  // An earlier name that differs from `name` but stands for the same variable.
  function Clashing(p: Platform, names: seq<string>, name: string): Option<string> {
    if names == [] then None
    else if names[0] != name && Same(p, names[0], name) then Some(names[0])
    else Clashing(p, names[1..], name)
  }

  function FirstClash(p: Platform, what: string, names: seq<string>): Option<ResolveError> {
    if p.Posix? || names == [] then None else
      var front, last := names[..|names| - 1], names[|names| - 1];
      match FirstClash(p, what, front)
      case Some(e) => Some(e)
      case None =>
        match Clashing(p, front, last) case None => None case Some(first) => Some(DuplicateName(what, first, last))
  }

  function DocumentClash(p: Platform, document: Option<Document>): Option<ResolveError> {
    if document.None? then None else FirstClash(p, "dotenv document", BoundKeys(document.value.bindings))
  }

  function CommandClash(p: Platform, commands: seq<CommandAssignment>, target: Target): Option<ResolveError> {
    if commands == [] then None else
      match CommandClash(p, commands[..|commands| - 1], target)
      case Some(e) => Some(e)
      case None =>
        var last := commands[|commands| - 1];
        if target in last.targets then FirstClash(p, "command assignment", Keys(last.values)) else None
  }

  function Earlier(a: Option<ResolveError>, b: Option<ResolveError>): Option<ResolveError> {
    if a.Some? then a else b
  }

  function NameClash(p: Platform, plan: Plan, policy: Policy): Option<ResolveError> {
    Earlier(FirstClash(p, "launch environment", Keys(plan.launch)),
    Earlier(FirstClash(p, "config mapping", Keys(plan.configMapping)),
    Earlier(FirstClash(p, "explicit environment selection", plan.explicitNames),
    Earlier(DocumentClash(p, plan.configDotenv),
    Earlier(DocumentClash(p, plan.cliDotenv),
            CommandClash(p, plan.commands, policy.target))))))
  }

  // The first unresolved key that is still assigned.
  function FirstUnresolved(unresolved: Dict<set<string>>, values: Dict<string>): Option<ResolveError> {
    if unresolved == [] then None
    else if Has(values, unresolved[0].0) then Some(UnresolvedReference(unresolved[0].0, unresolved[0].1))
    else FirstUnresolved(unresolved[1..], values)
  }

  function Resolve(p: Platform, plan: Plan, policy: Policy, compatibility: set<string>): Result<Env, ResolveError> {
    if policy.target.ComposeControlPlane? then Err(ComposeTarget)
    else
      match NameClash(p, plan, policy)
      case Some(e) => Err(e)
      case None =>
        var env := MergedAll(p, Layers(p, plan, policy, compatibility));
        match if policy.unresolvedIsError then FirstUnresolved(env.unresolved, env.values) else None
        case Some(e) => Err(e)
        case None => Ok(env)
  }

  // ---- Every layer accounts for what it assigns

  // Every assigned key has an origin, and every origin is the layer's own kind.
  ghost predicate Accounts(layer: Layer) {
    && Sourced(layer)
    && forall i | 0 <= i < |layer.origins| :: layer.origins[i].1.kind == layer.kind
  }

  lemma PlainAccounts(values: Dict<string>, origin: Origin)
    ensures Accounts(Layer(origin.kind, Optional(values),
                           seq(|values|, i requires 0 <= i < |values| => (values[i].0, origin)), []))
  {
    var origins := seq(|values|, i requires 0 <= i < |values| => (values[i].0, origin));
    var layer := Layer(origin.kind, Optional(values), origins, []);
    forall i | 0 <= i < |layer.values| ensures Has(layer.origins, layer.values[i].0) {
      GetIn(layer.origins, layer.values[i].0);
      assert layer.origins[i].0 == layer.values[i].0;
    }
  }

  lemma {:induction false} PutElements<V>(d: Dict<V>, key: string, value: V)
    ensures forall i | 0 <= i < |Put(d, key, value)| :: Put(d, key, value)[i] == (key, value) || Put(d, key, value)[i] in d
  {
    if d != [] && d[0].0 != key { PutElements(d[1..], key, value); }
  }

  lemma {:induction false} DocumentAccounts(
    p: Platform, kind: SourceKind, document: Document, ambient: Context, n: nat)
    requires n <= |document.bindings|
    ensures
      var layer := ResolvedUpTo(p, kind, document, ambient, n).layer;
      layer.kind == kind && Accounts(layer)
  {
    if n > 0 {
      DocumentAccounts(p, kind, document, ambient, n - 1);
      var s, b := ResolvedUpTo(p, kind, document, ambient, n - 1), document.bindings[n - 1];
      var next := ResolveBinding(p, document.path, s, b).layer;
      if b.key.Some? {
        BindingAccounts(p, document.path, s, b);
      }
    }
  }

  lemma BindingAccounts(p: Platform, path: string, s: Resolving, b: Binding)
    requires b.key.Some? && Accounts(s.layer)
    ensures Accounts(ResolveBinding(p, path, s, b).layer)
  {
    var key, next := b.key.value, ResolveBinding(p, path, s, b).layer;
    var value := if b.hasValue then Some(Join(p, s.context, b.atoms)) else None;
    var origin := Origin(s.layer.kind, path, Some(b.line));
    hide Join, Missing;
    PutElements(s.layer.values, key, value);
    PutElements(s.layer.origins, key, origin);
    forall i | 0 <= i < |next.values| && next.values[i].1.Some? ensures Has(next.origins, next.values[i].0) {
      GetPut(s.layer.origins, key, origin, next.values[i].0);
    }
  }

  lemma DocumentLayersAccount(p: Platform, kind: SourceKind, document: Option<Document>, ambient: Dict<string>)
    ensures forall l <- DocumentLayers(p, kind, document, ambient) :: l.kind == kind && Accounts(l)
  {
    if document.Some? {
      DocumentAccounts(p, kind, document.value, Optional(ambient), |document.value.bindings|);
    }
  }

  lemma {:induction false} CommandLayersAccount(commands: seq<CommandAssignment>, target: Target)
    ensures forall l <- CommandLayers(commands, target) :: l.kind == Command && Accounts(l)
  {
    if commands != [] { CommandLayersAccount(commands[..|commands| - 1], target); }
  }
}
