/**
  Planning an image from a host config, and the runtime policy read from a config and from a manifest.
  The file system is a parameter: where a module file lies below the project root, and whether it may be
  selected. The planner's project root is the discovered one.
*/
module RuntimePolicy {
  import opened Wrappers
  import opened OrderedDict
  import opened JsonValues
  import opened Manifest

  datatype Files = Files(
    relative: string -> Option<string>, selectable: string -> bool, importable: string -> bool)

  const AGENT := "/deps/agent/"

  predicate StartsWith(s: string, prefix: string) { |prefix| <= |s| && s[..|prefix|] == prefix }

  function SymbolOf(reference: string): string {
    match RightSplit(reference) case None => "" case Some(parts) => parts.1
  }

  function ContainerReference(relative: string, symbol: string): string { AGENT + relative + ":" + symbol }

  // A reference as the planner rewrites it, if its file can be selected.
  function Planned(reference: string, files: Files): Result<string, ()> {
    if !IsPathReference(reference) then Ok(reference)
    else
      var m := ModuleOf(reference);
      if !files.selectable(m) || files.relative(m).None? then Err(())
      else Ok(ContainerReference(files.relative(m).value, SymbolOf(reference)))
  }

  function PlannedOption(reference: Option<string>, files: Files): Result<Option<string>, ()> {
    match reference
    case None => Ok(None)
    case Some(r) => match Planned(r, files) case Err(_) => Err(()) case Ok(s) => Ok(Some(s))
  }

  // ---- Graphs: the references are collected first and replaced one after the other

  function References(g: Graph): seq<string> {
    match g
    case Reference(r) => [r]
    case Structured(r, prepare, extract, _, _, _, _) =>
      [r] + (if prepare.Some? then [prepare.value] else []) + (if extract.Some? then [extract.value] else [])
  }

  // The first field that holds the reference, as it stands now, takes the rewritten one.
  function Replaced(g: Graph, reference: string, rewritten: string): Graph {
    match g
    case Reference(_) => Reference(rewritten)
    case Structured(r, prepare, extract, _, _, _, _) =>
      if reference == r then g.(graph := rewritten)
      else if Some(reference) == prepare then g.(prepareInput := Some(rewritten))
      else if Some(reference) == extract then g.(extractOutput := Some(rewritten))
      else g
  }

  function PlanReferences(g: Graph, references: seq<string>, files: Files): Result<Graph, ()>
    decreases |references|
  {
    if references == [] then Ok(g)
    else
      var r := references[0];
      if !IsPathReference(r) then
        if files.importable(r) then PlanReferences(g, references[1..], files) else Err(())
      else
        match Planned(r, files)
        case Err(_) => Err(())
        case Ok(s) => PlanReferences(Replaced(g, r, s), references[1..], files)
  }

  function PlanGraph(v: Json, files: Files): Result<Graph, ()> {
    match RawGraph(v)
    case Err(_) => Err(())
    case Ok(g) => PlanReferences(g, References(g), files)
  }

  function PlanGraphs(v: Option<Json>, files: Files): Result<Dict<Graph>, ()> {
    match v
    case Some(Obj(fields)) =>
      if fields != [] && forall i | 0 <= i < |fields| :: fields[i].0 != "" && PlanGraph(fields[i].1, files).Ok?
      then Ok(seq(|fields|, i requires 0 <= i < |fields| => (fields[i].0, PlanGraph(fields[i].1, files).value)))
      else Err(())
    case _ => Err(())
  }

  function PlanIndex(v: Option<Json>, files: Files): Result<Option<StoreIndex>, ()> {
    match OptionalObject(v)
    case Err(_) => Err(())
    case Ok(None) => Ok(None)
    case Ok(Some(fields)) =>
      var a, b, c := OptionalString(Get(fields, "embed")), OptionalInt(Get(fields, "dims")), StringTuple(Get(fields, "fields"));
      if !Allowed(fields, ["embed", "dims", "fields"]) || a.Err? || b.Err? || c.Err? then Err(())
      else
        match PlannedOption(a.value, files)
        case Err(_) => Err(())
        case Ok(embed) => Ok(Some(StoreIndex(embed, b.value, c.value)))
  }

  function PlanStore(v: Option<Json>, files: Files): Result<Option<Store>, ()> {
    match OptionalObject(v)
    case Err(_) => Err(())
    case Ok(None) => Ok(None)
    case Ok(Some(fields)) =>
      var a, b := ParseTtl(Get(fields, "ttl")), PlanIndex(Get(fields, "index"), files);
      if !Allowed(fields, ["ttl", "index"]) || a.Err? || b.Err? then Err(()) else Ok(Some(Store(a.value, b.value)))
  }

  function PlanHttp(v: Option<Json>, files: Files): Result<Option<Http>, ()> {
    match RawHttp(v)
    case Err(_) => Err(())
    case Ok(None) => Ok(None)
    case Ok(Some(h)) =>
      match PlannedOption(h.app, files)
      case Err(_) => Err(())
      case Ok(app) => Ok(Some(h.(app := app)))
  }

  // The manifest before it is parsed again. `runtimeRoots` is None when something else stops the plan.
  function Built(config: Dict<Json>, files: Files, clean: UrlCheck, runtimeRoots: Option<seq<string>>)
    : Result<Manifest, ()>
  {
    var graphs, store := PlanGraphs(Get(config, "graphs"), files), PlanStore(Get(config, "store"), files);
    var http, auth := PlanHttp(Get(config, "http"), files), ParseAuth(Get(config, "auth"), clean);
    if graphs.Err? || store.Err? || http.Err? || auth.Err? || runtimeRoots.None? then Err(())
    else Ok(Manifest(graphs.value, runtimeRoots.value, store.value, http.value, auth.value))
  }

  /** The manifest of `plan_container_image`: built, printed and parsed again. */
  function Plan(config: Dict<Json>, files: Files, clean: UrlCheck, runtimeRoots: Option<seq<string>>)
    : Result<Manifest, ()>
  {
    match Built(config, files, clean, runtimeRoots)
    case Err(_) => Err(())
    case Ok(m) => Parse(Print(m), clean)
  }

  // ---- The effective policy

  datatype CorsPolicy = CorsPolicy(
    allowOrigins: Frozen, allowCredentials: bool, allowMethods: Frozen, allowHeaders: Frozen,
    allowOriginRegex: Frozen, exposeHeaders: Frozen, maxAge: Frozen)

  datatype Policy = Policy(
    mcpEnabled: bool, a2aEnabled: bool, cors: CorsPolicy, customApp: Option<string>,
    authOpenApi: Option<Dict<Frozen>>, studioAuthDisabled: bool)

  // Python's bool(value).
  predicate Truthy(v: Json) {
    match v
    case Null => false
    case Bool(b) => b
    case Int(n) => n != 0
    case Float(r) => r != 0.0
    case Str(s) => s != ""
    case List(items) => items != []
    case Tuple(items) => items != []
    case Obj(fields) => fields != []
    case _ => true
  }

  function Or(v: Option<Json>, default: Json): Json { if v.Some? then v.value else default }

  const STAR := List([Str("*")])

  const EXPOSED := List([Str("Content-Location"), Str("Location")])

  // Credentials are allowed by default unless every origin is.
  predicate Credentials(origins: Json, credentials: Option<Json>) {
    Truthy(Or(credentials, Bool(origins != STAR && origins != Str("*"))))
  }

  // The middleware settings, from the seven entries of the cors section.
  function CorsFrom(origins: Option<Json>, credentials: Option<Json>, methods: Option<Json>, headers: Option<Json>,
                    regex: Option<Json>, expose: Option<Json>, age: Option<Json>): Result<CorsPolicy, ()>
  {
    var o := Or(origins, STAR);
    var m, h, e, a := Or(methods, STAR), Or(headers, STAR), Or(expose, EXPOSED), Or(age, Int(600));
    var r := Or(regex, Null);
    if Freezable(o) && Freezable(m) && Freezable(h) && Freezable(r) && Freezable(e) && Freezable(a)
    then Ok(CorsPolicy(Frost(o), Credentials(o, credentials), Frost(m), Frost(h), Frost(r), Frost(e), Frost(a)))
    else Err(())
  }

  function CorsOf(cors: Dict<Json>): Result<CorsPolicy, ()> {
    CorsFrom(Get(cors, "allow_origins"), Get(cors, "allow_credentials"), Get(cors, "allow_methods"),
             Get(cors, "allow_headers"), Get(cors, "allow_origin_regex"), Get(cors, "expose_headers"), Get(cors, "max_age"))
  }

  // A section that is an object, or nothing.
  function Section(v: Option<Json>): Dict<Json> {
    if v.Some? && v.value.Obj? then v.value.fields else []
  }

  /** `_logical_runtime_reference`; a host config comes with its files, a manifest without. */
  function Logical(reference: Option<Json>, files: Option<Files>): Option<string> {
    if reference.None? || !reference.value.Str? then None
    else
      var s := reference.value.s;
      match RightSplit(s)
      case None => Some(s)
      case Some((m, symbol)) =>
        if StartsWith(m, AGENT) then Some(m[|AGENT|..] + ":" + symbol)
        else if files.Some? && IsPathReference(s) && files.value.relative(m).Some? then
          Some(files.value.relative(m).value + ":" + symbol)
        else Some(s)
  }

  // The policy of an http and an auth section.
  function PolicyOf(http: Dict<Json>, auth: Dict<Json>, files: Option<Files>): Result<Policy, ()> {
    var cors, openapi := CorsOf(Section(Get(http, "cors"))), Get(auth, "openapi");
    if cors.Err? || !Metadata(openapi).Ok? then Err(())
    else Ok(Policy(
      Get(http, "disable_mcp") != Some(Bool(true)), Get(http, "disable_a2a") != Some(Bool(true)), cors.value,
      Logical(Get(http, "app"), files), Metadata(openapi).value, Get(auth, "disable_studio_auth") == Some(Bool(true))))
  }

  // The mapping the policy reads from an openapi entry.
  function Metadata(openapi: Option<Json>): Result<Option<Dict<Frozen>>, ()> {
    if openapi.None? || !openapi.value.Obj? then Ok(None)
    else if Freezable(openapi.value) then Ok(Some(Frost(openapi.value).fields))
    else Err(())
  }

  /** `_effective_runtime_policy`. */
  function EffectivePolicy(document: Dict<Json>, files: Option<Files>): Result<Policy, ()> {
    PolicyOf(Section(Get(document, "http")), Section(Get(document, "auth")), files)
  }

  function HostPolicy(config: Dict<Json>, files: Files): Result<Policy, ()> { EffectivePolicy(config, Some(files)) }

  function ManifestPolicy(m: Manifest): Result<Policy, ()> { EffectivePolicy(Print(m).fields, None) }

  // Two mappings are equal when they agree on every key.
  ghost predicate SameMapping(a: Option<Dict<Frozen>>, b: Option<Dict<Frozen>>) {
    (a.Some? <==> b.Some?) && (a.Some? ==> forall n :: Get(a.value, n) == Get(b.value, n))
  }

  ghost predicate SamePolicy(a: Policy, b: Policy) {
    a.(authOpenApi := None) == b.(authOpenApi := None) && SameMapping(a.authOpenApi, b.authOpenApi)
  }
}
