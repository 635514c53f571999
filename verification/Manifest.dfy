/**
  The container runtime manifest: its dataclasses, its printer and its validating parser. Every error
  is one error. The URL check of the security metadata is a parameter, a predicate on strings.
*/
module Manifest {
  import opened Wrappers
  import opened OrderedDict
  import opened JsonValues

  datatype Number = Whole(n: int) | Fraction(r: real)

  datatype Graph =
    | Reference(reference: string)
    | Structured(
        graph: string, prepareInput: Option<string>, extractOutput: Option<string>, name: Option<string>,
        description: Option<string>, inputSchema: Option<Dict<Frozen>>, outputSchema: Option<Dict<Frozen>>)

  datatype StoreTtl = StoreTtl(
    refreshOnRead: Option<bool>, defaultTtl: Option<Number>, sweepIntervalMinutes: Option<int>)

  datatype StoreIndex = StoreIndex(embed: Option<string>, dims: Option<int>, fields: Option<seq<string>>)

  datatype Store = Store(ttl: Option<StoreTtl>, index: Option<StoreIndex>)

  datatype Cors = Cors(
    allowOrigins: Option<seq<string>>, allowOriginRegex: Option<string>, allowMethods: Option<seq<string>>,
    allowHeaders: Option<seq<string>>, allowCredentials: Option<bool>, exposeHeaders: Option<seq<string>>,
    maxAge: Option<int>)

  datatype Http = Http(app: Option<string>, cors: Option<Cors>, disableMcp: Option<bool>, disableA2a: Option<bool>)

  datatype OpenApi = OpenApi(securitySchemes: Option<Dict<Frozen>>, security: Option<seq<Dict<seq<string>>>>)

  datatype Auth = Auth(openapi: Option<OpenApi>, disableStudioAuth: Option<bool>)

  /** The identity, schema version 1 and the fixed runtime, is the same in every manifest. */
  datatype Manifest = Manifest(
    graphs: Dict<Graph>, dependencies: seq<string>, store: Option<Store>, http: Option<Http>, auth: Option<Auth>)

  const RUNTIME := [("distribution", Str("agentseek-api")), ("version", Str("0.3.3")), ("contract", Str("preloaded-v1"))]

  // ---- Printing

  function BoolJson(o: Option<bool>): Option<Json> { if o.None? then None else Some(Bool(o.value)) }

  function IntJson(o: Option<int>): Option<Json> { if o.None? then None else Some(Int(o.value)) }

  function StrJson(o: Option<string>): Option<Json> { if o.None? then None else Some(Str(o.value)) }

  function NumberJson(o: Option<Number>): Option<Json> {
    match o
    case None => None
    case Some(Whole(n)) => Some(Int(n))
    case Some(Fraction(r)) => Some(Float(r))
  }

  function SchemaJson(o: Option<Dict<Frozen>>): Option<Json> { if o.None? then None else Some(Thaw(FObj(o.value))) }

  function Strings(items: seq<string>): Json { List(seq(|items|, i requires 0 <= i < |items| => Str(items[i]))) }

  function StringsJson(o: Option<seq<string>>): Option<Json> { if o.None? then None else Some(Strings(o.value)) }

  function GraphSlots(g: Graph): seq<Slot>
    requires g.Structured?
  {
    [("graph", Some(Str(g.graph))), ("prepare_input", StrJson(g.prepareInput)),
     ("extract_output", StrJson(g.extractOutput)), ("name", StrJson(g.name)),
     ("description", StrJson(g.description)), ("input_schema", SchemaJson(g.inputSchema)),
     ("output_schema", SchemaJson(g.outputSchema))]
  }

  function GraphJson(g: Graph): Json {
    if g.Reference? then Str(g.reference) else Obj(OmitNone(GraphSlots(g)))
  }

  function TtlSlots(t: StoreTtl): seq<Slot> {
    [("refresh_on_read", BoolJson(t.refreshOnRead)), ("default_ttl", NumberJson(t.defaultTtl)),
     ("sweep_interval_minutes", IntJson(t.sweepIntervalMinutes))]
  }

  function IndexSlots(x: StoreIndex): seq<Slot> {
    [("embed", StrJson(x.embed)), ("dims", IntJson(x.dims)), ("fields", StringsJson(x.fields))]
  }

  function StoreSlots(s: Store): seq<Slot> {
    [("ttl", if s.ttl.None? then None else Some(Obj(OmitNone(TtlSlots(s.ttl.value))))),
     ("index", if s.index.None? then None else Some(Obj(OmitNone(IndexSlots(s.index.value)))))]
  }

  function CorsSlots(c: Cors): seq<Slot> {
    [("allow_origins", StringsJson(c.allowOrigins)), ("allow_origin_regex", StrJson(c.allowOriginRegex)),
     ("allow_methods", StringsJson(c.allowMethods)), ("allow_headers", StringsJson(c.allowHeaders)),
     ("allow_credentials", BoolJson(c.allowCredentials)), ("expose_headers", StringsJson(c.exposeHeaders)),
     ("max_age", IntJson(c.maxAge))]
  }

  function HttpSlots(h: Http): seq<Slot> {
    [("app", StrJson(h.app)), ("disable_mcp", BoolJson(h.disableMcp)), ("disable_a2a", BoolJson(h.disableA2a)),
     ("cors", if h.cors.None? then None else Some(Obj(OmitNone(CorsSlots(h.cors.value)))))]
  }

  function SchemesJson(schemes: Dict<Frozen>): Json {
    Obj(seq(|schemes|, i requires 0 <= i < |schemes| => (schemes[i].0, Thaw(schemes[i].1))))
  }

  function RequirementJson(requirement: Dict<seq<string>>): Json {
    Obj(seq(|requirement|, i requires 0 <= i < |requirement| => (requirement[i].0, Strings(requirement[i].1))))
  }

  function SecurityJson(security: seq<Dict<seq<string>>>): Json {
    List(seq(|security|, i requires 0 <= i < |security| => RequirementJson(security[i])))
  }

  function OpenApiSlots(o: OpenApi): seq<Slot> {
    [("securitySchemes", if o.securitySchemes.None? then None else Some(SchemesJson(o.securitySchemes.value))),
     ("security", if o.security.None? then None else Some(SecurityJson(o.security.value)))]
  }

  function AuthSlots(a: Auth): seq<Slot> {
    [("disable_studio_auth", BoolJson(a.disableStudioAuth)),
     ("openapi", if a.openapi.None? then None else Some(Obj(OmitNone(OpenApiSlots(a.openapi.value)))))]
  }

  function GraphsJson(graphs: Dict<Graph>): Json {
    Obj(seq(|graphs|, i requires 0 <= i < |graphs| => (graphs[i].0, GraphJson(graphs[i].1))))
  }

  function StoreJson(o: Option<Store>): Option<Json> {
    if o.None? then None else Some(Obj(OmitNone(StoreSlots(o.value))))
  }

  function HttpJson(o: Option<Http>): Option<Json> {
    if o.None? then None else Some(Obj(OmitNone(HttpSlots(o.value))))
  }

  function AuthJson(o: Option<Auth>): Option<Json> {
    if o.None? then None else Some(Obj(OmitNone(AuthSlots(o.value))))
  }

  function ManifestSlots(m: Manifest): seq<Slot> {
    [("schema_version", Some(Int(1))), ("runtime", Some(Obj(RUNTIME))), ("graphs", Some(GraphsJson(m.graphs))),
     ("dependencies", Some(Strings(m.dependencies))),
     ("store", StoreJson(m.store)), ("http", HttpJson(m.http)), ("auth", AuthJson(m.auth))]
  }

  /** `to_json_object`. */
  function Print(m: Manifest): Json { Obj(OmitNone(ManifestSlots(m))) }

  // ---- References

  // The text before the last colon and after it.
  function RightSplit(s: string): Option<(string, string)> {
    if s == "" then None
    else if s[|s| - 1] == ':' then Some((s[..|s| - 1], ""))
    else
      match RightSplit(s[..|s| - 1])
      case None => None
      case Some(parts) => Some((parts.0, parts.1 + [s[|s| - 1]]))
  }

  function ModuleOf(reference: string): string {
    match RightSplit(reference) case None => reference case Some(parts) => parts.0
  }

  predicate EndsWith(s: string, suffix: string) { |suffix| <= |s| && s[|s| - |suffix|..] == suffix }

  // `_is_path_reference`; an absolute path contains a slash.
  predicate IsPathReference(reference: string) {
    var m := ModuleOf(reference);
    EndsWith(m, ".py") || (m != "" && m[0] == '.') || '/' in m || '\\' in m
  }

  function Split(s: string, separator: char): (parts: seq<string>)
    ensures |parts| >= 1
  {
    if s == "" then [""]
    else if s[0] == separator then [""] + Split(s[1..], separator)
    else
      var rest := Split(s[1..], separator);
      [[s[0]] + rest[0]] + rest[1..]
  }

  predicate Identifier(s: string) {
    && s != ""
    && ('A' <= s[0] <= 'Z' || 'a' <= s[0] <= 'z' || s[0] == '_')
    && forall c <- s :: 'A' <= c <= 'Z' || 'a' <= c <= 'z' || c == '_' || '0' <= c <= '9'
  }

  // An absolute normalized path at or below /deps/agent.
  predicate ContainerPath(path: string) {
    var parts := Split(path, '/');
    && |parts| >= 3 && parts[0] == "" && parts[1] == "deps" && parts[2] == "agent"
    && forall i | 1 <= i < |parts| :: parts[i] != "" && parts[i] != "." && parts[i] != ".."
  }

  /** `_validate_preloaded_reference`. */
  predicate PreloadedReference(reference: string, allowEmpty: bool) {
    (reference == "" && allowEmpty) ||
    match RightSplit(reference)
    case None => false
    case Some((m, symbol)) =>
      && m != "" && symbol != "" && '\\' !in m
      && if IsPathReference(reference) then ContainerPath(m) && |Split(m, '/')| >= 4
         else (forall part <- Split(m, '.') :: Identifier(part)) && Identifier(symbol)
  }

  // ---- Parsing

  function OptionalBool(v: Option<Json>): Result<Option<bool>, ()> {
    match v
    case None => Ok(None)
    case Some(Null) => Ok(None)
    case Some(Bool(b)) => Ok(Some(b))
    case _ => Err(())
  }

  function OptionalInt(v: Option<Json>): Result<Option<int>, ()> {
    match v
    case None => Ok(None)
    case Some(Null) => Ok(None)
    case Some(Int(n)) => Ok(Some(n))
    case _ => Err(())
  }

  function OptionalNumber(v: Option<Json>): Result<Option<Number>, ()> {
    match v
    case None => Ok(None)
    case Some(Null) => Ok(None)
    case Some(Int(n)) => Ok(Some(Whole(n)))
    case Some(Float(r)) => Ok(Some(Fraction(r)))
    case _ => Err(())
  }

  function OptionalString(v: Option<Json>): Result<Option<string>, ()> {
    match v
    case None => Ok(None)
    case Some(Null) => Ok(None)
    case Some(Str(s)) => Ok(Some(s))
    case _ => Err(())
  }

  predicate StringList(v: Json) { v.List? && forall i | 0 <= i < |v.items| :: v.items[i].Str? }

  function StringsOf(v: Json): seq<string>
    requires StringList(v)
  {
    seq(|v.items|, i requires 0 <= i < |v.items| => v.items[i].s)
  }

  /** `_string_tuple`. */
  function StringTuple(v: Option<Json>): Result<Option<seq<string>>, ()> {
    match v
    case None => Ok(None)
    case Some(Null) => Ok(None)
    case Some(list) => if StringList(list) then Ok(Some(StringsOf(list))) else Err(())
  }

  // An optional object.
  function OptionalObject(v: Option<Json>): Result<Option<Dict<Json>>, ()> {
    match v
    case None => Ok(None)
    case Some(Null) => Ok(None)
    case Some(Obj(fields)) => Ok(Some(fields))
    case _ => Err(())
  }

  function OptionalSchema(v: Option<Json>): Result<Option<Dict<Frozen>>, ()> {
    match OptionalObject(v)
    case Err(_) => Err(())
    case Ok(None) => Ok(None)
    case Ok(Some(fields)) => if Freezable(Obj(fields)) then Ok(Some(Frost(Obj(fields)).fields)) else Err(())
  }

  const GRAPH_NAMES := ["graph", "prepare_input", "extract_output", "name", "description", "input_schema", "output_schema"]

  // A graph before its references are looked at.
  function RawGraph(v: Json): Result<Graph, ()> {
    match v
    case Str(s) => Ok(Reference(s))
    case Obj(fields) =>
      var prepare, extract := OptionalString(Get(fields, "prepare_input")), OptionalString(Get(fields, "extract_output"));
      var name, description := OptionalString(Get(fields, "name")), OptionalString(Get(fields, "description"));
      var input, output := OptionalSchema(Get(fields, "input_schema")), OptionalSchema(Get(fields, "output_schema"));
      (match Get<Json>(fields, "graph")
       case Some(Str(g)) =>
         if !Allowed(fields, GRAPH_NAMES) || prepare.Err? || extract.Err? || name.Err? || description.Err?
            || input.Err? || output.Err? then Err(())
         else Ok(Structured(g, prepare.value, extract.value, name.value, description.value, input.value, output.value))
       case _ => Err(()))
    case _ => Err(())
  }

  // The references of a graph that a preloaded manifest must have copied.
  predicate GraphPreloaded(g: Graph) {
    match g
    case Reference(r) => PreloadedReference(r, false)
    case Structured(r, prepare, extract, _, _, _, _) =>
      && PreloadedReference(r, false)
      && (prepare.Some? ==> PreloadedReference(prepare.value, false))
      && (extract.Some? ==> PreloadedReference(extract.value, false))
  }

  function ParseGraph(v: Json): Result<Graph, ()> {
    match RawGraph(v)
    case Ok(g) => if GraphPreloaded(g) then Ok(g) else Err(())
    case Err(_) => Err(())
  }

  // Each item of an object parsed, or an error if any fails.
  function ParseGraphs(v: Option<Json>): Result<Dict<Graph>, ()> {
    match v
    case Some(Obj(fields)) =>
      if fields != [] && forall i | 0 <= i < |fields| :: fields[i].0 != "" && ParseGraph(fields[i].1).Ok?
      then Ok(seq(|fields|, i requires 0 <= i < |fields| => (fields[i].0, ParseGraph(fields[i].1).value)))
      else Err(())
    case _ => Err(())
  }

  function ParseTtl(v: Option<Json>): Result<Option<StoreTtl>, ()> {
    match OptionalObject(v)
    case Err(_) => Err(())
    case Ok(None) => Ok(None)
    case Ok(Some(fields)) =>
      var a, b := OptionalBool(Get(fields, "refresh_on_read")), OptionalNumber(Get(fields, "default_ttl"));
      var c := OptionalInt(Get(fields, "sweep_interval_minutes"));
      if !Allowed(fields, ["refresh_on_read", "default_ttl", "sweep_interval_minutes"]) || a.Err? || b.Err? || c.Err?
      then Err(()) else Ok(Some(StoreTtl(a.value, b.value, c.value)))
  }

  function ParseIndex(v: Option<Json>): Result<Option<StoreIndex>, ()> {
    match OptionalObject(v)
    case Err(_) => Err(())
    case Ok(None) => Ok(None)
    case Ok(Some(fields)) =>
      var a, b, c := OptionalString(Get(fields, "embed")), OptionalInt(Get(fields, "dims")), StringTuple(Get(fields, "fields"));
      if !Allowed(fields, ["embed", "dims", "fields"]) || a.Err? || b.Err? || c.Err? then Err(())
      else if !EmbedPreloaded(a.value) then Err(())
      else Ok(Some(StoreIndex(a.value, b.value, c.value)))
  }

  predicate EmbedPreloaded(embed: Option<string>) {
    embed.Some? && IsPathReference(embed.value) ==> PreloadedReference(embed.value, false)
  }

  function ParseStore(v: Option<Json>): Result<Option<Store>, ()> {
    match OptionalObject(v)
    case Err(_) => Err(())
    case Ok(None) => Ok(None)
    case Ok(Some(fields)) =>
      var a, b := ParseTtl(Get(fields, "ttl")), ParseIndex(Get(fields, "index"));
      if !Allowed(fields, ["ttl", "index"]) || a.Err? || b.Err? then Err(()) else Ok(Some(Store(a.value, b.value)))
  }

  const CORS_NAMES := [
    "allow_origins", "allow_origin_regex", "allow_methods", "allow_headers", "allow_credentials", "expose_headers", "max_age"]

  /** `_parse_cors`. */
  function ParseCors(v: Option<Json>): Result<Option<Cors>, ()> {
    match OptionalObject(v)
    case Err(_) => Err(())
    case Ok(None) => Ok(None)
    case Ok(Some(fields)) =>
      var origins, regex := StringTuple(Get(fields, "allow_origins")), OptionalString(Get(fields, "allow_origin_regex"));
      var methods, headers := StringTuple(Get(fields, "allow_methods")), StringTuple(Get(fields, "allow_headers"));
      var credentials, expose := OptionalBool(Get(fields, "allow_credentials")), StringTuple(Get(fields, "expose_headers"));
      var age := OptionalInt(Get(fields, "max_age"));
      if !Allowed(fields, CORS_NAMES) || origins.Err? || regex.Err? || methods.Err? || headers.Err?
         || credentials.Err? || expose.Err? || age.Err? then Err(())
      else Ok(Some(Cors(origins.value, regex.value, methods.value, headers.value, credentials.value, expose.value, age.value)))
  }

  // An http section before its app reference is looked at.
  function RawHttp(v: Option<Json>): Result<Option<Http>, ()> {
    match OptionalObject(v)
    case Err(_) => Err(())
    case Ok(None) => Ok(None)
    case Ok(Some(fields)) =>
      var app, cors := OptionalString(Get(fields, "app")), ParseCors(Get(fields, "cors"));
      var mcp, a2a := OptionalBool(Get(fields, "disable_mcp")), OptionalBool(Get(fields, "disable_a2a"));
      if !Allowed(fields, ["app", "cors", "disable_mcp", "disable_a2a"]) || app.Err? || cors.Err? || mcp.Err? || a2a.Err?
      then Err(()) else Ok(Some(Http(app.value, cors.value, mcp.value, a2a.value)))
  }

  predicate AppPreloaded(h: Option<Http>) {
    h.Some? && h.value.app.Some? ==> PreloadedReference(h.value.app.value, true)
  }

  function ParseHttp(v: Option<Json>): Result<Option<Http>, ()> {
    match RawHttp(v)
    case Ok(h) => if AppPreloaded(h) then Ok(h) else Err(())
    case Err(_) => Err(())
  }

  // ---- OpenAPI security metadata

  type UrlCheck = string -> bool

  function AllowedByType(schemeType: string): Option<seq<string>> {
    if schemeType == "apiKey" then Some(["type", "description", "name", "in"])
    else if schemeType == "http" then Some(["type", "description", "scheme", "bearerFormat"])
    else if schemeType == "oauth2" then Some(["type", "description", "flows"])
    else if schemeType == "openIdConnect" then Some(["type", "description", "openIdConnectUrl"])
    else None
  }

  function RequiredByType(schemeType: string): seq<string> {
    if schemeType == "apiKey" then ["name", "in"]
    else if schemeType == "http" then ["scheme"]
    else if schemeType == "oauth2" then ["flows"]
    else ["openIdConnectUrl"]
  }

  predicate HasAll(fields: Dict<Json>, names: seq<string>) { forall n <- names :: Has(fields, n) }

  predicate StringMap(v: Json) { v.Obj? && forall i | 0 <= i < |v.fields| :: v.fields[i].1.Str? }

  // A map of scopes, or a URL: null, or a string that passes the check.
  predicate ValidFlowField(name: string, v: Json, clean: UrlCheck) {
    if name == "scopes" then StringMap(v) else v.Null? || (v.Str? && clean(v.s))
  }

  predicate ValidFlow(name: string, v: Json, clean: UrlCheck) {
    && name in ["implicit", "password", "clientCredentials", "authorizationCode"]
    && v.Obj?
    && Allowed(v.fields, ["tokenUrl", "refreshUrl", "scopes"] +
                         if name == "implicit" || name == "authorizationCode" then ["authorizationUrl"] else [])
    && HasAll(v.fields, if name == "implicit" then ["authorizationUrl", "scopes"]
                        else if name == "authorizationCode" then ["authorizationUrl", "tokenUrl", "scopes"]
                        else ["tokenUrl", "scopes"])
    && forall i | 0 <= i < |v.fields| :: ValidFlowField(v.fields[i].0, v.fields[i].1, clean)
  }

  /** `_validate_oauth_flows`. */
  predicate ValidFlows(v: Json, clean: UrlCheck) {
    v.Obj? && v.fields != [] && forall i | 0 <= i < |v.fields| :: ValidFlow(v.fields[i].0, v.fields[i].1, clean)
  }

  predicate ValidSchemeField(name: string, v: Json, clean: UrlCheck) {
    if name == "flows" then ValidFlows(v, clean)
    else v.Str? && (EndsWith(name, "Url") ==> clean(v.s))
  }

  /** `_validate_security_scheme`. Its names are all allowed ones, so none begins with x-. */
  predicate ValidScheme(v: Json, clean: UrlCheck) {
    && v.Obj?
    && (match Get<Json>(v.fields, "type")
        case Some(Str(t)) =>
          && AllowedByType(t).Some? && Allowed(v.fields, AllowedByType(t).value)
          && HasAll(v.fields, RequiredByType(t))
          && (t == "apiKey" ==> Get(v.fields, "in") in [Some(Str("query")), Some(Str("header")), Some(Str("cookie"))])
        case _ => false)
    && forall i | 0 <= i < |v.fields| :: ValidSchemeField(v.fields[i].0, v.fields[i].1, clean)
  }

  function ParseSchemes(v: Option<Json>, clean: UrlCheck): Result<Option<Dict<Frozen>>, ()> {
    match OptionalObject(v)
    case Err(_) => Err(())
    case Ok(None) => Ok(None)
    case Ok(Some(fields)) =>
      if forall i | 0 <= i < |fields| :: ValidScheme(fields[i].1, clean) && Freezable(fields[i].1)
      then Ok(Some(seq(|fields|, i requires 0 <= i < |fields| => (fields[i].0, Frost(fields[i].1)))))
      else Err(())
  }

  // One requirement: scope lists for schemes that exist.
  predicate ValidRequirement(v: Json, schemes: seq<string>) {
    v.Obj? && forall i | 0 <= i < |v.fields| :: v.fields[i].0 in schemes && StringList(v.fields[i].1)
  }

  function RequirementOf(v: Json, schemes: seq<string>): Dict<seq<string>>
    requires ValidRequirement(v, schemes)
  {
    seq(|v.fields|, i requires 0 <= i < |v.fields| => (v.fields[i].0, StringsOf(v.fields[i].1)))
  }

  function Names<V>(d: Dict<V>): seq<string> { seq(|d|, i requires 0 <= i < |d| => d[i].0) }

  function ParseSecurity(v: Option<Json>, schemes: seq<string>): Result<Option<seq<Dict<seq<string>>>>, ()> {
    match v
    case None => Ok(None)
    case Some(Null) => Ok(None)
    case Some(List(items)) =>
      if forall i | 0 <= i < |items| :: ValidRequirement(items[i], schemes)
      then Ok(Some(seq(|items|, i requires 0 <= i < |items| => RequirementOf(items[i], schemes))))
      else Err(())
    case _ => Err(())
  }

  function SchemeNames(schemes: Option<Dict<Frozen>>): seq<string> {
    if schemes.None? then [] else Names(schemes.value)
  }

  function ParseOpenApi(v: Option<Json>, clean: UrlCheck): Result<Option<OpenApi>, ()> {
    match OptionalObject(v)
    case Err(_) => Err(())
    case Ok(None) => Ok(None)
    case Ok(Some(fields)) =>
      match ParseSchemes(Get(fields, "securitySchemes"), clean)
      case Err(_) => Err(())
      case Ok(schemes) =>
        match ParseSecurity(Get(fields, "security"), SchemeNames(schemes))
        case Err(_) => Err(())
        case Ok(security) =>
          if Allowed(fields, ["securitySchemes", "security"]) then Ok(Some(OpenApi(schemes, security))) else Err(())
  }

  /** `_parse_auth`, without the path it also returns. */
  function ParseAuth(v: Option<Json>, clean: UrlCheck): Result<Option<Auth>, ()> {
    match OptionalObject(v)
    case Err(_) => Err(())
    case Ok(None) => Ok(None)
    case Ok(Some(fields)) =>
      var path, openapi := OptionalString(Get(fields, "path")), ParseOpenApi(Get(fields, "openapi"), clean);
      var studio := OptionalBool(Get(fields, "disable_studio_auth"));
      if !Allowed(fields, ["path", "openapi", "disable_studio_auth"]) || path.Err? || openapi.Err? || studio.Err?
      then Err(()) else Ok(Some(Auth(openapi.value, studio.value)))
  }

  predicate ContainerDirectories(v: Option<Json>) {
    && v.Some? && StringList(v.value)
    && forall i | 0 <= i < |v.value.items| :: ContainerPath(v.value.items[i].s)
  }

  // runtime == {...}: the three items in any order.
  predicate RuntimeIdentity(v: Option<Json>) {
    && v.Some? && v.value.Obj?
    && Allowed(v.value.fields, ["distribution", "version", "contract"])
    && Get(v.value.fields, "distribution") == Some(Str("agentseek-api"))
    && Get(v.value.fields, "version") == Some(Str("0.3.3"))
    && Get(v.value.fields, "contract") == Some(Str("preloaded-v1"))
  }

  const MANIFEST_NAMES := ["schema_version", "runtime", "graphs", "dependencies", "store", "http", "auth"]

  predicate MentionsPath(auth: Option<Json>) { auth.Some? && auth.value.Obj? && Has(auth.value.fields, "path") }

  /** `_parse_container_runtime_manifest_v1_object`. */
  function Parse(v: Json, clean: UrlCheck): Result<Manifest, ()> {
    match v
    case Obj(d) =>
      var graphs, store := ParseGraphs(Get(d, "graphs")), ParseStore(Get(d, "store"));
      var http, auth := ParseHttp(Get(d, "http")), ParseAuth(Get(d, "auth"), clean);
      if !Allowed(d, MANIFEST_NAMES) || !RuntimeIdentity(Get(d, "runtime"))
         || Get(d, "schema_version") != Some(Int(1)) || !ContainerDirectories(Get(d, "dependencies"))
         || MentionsPath(Get(d, "auth")) || graphs.Err? || store.Err? || http.Err? || auth.Err?
      then Err(())
      else Ok(Manifest(graphs.value, StringsOf(Get(d, "dependencies").value), store.value, http.value, auth.value))
    case _ => Err(())
  }
}
