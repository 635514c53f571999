/** What the effective policy says, in terms of a manifest's fields and of a config's entries. */
module PolicyMeaning {
  import opened Wrappers
  import opened OrderedDict
  import opened JsonValues
  import opened Manifest
  import opened ManifestRoundTrip
  import opened RuntimePolicy
  import opened PolicyPreserved

  // ---- A manifest

  const NO_CORS := Cors(None, None, None, None, None, None, None)

  function CorsIn(m: Manifest): Cors {
    if m.http.Some? && m.http.value.cors.Some? then m.http.value.cors.value else NO_CORS
  }

  function Texts(items: seq<string>): Frozen { FTuple(seq(|items|, i requires 0 <= i < |items| => FStr(items[i]))) }

  function Default<T>(o: Option<T>, default: T): T { if o.Some? then o.value else default }

  /** The settings of a manifest's cors section, each with its default. */
  ghost predicate CorsMeans(p: CorsPolicy, c: Cors) {
    && p.allowOrigins == Texts(Default(c.allowOrigins, ["*"]))
    && p.allowMethods == Texts(Default(c.allowMethods, ["*"]))
    && p.allowHeaders == Texts(Default(c.allowHeaders, ["*"]))
    && p.exposeHeaders == Texts(Default(c.exposeHeaders, ["Content-Location", "Location"]))
    && p.allowOriginRegex == (if c.allowOriginRegex.Some? then FStr(c.allowOriginRegex.value) else FNull)
    && p.maxAge == FInt(Default(c.maxAge, 600))
    && p.allowCredentials == Default(c.allowCredentials, Default(c.allowOrigins, ["*"]) != ["*"])
  }

  lemma TextsFrost(items: seq<string>)
    ensures Freezable(Strings(items)) && Frost(Strings(items)) == Texts(items)
  {}

  lemma TextsOr(o: Option<seq<string>>, default: seq<string>)
    ensures Or(StringsJson(o), Strings(default)) == Strings(Default(o, default))
  {}

  lemma DefaultTexts()
    ensures STAR == Strings(["*"]) && EXPOSED == Strings(["Content-Location", "Location"])
  {
    assert Strings(["*"]).items == [Str("*")];
    assert Strings(["Content-Location", "Location"]).items == [Str("Content-Location"), Str("Location")];
  }

  lemma StringsDiffer(a: seq<string>, b: seq<string>)
    ensures Strings(a) == Strings(b) <==> a == b
  {
    if Strings(a) == Strings(b) {
      forall i | 0 <= i < |a| ensures a[i] == b[i] {
        assert Strings(a).items[i] == Str(a[i]) && Strings(b).items[i] == Str(b[i]);
      }
    }
  }

  lemma CredentialsMean(origins: seq<string>, c: Option<bool>)
    ensures Credentials(Strings(origins), BoolJson(c)) == Default(c, origins != ["*"])
  {
    DefaultTexts();
    StringsDiffer(origins, ["*"]);
  }

  lemma ManifestCorsMeans(c: Cors)
    ensures
      var p := CorsOf(OmitNone(CorsSlots(c)));
      p.Ok? && CorsMeans(p.value, c)
  {
    CorsLookups(c);
    DefaultTexts();
    TextsOr(c.allowOrigins, ["*"]);
    TextsOr(c.allowMethods, ["*"]);
    TextsOr(c.allowHeaders, ["*"]);
    TextsOr(c.exposeHeaders, ["Content-Location", "Location"]);
    TextsFrost(Default(c.allowOrigins, ["*"]));
    TextsFrost(Default(c.allowMethods, ["*"]));
    TextsFrost(Default(c.allowHeaders, ["*"]));
    TextsFrost(Default(c.exposeHeaders, ["Content-Location", "Location"]));
    CredentialsMean(Default(c.allowOrigins, ["*"]), c.allowCredentials);
    ScalarsMean(c.allowOriginRegex, c.maxAge);
    hide OmitNone, CorsSlots, Get, Strings, StringsJson, StrJson, IntJson, BoolJson, Freezable, Frost, Credentials, Or, Default, Texts;
  }

  lemma ScalarsMean(s: Option<string>, n: Option<int>)
    ensures
      var r, a := Or(StrJson(s), Null), Or(IntJson(n), Int(600));
      && Freezable(r) && Freezable(a) && Frost(r) == (if s.Some? then FStr(s.value) else FNull) && Frost(a) == FInt(Default(n, 600))
  {}

  lemma NoCorsMeans()
    ensures CorsOf([]).Ok? && CorsMeans(CorsOf([]).value, NO_CORS)
  {
    ManifestCorsMeans(NO_CORS);
    assert OmitNone(CorsSlots(NO_CORS)) == [] by { NothingOmitted(CorsSlots(NO_CORS)); }
    hide CorsOf, CorsMeans;
  }

  lemma {:induction false} NothingOmitted(slots: seq<Slot>)
    requires forall i | 0 <= i < |slots| :: slots[i].1.None?
    ensures OmitNone(slots) == []
  {
    if slots != [] { NothingOmitted(slots[1..]); }
  }

  // ---- The app

  lemma {:induction false} SplitsAtColon(s: string)
    ensures RightSplit(s).Some? <==> ':' in s
  {
    if s != "" && s[|s| - 1] != ':' {
      SplitsAtColon(s[..|s| - 1]);
      assert s == s[..|s| - 1] + [s[|s| - 1]];
    }
  }

  // What an app reference of a manifest is called: its path below the root of the container.
  function BelowRoot(app: string): string { if ':' in app && AGENT <= app then app[|AGENT|..] else app }

  // The first colon of a text comes after a prefix without one.
  lemma PrefixBeforeColon(s: string, m: string, tail: string, root: string)
    requires s == m + ":" + tail && ':' !in root
    ensures StartsWith(m, root) <==> root <= s
    ensures root <= s ==> s[|root|..] == m[|root|..] + ":" + tail
  {
    assert s[|m|] == ':';
    assert forall i | 0 <= i < |root| :: root[i] in root;
    assert root <= s ==> |root| <= |m|;
    assert |root| <= |m| ==> s[..|root|] == m[..|root|];
  }

  lemma LogicalIsBelowRoot(app: string)
    ensures Logical(Some(Str(app)), None) == Some(BelowRoot(app))
  {
    SplitsAtColon(app);
    SymbolHasNoColon(app);
    if ':' in app {
      PrefixBeforeColon(app, RightSplit(app).value.0, RightSplit(app).value.1, AGENT);
    }
    hide RightSplit, StartsWith;
  }

  // ---- Security metadata

  function Scopes(requirement: Dict<seq<string>>): Frozen {
    FObj(seq(|requirement|, i requires 0 <= i < |requirement| => (requirement[i].0, Texts(requirement[i].1))))
  }

  function AllScopes(security: seq<Dict<seq<string>>>): Frozen {
    FTuple(seq(|security|, i requires 0 <= i < |security| => Scopes(security[i])))
  }

  lemma SchemesFrost(schemes: Dict<Frozen>)
    ensures Freezable(SchemesJson(schemes)) && Frost(SchemesJson(schemes)) == FObj(schemes)
  {
    forall i | 0 <= i < |schemes| ensures Freezable(Thaw(schemes[i].1)) && Frost(Thaw(schemes[i].1)) == schemes[i].1 {
      FreezeThaw(schemes[i].1);
    }
    hide Thaw;
    var back := Frost(SchemesJson(schemes)).fields;
    assert forall i | 0 <= i < |schemes| :: back[i] == (schemes[i].0, Frost(Thaw(schemes[i].1))) == schemes[i];
    assert back == schemes;
  }

  lemma ScopesFrost(requirement: Dict<seq<string>>)
    ensures Freezable(RequirementJson(requirement)) && Frost(RequirementJson(requirement)) == Scopes(requirement)
  {
    forall i | 0 <= i < |requirement|
      ensures Freezable(Strings(requirement[i].1)) && Frost(Strings(requirement[i].1)) == Texts(requirement[i].1)
    {
      TextsFrost(requirement[i].1);
    }
    hide Strings, Texts;
    var back := Frost(RequirementJson(requirement)).fields;
    assert forall i | 0 <= i < |requirement| :: back[i] == (requirement[i].0, Texts(requirement[i].1));
  }

  lemma SecurityFrost(security: seq<Dict<seq<string>>>)
    ensures Freezable(SecurityJson(security))
    ensures Frost(SecurityJson(security)) == AllScopes(security)
  {
    forall i | 0 <= i < |security|
      ensures Freezable(RequirementJson(security[i])) && Frost(RequirementJson(security[i])) == Scopes(security[i])
    {
      ScopesFrost(security[i]);
    }
    hide RequirementJson, Scopes;
    var back := Frost(SecurityJson(security)).items;
    assert forall i | 0 <= i < |security| :: back[i] == Scopes(security[i]);
  }

  /** The metadata of a manifest, as a mapping: the schemes and the requirements it has. */
  ghost predicate MetadataMeans(p: Option<Dict<Frozen>>, o: Option<OpenApi>) {
    && (p.Some? <==> o.Some?)
    && (p.Some? ==>
          && Get(p.value, "securitySchemes") ==
             (if o.value.securitySchemes.Some? then Some(FObj(o.value.securitySchemes.value)) else None)
          && Get(p.value, "security") ==
             (if o.value.security.Some? then Some(AllScopes(o.value.security.value)) else None)
          && forall n | n != "securitySchemes" && n != "security" :: Get(p.value, n) == None)
  }

  lemma ManifestMetadataMeans(o: Option<OpenApi>)
    ensures Metadata(OpenApiJson(o)).Ok? && MetadataMeans(Metadata(OpenApiJson(o)).value, o)
  {
    if o.Some? {
      OpenApiSlotLookups(o.value);
      var slots, d := OpenApiSlots(o.value), OmitNone(OpenApiSlots(o.value));
      if o.value.securitySchemes.Some? { SchemesFrost(o.value.securitySchemes.value); }
      if o.value.security.Some? { SecurityFrost(o.value.security.value); }
      OmittedFreezable(slots);
      forall n | n != "securitySchemes" && n != "security" ensures Get(d, n) == None {
        GetIn(d, n);
      }
      forall n ensures Get(Frost(Obj(d)).fields, n) == Frosted(Get(d, n)) { GetFrosted(d, n); }
      var p := Frost(Obj(d)).fields;
      assert Metadata(OpenApiJson(o)) == Ok(Some(p));
      hide OmitNone, OpenApiSlots, Get, Freezable, Frost, SchemesJson, SecurityJson, Allowed, Metadata, OpenApiJson;
      assert Get(p, "securitySchemes") == Frosted(Get(d, "securitySchemes"));
      assert Get(p, "security") == Frosted(Get(d, "security"));
      assert forall n | n != "securitySchemes" && n != "security" :: Get(p, n) == Frosted(Get(d, n));
    }
  }

  // ---- The policy of a manifest

  /** What a policy says of a manifest: each switch is off only where the manifest says so, the settings
      have the manifest's values or their defaults, the app is its path below the container root. */
  ghost predicate PolicyMeans(p: Policy, m: Manifest) {
    && (p.mcpEnabled <==> m.http.None? || m.http.value.disableMcp != Some(true))
    && (p.a2aEnabled <==> m.http.None? || m.http.value.disableA2a != Some(true))
    && (p.studioAuthDisabled <==> m.auth.Some? && m.auth.value.disableStudioAuth == Some(true))
    && p.customApp == (if m.http.Some? && m.http.value.app.Some? then Some(BelowRoot(m.http.value.app.value)) else None)
    && CorsMeans(p.cors, CorsIn(m))
    && MetadataMeans(p.authOpenApi, if m.auth.Some? then m.auth.value.openapi else None)
  }

  lemma HttpMeans(o: Option<Http>)
    ensures
      var d := Section(HttpJson(o));
      && (Get(d, "disable_mcp") == Some(Bool(true)) <==> o.Some? && o.value.disableMcp == Some(true))
      && (Get(d, "disable_a2a") == Some(Bool(true)) <==> o.Some? && o.value.disableA2a == Some(true))
      && Get(d, "app") == (if o.Some? then StrJson(o.value.app) else None)
      && Section(Get(d, "cors")) == (if o.Some? && o.value.cors.Some? then OmitNone(CorsSlots(o.value.cors.value)) else [])
  {
    if o.Some? {
      HttpLookups(o.value);
      hide OmitNone, HttpSlots, CorsSlots, Get, Allowed;
    }
  }

  lemma AuthMeans(o: Option<Auth>)
    ensures
      var d := Section(AuthJson(o));
      && (Get(d, "disable_studio_auth") == Some(Bool(true)) <==> o.Some? && o.value.disableStudioAuth == Some(true))
      && Get(d, "openapi") == OpenApiJson(if o.Some? then o.value.openapi else None)
  {
    if o.Some? {
      AuthSlotLookups(o.value);
      hide OmitNone, AuthSlots, OpenApiSlots, Get, Allowed;
    }
  }

  lemma ManifestPolicyMeans(m: Manifest)
    ensures ManifestPolicy(m).Ok? && PolicyMeans(ManifestPolicy(m).value, m)
  {
    PoliciesAre([], Files(_ => None, _ => true, _ => true), m);
    HttpMeans(m.http);
    AuthMeans(m.auth);
    ManifestCorsMeans(CorsIn(m));
    NoCorsMeans();
    ManifestMetadataMeans(if m.auth.Some? then m.auth.value.openapi else None);
    if m.http.Some? && m.http.value.app.Some? { LogicalIsBelowRoot(m.http.value.app.value); }
    hide ManifestPolicy, HostPolicy, Get, Section, HttpJson, AuthJson, CorsOf, CorsMeans, MetadataMeans, Metadata, OpenApiJson,
      OmitNone, CorsSlots, BelowRoot;
  }

  // ---- The policy of a host config

  // An entry of a section of a config.
  function Entry(config: Dict<Json>, section: string, name: string): Option<Json> {
    match Get<Json>(config, section)
    case Some(Obj(fields)) => Get(fields, name)
    case _ => None
  }

  function CorsEntry(config: Dict<Json>, name: string): Option<Json> {
    match Entry(config, "http", "cors")
    case Some(Obj(fields)) => Get(fields, name)
    case _ => None
  }

  // A cors setting is the config's entry, frozen, or the default.
  ghost predicate SettingMeans(setting: Frozen, entry: Option<Json>, default: Json) {
    Freezable(Default(entry, default)) && setting == Frost(Default(entry, default))
  }

  ghost predicate HostCorsMeans(p: CorsPolicy, config: Dict<Json>) {
    && SettingMeans(p.allowOrigins, CorsEntry(config, "allow_origins"), List([Str("*")]))
    && SettingMeans(p.allowMethods, CorsEntry(config, "allow_methods"), List([Str("*")]))
    && SettingMeans(p.allowHeaders, CorsEntry(config, "allow_headers"), List([Str("*")]))
    && SettingMeans(p.exposeHeaders, CorsEntry(config, "expose_headers"), List([Str("Content-Location"), Str("Location")]))
    && SettingMeans(p.allowOriginRegex, CorsEntry(config, "allow_origin_regex"), Null)
    && SettingMeans(p.maxAge, CorsEntry(config, "max_age"), Int(600))
    && CredentialsMeans(p.allowCredentials, CorsEntry(config, "allow_credentials"), CorsEntry(config, "allow_origins"))
  }

  // Credentials are what the config says, null meaning no; if it says nothing, allowed unless all origins are.
  predicate CredentialsMeans(allowed: bool, credentials: Option<Json>, origins: Option<Json>) {
    match credentials
    case Some(Bool(b)) => allowed == b
    case Some(Null) => !allowed
    case None => allowed <==> origins.Some? && origins != Some(Str("*")) && origins != Some(List([Str("*")]))
    case _ => true
  }

  lemma HostCredentials(origins: Option<Json>, credentials: Option<Json>)
    ensures CredentialsMeans(Credentials(Or(origins, STAR), credentials), credentials, origins)
  {}

  /** What a policy says of a host config, whose app is named by where its file is below the project root. */
  ghost predicate HostPolicyMeans(p: Policy, config: Dict<Json>, files: Files) {
    && (p.mcpEnabled <==> Entry(config, "http", "disable_mcp") != Some(Bool(true)))
    && (p.a2aEnabled <==> Entry(config, "http", "disable_a2a") != Some(Bool(true)))
    && (p.studioAuthDisabled <==> Entry(config, "auth", "disable_studio_auth") == Some(Bool(true)))
    && HostCorsMeans(p.cors, config)
    && (Entry(config, "http", "app").None? ==> p.customApp.None?)
    && (forall m: string, symbol: string | Entry(config, "http", "app") == Some(Str(m + ":" + symbol)) && ':' !in symbol ::
          p.customApp == Some(AppName(m, symbol, files)))
    && (match Entry(config, "auth", "openapi")
        case Some(Obj(fields)) => Freezable(Obj(fields)) && p.authOpenApi == Some(Frost(Obj(fields)).fields)
        case _ => p.authOpenApi == None)
  }

  function AppName(m: string, symbol: string, files: Files): string {
    (if AGENT <= m then m[|AGENT|..]
     else if IsPathReference(m + ":" + symbol) && files.relative(m).Some? then files.relative(m).value
     else m)
    + ":" + symbol
  }

  lemma HostAppMeans(m: string, symbol: string, files: Files)
    requires ':' !in symbol
    ensures Logical(Some(Str(m + ":" + symbol)), Some(files)) == Some(AppName(m, symbol, files))
  {
    LastColon(m, symbol);
    hide RightSplit, IsPathReference;
    assert AGENT <= m <==> StartsWith(m, AGENT);
  }

  lemma HostCors(config: Dict<Json>)
    requires CorsOf(Section(Entry(config, "http", "cors"))).Ok?
    ensures HostCorsMeans(CorsOf(Section(Entry(config, "http", "cors"))).value, config)
  {
    var d := Section(Entry(config, "http", "cors"));
    assert forall n :: CorsEntry(config, n) == Get(d, n);
    HostCredentials(Get(d, "allow_origins"), Get(d, "allow_credentials"));
    hide Get, Freezable, Frost, Credentials, CredentialsMeans, Section, Entry, CorsEntry;
  }

  lemma HostAppsMean(app: Option<Json>, files: Files)
    ensures app.None? ==> Logical(app, Some(files)).None?
    ensures forall m: string, symbol: string | app == Some(Str(m + ":" + symbol)) && ':' !in symbol ::
      Logical(app, Some(files)) == Some(AppName(m, symbol, files))
  {
    forall m: string, symbol: string | app == Some(Str(m + ":" + symbol)) && ':' !in symbol
      ensures Logical(app, Some(files)) == Some(AppName(m, symbol, files))
    {
      HostAppMeans(m, symbol, files);
    }
    hide AppName;
  }

  lemma EntryIs(config: Dict<Json>, section: string, name: string)
    ensures Entry(config, section, name) == Get(Section(Get(config, section)), name)
  {}

  lemma HostPolicyIs(config: Dict<Json>, files: Files)
    requires HostPolicy(config, files).Ok?
    ensures HostPolicyMeans(HostPolicy(config, files).value, config, files)
  {
    EntryIs(config, "http", "disable_mcp");
    EntryIs(config, "http", "disable_a2a");
    EntryIs(config, "http", "cors");
    EntryIs(config, "http", "app");
    EntryIs(config, "auth", "openapi");
    EntryIs(config, "auth", "disable_studio_auth");
    hide Get, Section, CorsOf, HostCorsMeans, Freezable, Frost, AppName, Entry, Logical;
    HostCors(config);
    HostAppsMean(Entry(config, "http", "app"), files);
  }

  // ---- What a plan takes from a config

  // An optional field is the config's entry; null counts as none.
  predicate SwitchIs(o: Option<bool>, e: Option<Json>) {
    match e
    case None => o.None?
    case Some(Null) => o.None?
    case Some(Bool(b)) => o == Some(b)
    case _ => false
  }

  predicate TextIs(o: Option<string>, e: Option<Json>) {
    match e
    case None => o.None?
    case Some(Null) => o.None?
    case Some(Str(s)) => o == Some(s)
    case _ => false
  }

  predicate NumberIs(o: Option<int>, e: Option<Json>) {
    match e
    case None => o.None?
    case Some(Null) => o.None?
    case Some(Int(n)) => o == Some(n)
    case _ => false
  }

  predicate TextsAre(o: Option<seq<string>>, e: Option<Json>) {
    match e
    case None => o.None?
    case Some(Null) => o.None?
    case Some(List(items)) =>
      o.Some? && |o.value| == |items| && forall i | 0 <= i < |items| :: items[i] == Str(o.value[i])
    case _ => false
  }

  lemma ParsedEntries(b: Option<Json>, s: Option<Json>, n: Option<Json>, l: Option<Json>)
    ensures OptionalBool(b).Ok? ==> SwitchIs(OptionalBool(b).value, b)
    ensures OptionalString(s).Ok? ==> TextIs(OptionalString(s).value, s)
    ensures OptionalInt(n).Ok? ==> NumberIs(OptionalInt(n).value, n)
    ensures StringTuple(l).Ok? ==> TextsAre(StringTuple(l).value, l)
  {}

  /** A manifest's cors section has the entries of the config's. */
  ghost predicate CorsTaken(c: Cors, d: Dict<Json>) {
    && TextsAre(c.allowOrigins, Get(d, "allow_origins")) && TextIs(c.allowOriginRegex, Get(d, "allow_origin_regex"))
    && TextsAre(c.allowMethods, Get(d, "allow_methods")) && TextsAre(c.allowHeaders, Get(d, "allow_headers"))
    && SwitchIs(c.allowCredentials, Get(d, "allow_credentials"))
    && TextsAre(c.exposeHeaders, Get(d, "expose_headers")) && NumberIs(c.maxAge, Get(d, "max_age"))
  }

  lemma CorsIsTaken(d: Dict<Json>)
    requires ParseCors(Some(Obj(d))).Ok?
    ensures ParseCors(Some(Obj(d))).value.Some? && CorsTaken(ParseCors(Some(Obj(d))).value.value, d)
  {
    CorsParsed(d);
    ParsedEntries(Get(d, "allow_credentials"), Get(d, "allow_origin_regex"), Get(d, "max_age"), Get(d, "allow_origins"));
    ParsedEntries(None, None, None, Get(d, "allow_methods"));
    ParsedEntries(None, None, None, Get(d, "allow_headers"));
    ParsedEntries(None, None, None, Get(d, "expose_headers"));
    hide ParseCors, Get, OptionalBool, OptionalString, OptionalInt, StringTuple, SwitchIs, TextIs, NumberIs, TextsAre;
  }

  // The app of a manifest: the config's, in the container if it is a path.
  predicate AppTaken(app: Option<string>, e: Option<Json>, files: Files) {
    match e
    case None => app.None?
    case Some(Null) => app.None?
    case Some(Str(s)) =>
      if IsPathReference(s) then
        files.relative(ModuleOf(s)).Some? && app == Some("/deps/agent/" + files.relative(ModuleOf(s)).value + ":" + SymbolOf(s))
      else app == Some(s)
    case _ => false
  }

  lemma HttpIsTaken(raw: Option<Json>, files: Files)
    requires PlanHttp(raw, files).Ok?
    ensures
      var o, d := PlanHttp(raw, files).value, Section(raw);
      && (o.None? <==> raw.None? || raw == Some(Null))
      && (o.Some? ==>
            && SwitchIs(o.value.disableMcp, Get(d, "disable_mcp")) && SwitchIs(o.value.disableA2a, Get(d, "disable_a2a"))
            && AppTaken(o.value.app, Get(d, "app"), files)
            && (o.value.cors.None? <==> Get(d, "cors").None? || Get(d, "cors") == Some(Null))
            && (o.value.cors.Some? ==> CorsTaken(o.value.cors.value, Section(Get(d, "cors")))))
  {
    var o, d := PlanHttp(raw, files).value, Section(raw);
    if o.Some? {
      HttpParts(raw, files);
      ParsedEntries(Get(d, "disable_mcp"), Get(d, "app"), None, None);
      ParsedEntries(Get(d, "disable_a2a"), None, None, None);
      CorsSectionTaken(Get(d, "cors"));
      PlannedIsTaken(Get(d, "app"), files);
      hide PlanHttp, ParseCors, Get, CorsTaken, OptionalBool, OptionalString, PlannedOption, SwitchIs, TextIs, AppTaken;
    }
  }

  lemma CorsSectionTaken(raw: Option<Json>)
    requires ParseCors(raw).Ok?
    ensures
      var c := ParseCors(raw).value;
      && (c.None? <==> raw.None? || raw == Some(Null))
      && (c.Some? ==> CorsTaken(c.value, Section(raw)))
  {
    if ParseCors(raw).value.Some? {
      CorsIsTaken(raw.value.fields);
      hide CorsTaken;
    } else if raw.Some? && raw.value.Obj? {
      CorsIsTaken(raw.value.fields);
      hide ParseCors;
    }
  }

  lemma PlannedIsTaken(app: Option<Json>, files: Files)
    requires OptionalString(app).Ok? && PlannedOption(OptionalString(app).value, files).Ok?
    ensures AppTaken(PlannedOption(OptionalString(app).value, files).value, app, files)
  {
    hide IsPathReference, RightSplit;
  }

  /** What a plan's manifest has of the config: its switches, its cors entries, its app and its studio
      switch. */
  lemma PlanTakesSettings(config: Dict<Json>, files: Files, clean: UrlCheck, runtimeRoots: Option<seq<string>>)
    requires Plan(config, files, clean, runtimeRoots).Ok?
    ensures
      var m := Plan(config, files, clean, runtimeRoots).value;
      && (m.http.None? <==> Get(config, "http").None? || Get(config, "http") == Some(Null))
      && (m.http.Some? ==>
            && SwitchIs(m.http.value.disableMcp, Entry(config, "http", "disable_mcp"))
            && SwitchIs(m.http.value.disableA2a, Entry(config, "http", "disable_a2a"))
            && AppTaken(m.http.value.app, Entry(config, "http", "app"), files)
            && (m.http.value.cors.None? <==>
                  Entry(config, "http", "cors").None? || Entry(config, "http", "cors") == Some(Null))
            && (m.http.value.cors.Some? ==> CorsTaken(m.http.value.cors.value, Section(Entry(config, "http", "cors")))))
      && (m.auth.None? <==> Get(config, "auth").None? || Get(config, "auth") == Some(Null))
      && (m.auth.Some? ==> SwitchIs(m.auth.value.disableStudioAuth, Entry(config, "auth", "disable_studio_auth")))
  {
    BuiltSections(config, files, clean, runtimeRoots);
    HttpIsTaken(Get(config, "http"), files);
    AuthIsTaken(Get(config, "auth"), clean);
    EntryIs(config, "http", "disable_mcp");
    EntryIs(config, "http", "disable_a2a");
    EntryIs(config, "http", "app");
    EntryIs(config, "http", "cors");
    EntryIs(config, "auth", "disable_studio_auth");
    hide Plan, PlanHttp, ParseAuth, Get, Section, Entry, SwitchIs, AppTaken, CorsTaken;
  }

  lemma AuthIsTaken(raw: Option<Json>, clean: UrlCheck)
    requires ParseAuth(raw, clean).Ok?
    ensures
      var o, d := ParseAuth(raw, clean).value, Section(raw);
      && (o.None? <==> raw.None? || raw == Some(Null))
      && (o.Some? ==> SwitchIs(o.value.disableStudioAuth, Get(d, "disable_studio_auth")))
  {
    ParsedEntries(Get(Section(raw), "disable_studio_auth"), None, None, None);
    hide Get, ParseOpenApi, OptionalBool, OptionalString, SwitchIs, Allowed;
  }
}
