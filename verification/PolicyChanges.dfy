/** Configs that plan, and whose manifest has another effective policy: one for each condition of
    `PolicyPreserved.PolicyPreservedExactly`. */
module PolicyChanges {
  import opened Wrappers
  import opened OrderedDict
  import opened JsonValues
  import opened Manifest
  import opened ManifestRoundTrip
  import opened RuntimePolicy
  import opened PolicyPreserved
  import opened GraphReferences

  // One importable graph, and the two sections a policy is read from.
  function Config(http: Json, auth: Json): Dict<Json> {
    [("graphs", Obj([("g", Str("m:g"))])), ("http", http), ("auth", auth)]
  }

  const Installed := Files(_ => None, _ => true, _ => true)

  lemma ConfigSections(http: Json, auth: Json)
    ensures
      var c := Config(http, auth);
      && Get(c, "graphs") == Some(Obj([("g", Str("m:g"))])) && Get(c, "store") == None
      && Get(c, "http") == Some(http) && Get(c, "auth") == Some(auth)
  {
    var c := Config(http, auth);
    var d, e := c[1..], c[2..];
    assert d[1..] == e && e[1..] == [];
    assert d[0] == ("http", http) && e[0] == ("auth", auth);
    assert Get(e, "auth") == Some(auth) && Get(e, "store") == None;
    assert Get(d, "auth") == Some(auth) && Get(d, "store") == None;
  }

  lemma NameHasNoPath()
    ensures RightSplit("m:g") == Some(("m", "g")) && !IsPathReference("m:g")
  {
    Splits("m", "g");
    assert "m" + ":" + "g" == "m:g";
  }

  lemma GraphsPlan(files: Files)
    requires files.importable("m:g")
    ensures PlanGraphs(Some(Obj([("g", Str("m:g"))])), files) == Ok([("g", Reference("m:g"))])
  {
    NameHasNoPath();
    hide IsPathReference;
    var refs := ["m:g"];
    assert refs[1..] == [] && PlanReferences(Reference("m:g"), [], files) == Ok(Reference("m:g"));
    assert PlanReferences(Reference("m:g"), refs, files) == Ok(Reference("m:g"));
    hide PlanReferences;
    var fields := [("g", Str("m:g"))];
    assert RawGraph(Str("m:g")) == Ok(Reference("m:g"));
    assert PlanGraph(fields[0].1, files) == Ok(Reference("m:g"));
    hide PlanGraph;
    var planned := PlanGraphs(Some(Obj(fields)), files);
    assert planned.Ok? && planned.value == [("g", Reference("m:g"))];
  }

  lemma GraphIsPreloaded()
    ensures GraphPreloaded(Reference("m:g"))
  {
    NameHasNoPath();
    assert "m"[1..] == "" && Split("", '.') == [""] && ['m'] + "" == "m" && [""][1..] == [];
    assert Split("m", '.') == ["m"];
    assert forall part <- ["m"] :: part == "m";
    hide RightSplit, IsPathReference, Split;
  }

  predicate SectionsPlan(http: Json, auth: Json, files: Files, clean: UrlCheck) {
    && PlanHttp(Some(http), files).Ok? && AppPreloaded(PlanHttp(Some(http), files).value)
    && ParseAuth(Some(auth), clean).Ok?
  }

  function Kept(http: Json, auth: Json, files: Files, clean: UrlCheck): Manifest
    requires SectionsPlan(http, auth, files, clean)
  {
    Manifest([("g", Reference("m:g"))], [], None, PlanHttp(Some(http), files).value, ParseAuth(Some(auth), clean).value)
  }

  lemma StoreNone(files: Files)
    ensures PlanStore(None, files) == Ok(None)
  {}

  lemma BuiltFrom(http: Json, auth: Json, files: Files, clean: UrlCheck)
    requires files.importable("m:g") && SectionsPlan(http, auth, files, clean)
    ensures Built(Config(http, auth), files, clean, Some([])) == Ok(Kept(http, auth, files, clean))
  {
    ConfigSections(http, auth);
    GraphsPlan(files);
    StoreNone(files);
    hide Config, PlanGraphs, PlanStore, PlanHttp, ParseAuth, Get, AppPreloaded;
  }

  lemma KeptIsAcceptable(http: Json, auth: Json, files: Files, clean: UrlCheck)
    requires SectionsPlan(http, auth, files, clean)
    ensures Acceptable(Kept(http, auth, files, clean), clean)
  {
    GraphIsPreloaded();
    AuthAccepted(Some(auth), clean);
    hide PlanHttp, ParseAuth, AppPreloaded, AcceptableOpenApi, GraphPreloaded;
  }

  /** The config plans when its sections do. */
  lemma ConfigPlans(http: Json, auth: Json, files: Files, clean: UrlCheck)
    requires files.importable("m:g") && SectionsPlan(http, auth, files, clean)
    ensures Plan(Config(http, auth), files, clean, Some([])) == Ok(Kept(http, auth, files, clean))
  {
    hide *;
    BuiltFrom(http, auth, files, clean);
    KeptIsAcceptable(http, auth, files, clean);
    PlanKeepsManifest(Config(http, auth), files, clean, Some([]));
  }

  // A lookup in an object with one entry.
  lemma OneEntry<V>(n: string, v: V)
    ensures forall m :: Get([(n, v)], m) == if m == n then Some(v) else None
  {
    assert [(n, v)][1..] == [];
  }

  lemma NoEntries()
    ensures forall n :: Get<Json>([], n) == None
  {}

  lemma SectionIs(fields: Dict<Json>)
    ensures Section(Some(Obj(fields))) == fields
  {}

  /** A config whose sections plan, and are not harmless, has another policy in the container. */
  lemma ChangedUnlessHarmless(http: Dict<Json>, auth: Dict<Json>, files: Files, clean: UrlCheck)
    requires files.importable("m:g") && SectionsPlan(Obj(http), Obj(auth), files, clean)
    requires Unique(Section(Get(auth, "openapi")))
    requires !CorsNullsHarmless(Section(Get(http, "cors"))) || !AppHarmless(Get(http, "app"), files)
          || !OpenApiNullsHarmless(Get(auth, "openapi"))
    ensures Changed(Config(Obj(http), Obj(auth)), files, clean)
  {
    var config := Config(Obj(http), Obj(auth));
    hide Config, Kept, SectionsPlan, Plan, HostPolicy, ManifestPolicy, SamePolicy, Harmless, CorsNullsHarmless, AppHarmless,
      OpenApiNullsHarmless, Get, Unique, Section;
    ConfigPlans(Obj(http), Obj(auth), files, clean);
    ConfigSections(Obj(http), Obj(auth));
    SectionIs(http);
    SectionIs(auth);
    HarmlessIs(config, files);
    PolicyPreservedExactly(config, files, clean, Some([]));
  }

  // The config plans, both policies can be read, and they differ.
  ghost predicate Changed(config: Dict<Json>, files: Files, clean: UrlCheck) {
    var plan := Plan(config, files, clean, Some([]));
    && plan.Ok? && HostPolicy(config, files).Ok? && ManifestPolicy(plan.value).Ok?
    && !SamePolicy(HostPolicy(config, files).value, ManifestPolicy(plan.value).value)
  }

  lemma EmptySections(files: Files, clean: UrlCheck)
    ensures PlanHttp(Some(Obj([])), files) == Ok(Some(Http(None, None, None, None)))
    ensures ParseAuth(Some(Obj([])), clean) == Ok(Some(Auth(None, None)))
  {
    NoEntries();
    NothingParses();
    hide ParseCors, ParseOpenApi, Get;
  }

  // ---- A null for max_age is null on the host and 600 in the container

  const NullAge: Dict<Json> := [("max_age", Null)]

  lemma NullAgeParses()
    ensures ParseCors(Some(Obj(NullAge))) == Ok(Some(Cors(None, None, None, None, None, None, None)))
  {
    OneEntry("max_age", Null);
    hide Get;
  }

  lemma NullAgeHarmful()
    ensures !CorsNullsHarmless(NullAge)
  {
    OneEntry("max_age", Null);
    hide Get;
  }

  lemma NullAgeChangesPolicy(clean: UrlCheck)
    ensures Changed(Config(Obj([("cors", Obj(NullAge))]), Obj([])), Installed, clean)
  {
    var http: Dict<Json> := [("cors", Obj(NullAge))];
    OneEntry("cors", Obj(NullAge));
    NoEntries();
    EmptySections(Installed, clean);
    NullAgeParses();
    NullAgeHarmful();
    hide ParseCors, Get, Changed, CorsNullsHarmless, ParseAuth, AppHarmless, OpenApiNullsHarmless;
    assert PlanHttp(Some(Obj(http)), Installed).Ok?;
    ChangedUnlessHarmless(http, [], Installed, clean);
  }

  // ---- A null for the security requirements is an entry on the host and none in the container

  const NullSecurity: Dict<Json> := [("security", Null)]

  lemma NullSecurityParses(clean: UrlCheck)
    ensures ParseOpenApi(Some(Obj(NullSecurity)), clean) == Ok(Some(OpenApi(None, None)))
    ensures !OpenApiNullsHarmless(Some(Obj(NullSecurity)))
  {
    OneEntry("security", Null);
    hide Get;
  }

  lemma NullSecurityAuth(clean: UrlCheck)
    ensures ParseAuth(Some(Obj([("openapi", Obj(NullSecurity))])), clean).Ok?
  {
    OneEntry("openapi", Obj(NullSecurity));
    NullSecurityParses(clean);
    hide ParseOpenApi, Get;
  }

  lemma NullSecurityChangesPolicy(clean: UrlCheck)
    ensures Changed(Config(Obj([]), Obj([("openapi", Obj(NullSecurity))])), Installed, clean)
  {
    var auth: Dict<Json> := [("openapi", Obj(NullSecurity))];
    OneEntry("openapi", Obj(NullSecurity));
    EmptySections(Installed, clean);
    NullSecurityParses(clean);
    NullSecurityAuth(clean);
    hide ParseAuth, Get, Changed, PlanHttp, CorsNullsHarmless, AppHarmless, OpenApiNullsHarmless;
    assert Section(Get(auth, "openapi")) == NullSecurity;
    ChangedUnlessHarmless([], auth, Installed, clean);
  }

  // ---- An app below /deps/agent of a project rooted at /deps is another file in the container

  lemma {:induction false} SplitFirst(a: string, b: string)
    requires '/' !in a
    ensures Split(a + "/" + b, '/') == [a] + Split(b, '/')
    decreases |a|
  {
    var s := a + "/" + b;
    if a == "" {
      assert s[1..] == b;
    } else {
      assert s[1..] == a[1..] + "/" + b;
      SplitFirst(a[1..], b);
      assert [a[0]] + a[1..] == a;
    }
  }

  lemma {:induction false} SplitWhole(a: string)
    requires '/' !in a
    ensures Split(a, '/') == [a]
    decreases |a|
  {
    if a != "" {
      SplitWhole(a[1..]);
      assert [a[0]] + a[1..] == a;
    }
  }

  lemma BelowRoot(rest: string)
    ensures Split(AGENT + rest, '/') == ["", "deps", "agent"] + Split(rest, '/')
  {
    hide Split;
    var a := "agent" + "/" + rest;
    var d := "deps" + "/" + a;
    SplitFirst("agent", rest);
    SplitFirst("deps", a);
    SplitFirst("", d);
    assert AGENT + rest == "" + "/" + d;
  }

  lemma BelowRootPreloaded(directory: string, file: string, symbol: string)
    requires |symbol| == 1 && symbol[0] != ':' && '/' !in directory && '/' !in file
    requires '\\' !in directory && '\\' !in file
    requires directory !in ["", ".", ".."] && file !in ["", ".", ".."]
    ensures PreloadedReference(AGENT + (directory + "/" + file) + ":" + symbol, true)
  {
    var m := AGENT + (directory + "/" + file);
    Splits(m, symbol);
    BelowRoot(directory + "/" + file);
    SplitFirst(directory, file);
    SplitWhole(file);
    assert m[0] == AGENT[0];
    assert '\\' !in AGENT;
    hide RightSplit, Split;
    assert Split(m, '/') == ["", "deps", "agent", directory, file];
  }

  lemma AppIsPreloaded()
    ensures PreloadedReference("/deps/agent/agent/x.py:g", true)
  {
    BelowRootPreloaded("agent", "x.py", "g");
    hide *;
    assert AGENT + ("agent" + "/" + "x.py") + ":" + "g" == "/deps/agent/agent/x.py:g";
  }

  lemma AppPlans(app: string, files: Files)
    requires Planned(app, files).Ok?
    ensures PlanHttp(Some(Obj([("app", Str(app))])), files) == Ok(Some(Http(Some(Planned(app, files).value), None, None, None)))
  {
    OneEntry("app", Str(app));
    NothingParses();
    hide ParseCors, Get, Planned;
  }

  lemma BelowRootHarmful(rest: string, symbol: string, relative: string, files: Files)
    requires |symbol| == 1 && symbol[0] != ':' && rest != relative
    requires files.relative(AGENT + rest) == Some(relative)
    ensures !AppHarmless(Some(Str(AGENT + rest + ":" + symbol)), files)
  {
    Splits(AGENT + rest, symbol);
    RootPath(rest);
    assert (AGENT + rest)[..|AGENT|] == AGENT && (AGENT + rest)[|AGENT|..] == rest;
    hide RightSplit;
  }

  lemma AppHarmful()
    ensures !AppHarmless(Some(Str("/deps/agent/x.py:g")), Twins())
  {
    hide *;
    TwinsFiles();
    assert AGENT + "x.py" == "/deps/agent/x.py" && |"x.py"| != |"agent/x.py"|;
    BelowRootHarmful("x.py", "g", "agent/x.py", Twins());
    assert "/deps/agent/x.py" + ":" + "g" == "/deps/agent/x.py:g";
  }

  lemma AppPathChangesPolicy(clean: UrlCheck)
    ensures Changed(Config(Obj([("app", Str("/deps/agent/x.py:g"))]), Obj([])), Twins(), clean)
  {
    var http: Dict<Json> := [("app", Str("/deps/agent/x.py:g"))];
    OneEntry("app", Str("/deps/agent/x.py:g"));
    NoEntries();
    EmptySections(Twins(), clean);
    TwinsPlanned();
    AppPlans("/deps/agent/x.py:g", Twins());
    AppIsPreloaded();
    AppHarmful();
    hide Get, Changed, PlanHttp, CorsNullsHarmless, AppHarmless, ParseAuth, OpenApiNullsHarmless, Planned, PreloadedReference;
    ChangedUnlessHarmless(http, [], Twins(), clean);
  }
}
