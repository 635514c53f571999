/** Printing and parsing a manifest: proofs about `Manifest`. */
module ManifestRoundTrip {
  import opened Wrappers
  import opened OrderedDict
  import opened JsonValues
  import opened Manifest

  // ---- The names of the sections are distinct

  lemma Differ(a: string, b: string, i: nat)
    requires i < |a| && i < |b| && a[i] != b[i]
    ensures a != b
  {}

  lemma NamesDiffer()
    ensures "prepare_input" != "output_schema" && "disable_mcp" != "disable_a2a" && "http" != "auth"
    ensures "allow_origins" != "allow_methods" && "allow_origins" != "allow_headers" && "allow_methods" != "allow_headers"
  {
    Differ("prepare_input", "output_schema", 0);
    Differ("disable_mcp", "disable_a2a", 8);
    Differ("http", "auth", 0);
    Differ("allow_origins", "allow_methods", 6);
    Differ("allow_origins", "allow_headers", 6);
    Differ("allow_methods", "allow_headers", 6);
  }

  // Every slot is found again under its name, and no other name appears.
  ghost predicate FoundAgain(slots: seq<Slot>, names: seq<string>) {
    && (forall i | 0 <= i < |slots| :: Get(OmitNone(slots), slots[i].0) == slots[i].1)
    && Allowed(OmitNone(slots), names)
  }

  lemma SlotsFound(slots: seq<Slot>, names: seq<string>)
    requires DistinctNames(slots) && forall i | 0 <= i < |slots| :: slots[i].0 in names
    ensures FoundAgain(slots, names)
  {
    forall i | 0 <= i < |slots| ensures Get(OmitNone(slots), slots[i].0) == slots[i].1 { GetOmitted(slots, i); }
    OmittedAllowed(slots, names);
  }

  // ---- What the optional values come back as

  lemma StringsBack(items: seq<string>)
    ensures StringList(Strings(items)) && StringsOf(Strings(items)) == items
  {}

  lemma SchemaBack(schema: Option<Dict<Frozen>>)
    ensures OptionalSchema(SchemaJson(schema)) == Ok(schema)
  {
    if schema.Some? { FreezeThaw(FObj(schema.value)); }
  }

  // ---- Section by section

  lemma GraphLookups(g: Graph)
    requires g.Structured?
    ensures
      var d := OmitNone(GraphSlots(g));
      && Allowed(d, GRAPH_NAMES) && Get(d, "graph") == Some(Str(g.graph))
      && Get(d, "prepare_input") == StrJson(g.prepareInput) && Get(d, "extract_output") == StrJson(g.extractOutput)
      && Get(d, "name") == StrJson(g.name) && Get(d, "description") == StrJson(g.description)
      && Get(d, "input_schema") == SchemaJson(g.inputSchema) && Get(d, "output_schema") == SchemaJson(g.outputSchema)
  {
    hide OmitNone, Get, StrJson, SchemaJson;
    var slots := GraphSlots(g);
    NamesDiffer();
    SlotsFound(slots, GRAPH_NAMES);
    assert slots[0].0 == "graph" && slots[1].0 == "prepare_input" && slots[2].0 == "extract_output";
    assert slots[3].0 == "name" && slots[4].0 == "description" && slots[5].0 == "input_schema";
    assert slots[6].0 == "output_schema";
  }

  lemma StringBack(o: Option<string>)
    ensures OptionalString(StrJson(o)) == Ok(o)
  {}

  lemma GraphBack(g: Graph)
    ensures RawGraph(GraphJson(g)) == Ok(g)
  {
    if g.Structured? {
      GraphLookups(g);
      StringBack(g.prepareInput);
      StringBack(g.extractOutput);
      StringBack(g.name);
      StringBack(g.description);
      SchemaBack(g.inputSchema);
      SchemaBack(g.outputSchema);
      hide OmitNone, GraphSlots, Allowed, Get, OptionalSchema, SchemaJson, OptionalString, StrJson;
    }
  }

  lemma {:induction false} GraphsBack(graphs: Dict<Graph>)
    ensures ParseGraphs(Some(GraphsJson(graphs))) ==
            if graphs != [] && forall i | 0 <= i < |graphs| :: graphs[i].0 != "" && GraphPreloaded(graphs[i].1)
            then Ok(graphs) else Err(())
  {
    forall i | 0 <= i < |graphs|
      ensures ParseGraph(GraphJson(graphs[i].1)) == if GraphPreloaded(graphs[i].1) then Ok(graphs[i].1) else Err(())
    {
      GraphBack(graphs[i].1);
    }
    hide ParseGraph, GraphJson, GraphPreloaded;
    var fields := GraphsJson(graphs).fields;
    assert forall i | 0 <= i < |graphs| :: fields[i].0 == graphs[i].0 && fields[i].1 == GraphJson(graphs[i].1);
    if graphs != [] && forall i | 0 <= i < |graphs| :: graphs[i].0 != "" && GraphPreloaded(graphs[i].1) {
      assert ParseGraphs(Some(Obj(fields))).Ok?;
      var back := ParseGraphs(Some(Obj(fields))).value;
      assert |back| == |graphs| && forall i | 0 <= i < |graphs| :: back[i] == (graphs[i].0, graphs[i].1) == graphs[i];
      assert back == graphs;
    } else if graphs != [] {
      var i :| 0 <= i < |graphs| && !(graphs[i].0 != "" && GraphPreloaded(graphs[i].1));
      assert fields[i].0 == "" || ParseGraph(fields[i].1).Err?;
    }
  }

  lemma TtlBack(t: StoreTtl)
    ensures ParseTtl(Some(Obj(OmitNone(TtlSlots(t))))) == Ok(Some(t))
  {
    var slots := TtlSlots(t);
    SlotsFound(slots, ["refresh_on_read", "default_ttl", "sweep_interval_minutes"]);
    hide OmitNone;
    assert slots[0].0 == "refresh_on_read" && slots[1].0 == "default_ttl" && slots[2].0 == "sweep_interval_minutes";
  }

  lemma IndexBack(x: StoreIndex)
    ensures ParseIndex(Some(Obj(OmitNone(IndexSlots(x))))) ==
            if EmbedPreloaded(x.embed) then Ok(Some(x)) else Err(())
  {
    var slots := IndexSlots(x);
    SlotsFound(slots, ["embed", "dims", "fields"]);
    if x.fields.Some? { StringsBack(x.fields.value); }
    hide OmitNone, EmbedPreloaded;
    assert slots[0].0 == "embed" && slots[1].0 == "dims" && slots[2].0 == "fields";
  }

  predicate AcceptableStore(s: Store) { s.index.Some? ==> EmbedPreloaded(s.index.value.embed) }

  lemma StoreBack(s: Store)
    ensures ParseStore(Some(Obj(OmitNone(StoreSlots(s))))) == if AcceptableStore(s) then Ok(Some(s)) else Err(())
  {
    var slots := StoreSlots(s);
    SlotsFound(slots, ["ttl", "index"]);
    if s.ttl.Some? { TtlBack(s.ttl.value); }
    if s.index.Some? { IndexBack(s.index.value); }
    hide OmitNone, ParseTtl, ParseIndex, EmbedPreloaded;
    assert slots[0].0 == "ttl" && slots[1].0 == "index";
    assert ParseTtl(None) == Ok(None) && ParseIndex(None) == Ok(None) by { NothingParses(); }
  }

  lemma NothingParses()
    ensures ParseTtl(None) == Ok(None) && ParseIndex(None) == Ok(None) && ParseCors(None) == Ok(None)
    ensures ParseStore(None) == Ok(None) && ParseHttp(None) == Ok(None)
    ensures forall clean :: ParseAuth(None, clean) == Ok(None) && ParseOpenApi(None, clean) == Ok(None)
    ensures forall clean :: ParseSchemes(None, clean) == Ok(None)
    ensures forall names :: ParseSecurity(None, names) == Ok(None)
  {}

  lemma CorsLookups(c: Cors)
    ensures
      var d := OmitNone(CorsSlots(c));
      && Allowed(d, CORS_NAMES) && Get(d, "allow_origins") == StringsJson(c.allowOrigins)
      && Get(d, "allow_origin_regex") == StrJson(c.allowOriginRegex)
      && Get(d, "allow_methods") == StringsJson(c.allowMethods) && Get(d, "allow_headers") == StringsJson(c.allowHeaders)
      && Get(d, "allow_credentials") == BoolJson(c.allowCredentials)
      && Get(d, "expose_headers") == StringsJson(c.exposeHeaders) && Get(d, "max_age") == IntJson(c.maxAge)
  {
    hide OmitNone, Get, StringsJson, StrJson, BoolJson, IntJson;
    var slots := CorsSlots(c);
    NamesDiffer();
    SlotsFound(slots, CORS_NAMES);
    assert slots[0].0 == "allow_origins" && slots[1].0 == "allow_origin_regex" && slots[2].0 == "allow_methods";
    assert slots[3].0 == "allow_headers" && slots[4].0 == "allow_credentials" && slots[5].0 == "expose_headers";
    assert slots[6].0 == "max_age";
  }

  lemma TupleBack(o: Option<seq<string>>)
    ensures StringTuple(StringsJson(o)) == Ok(o)
  {
    if o.Some? { StringsBack(o.value); }
  }

  lemma CorsBack(c: Cors)
    ensures ParseCors(Some(Obj(OmitNone(CorsSlots(c))))) == Ok(Some(c))
  {
    CorsLookups(c);
    TupleBack(c.allowOrigins);
    TupleBack(c.allowMethods);
    TupleBack(c.allowHeaders);
    TupleBack(c.exposeHeaders);
    StringBack(c.allowOriginRegex);
    hide OmitNone, CorsSlots, Allowed, Get, StringTuple, StringsJson, StrJson, OptionalString;
  }

  lemma HttpLookups(h: Http)
    ensures
      var d := OmitNone(HttpSlots(h));
      && Allowed(d, ["app", "cors", "disable_mcp", "disable_a2a"]) && Get(d, "app") == StrJson(h.app)
      && Get(d, "disable_mcp") == BoolJson(h.disableMcp) && Get(d, "disable_a2a") == BoolJson(h.disableA2a)
      && Get(d, "cors") == if h.cors.None? then None else Some(Obj(OmitNone(CorsSlots(h.cors.value))))
  {
    hide OmitNone, Get, CorsSlots;
    var slots := HttpSlots(h);
    NamesDiffer();
    SlotsFound(slots, ["app", "cors", "disable_mcp", "disable_a2a"]);
    assert slots[0].0 == "app" && slots[1].0 == "disable_mcp" && slots[2].0 == "disable_a2a" && slots[3].0 == "cors";
  }

  lemma HttpBack(h: Http)
    ensures RawHttp(Some(Obj(OmitNone(HttpSlots(h))))) == Ok(Some(h))
  {
    HttpLookups(h);
    if h.cors.Some? { CorsBack(h.cors.value); }
    NothingParses();
    StringBack(h.app);
    SwitchBack(h.disableMcp);
    SwitchBack(h.disableA2a);
    hide OmitNone, HttpSlots, CorsSlots, Allowed, Get, ParseCors, OptionalString, StrJson, OptionalBool, BoolJson;
  }

  // ---- Security metadata

  ghost predicate AcceptableSchemes(schemes: Option<Dict<Frozen>>, clean: UrlCheck) {
    schemes.Some? ==> forall i | 0 <= i < |schemes.value| :: ValidScheme(Thaw(schemes.value[i].1), clean)
  }

  ghost predicate AcceptableSecurity(security: Option<seq<Dict<seq<string>>>>, schemes: seq<string>) {
    security.Some? ==>
      forall i | 0 <= i < |security.value| ::
        forall j | 0 <= j < |security.value[i]| :: security.value[i][j].0 in schemes
  }

  lemma SchemesBack(schemes: Dict<Frozen>, clean: UrlCheck)
    ensures ParseSchemes(Some(SchemesJson(schemes)), clean) ==
            if AcceptableSchemes(Some(schemes), clean) then Ok(Some(schemes)) else Err(())
  {
    forall i | 0 <= i < |schemes| ensures Freezable(Thaw(schemes[i].1)) && Frost(Thaw(schemes[i].1)) == schemes[i].1 {
      FreezeThaw(schemes[i].1);
    }
    hide ValidScheme, Freezable, Frost, Thaw;
    var fields := SchemesJson(schemes).fields;
    assert forall i | 0 <= i < |schemes| :: fields[i] == (schemes[i].0, Thaw(schemes[i].1));
    if AcceptableSchemes(Some(schemes), clean) {
      var back := ParseSchemes(Some(Obj(fields)), clean).value.value;
      assert |back| == |schemes| && forall i | 0 <= i < |schemes| :: back[i] == schemes[i];
      assert back == schemes;
    } else {
      var i :| 0 <= i < |schemes| && !ValidScheme(Thaw(schemes[i].1), clean);
      assert !ValidScheme(fields[i].1, clean);
    }
  }

  lemma RequirementBack(requirement: Dict<seq<string>>, schemes: seq<string>)
    ensures ValidRequirement(RequirementJson(requirement), schemes) <==>
            forall j | 0 <= j < |requirement| :: requirement[j].0 in schemes
    ensures ValidRequirement(RequirementJson(requirement), schemes) ==>
            RequirementOf(RequirementJson(requirement), schemes) == requirement
  {
    forall j | 0 <= j < |requirement|
      ensures StringList(Strings(requirement[j].1)) && StringsOf(Strings(requirement[j].1)) == requirement[j].1
    {
      StringsBack(requirement[j].1);
    }
    hide StringList, StringsOf, Strings;
    var fields := RequirementJson(requirement).fields;
    assert forall j | 0 <= j < |requirement| :: fields[j] == (requirement[j].0, Strings(requirement[j].1));
    if ValidRequirement(RequirementJson(requirement), schemes) {
      var back := RequirementOf(RequirementJson(requirement), schemes);
      assert |back| == |requirement| && forall j | 0 <= j < |requirement| :: back[j] == requirement[j];
      forall j | 0 <= j < |requirement| ensures requirement[j].0 in schemes { assert fields[j].0 in schemes; }
    }
  }

  lemma SecurityBack(security: seq<Dict<seq<string>>>, schemes: seq<string>)
    ensures ParseSecurity(Some(SecurityJson(security)), schemes) ==
            if AcceptableSecurity(Some(security), schemes) then Ok(Some(security)) else Err(())
  {
    forall i | 0 <= i < |security|
      ensures ValidRequirement(RequirementJson(security[i]), schemes) <==>
              forall j | 0 <= j < |security[i]| :: security[i][j].0 in schemes
      ensures ValidRequirement(RequirementJson(security[i]), schemes) ==>
              RequirementOf(RequirementJson(security[i]), schemes) == security[i]
    {
      RequirementBack(security[i], schemes);
    }
    hide ValidRequirement, RequirementOf, RequirementJson;
    var items := SecurityJson(security).items;
    assert forall i | 0 <= i < |security| :: items[i] == RequirementJson(security[i]);
    if AcceptableSecurity(Some(security), schemes) {
      var back := ParseSecurity(Some(List(items)), schemes).value.value;
      assert |back| == |security| && forall i | 0 <= i < |security| :: back[i] == security[i];
      assert back == security;
    } else {
      var i :| 0 <= i < |security| && !(forall j | 0 <= j < |security[i]| :: security[i][j].0 in schemes);
      assert !ValidRequirement(items[i], schemes);
    }
  }

  ghost predicate AcceptableOpenApi(o: Option<OpenApi>, clean: UrlCheck) {
    o.Some? ==>
      && AcceptableSchemes(o.value.securitySchemes, clean)
      && AcceptableSecurity(o.value.security, SchemeNames(o.value.securitySchemes))
  }

  lemma OpenApiSlotLookups(o: OpenApi)
    ensures
      var d := OmitNone(OpenApiSlots(o));
      && Allowed(d, ["securitySchemes", "security"])
      && Get(d, "securitySchemes") == (if o.securitySchemes.None? then None else Some(SchemesJson(o.securitySchemes.value)))
      && Get(d, "security") == (if o.security.None? then None else Some(SecurityJson(o.security.value)))
  {
    hide OmitNone, Get, SchemesJson, SecurityJson;
    var slots := OpenApiSlots(o);
    SlotsFound(slots, ["securitySchemes", "security"]);
    assert slots[0].0 == "securitySchemes" && slots[1].0 == "security";
  }

  lemma SchemesOptionBack(o: Option<Dict<Frozen>>, clean: UrlCheck)
    ensures ParseSchemes(if o.None? then None else Some(SchemesJson(o.value)), clean) ==
            if AcceptableSchemes(o, clean) then Ok(o) else Err(())
  {
    if o.Some? {
      SchemesBack(o.value, clean);
      hide ParseSchemes, SchemesJson, AcceptableSchemes;
    }
  }

  lemma SecurityOptionBack(o: Option<seq<Dict<seq<string>>>>, schemes: seq<string>)
    ensures ParseSecurity(if o.None? then None else Some(SecurityJson(o.value)), schemes) ==
            if AcceptableSecurity(o, schemes) then Ok(o) else Err(())
  {
    if o.Some? {
      SecurityBack(o.value, schemes);
      hide ParseSecurity, SecurityJson, AcceptableSecurity;
    }
  }

  lemma OpenApiBack(o: OpenApi, clean: UrlCheck)
    ensures ParseOpenApi(Some(Obj(OmitNone(OpenApiSlots(o)))), clean) ==
            if AcceptableOpenApi(Some(o), clean) then Ok(Some(o)) else Err(())
  {
    OpenApiSlotLookups(o);
    SchemesOptionBack(o.securitySchemes, clean);
    SecurityOptionBack(o.security, SchemeNames(o.securitySchemes));
    hide OmitNone, OpenApiSlots, Get, Allowed, ParseSchemes, ParseSecurity, SchemesJson, SecurityJson, SchemeNames,
      AcceptableSchemes, AcceptableSecurity;
  }

  lemma NothingToAccept(clean: UrlCheck, schemes: seq<string>)
    ensures AcceptableSchemes(None, clean) && AcceptableSecurity(None, schemes) && AcceptableOpenApi(None, clean)
  {}

  lemma AuthBack(a: Auth, clean: UrlCheck)
    ensures ParseAuth(Some(Obj(OmitNone(AuthSlots(a)))), clean) ==
            if AcceptableOpenApi(a.openapi, clean) then Ok(Some(a)) else Err(())
    ensures !MentionsPath(Some(Obj(OmitNone(AuthSlots(a)))))
  {
    AuthSlotLookups(a);
    if a.openapi.Some? { OpenApiBack(a.openapi.value, clean); }
    NothingParses();
    NothingToAccept(clean, []);
    hide OmitNone, AuthSlots, Get, Allowed, ParseOpenApi, OpenApiSlots, AcceptableOpenApi, BoolJson, OptionalBool;
    SwitchBack(a.disableStudioAuth);
  }

  lemma SwitchBack(o: Option<bool>)
    ensures OptionalBool(BoolJson(o)) == Ok(o) && OptionalString(None) == Ok(None)
  {}

  lemma AuthSlotLookups(a: Auth)
    ensures
      var d := OmitNone(AuthSlots(a));
      && Allowed(d, ["path", "openapi", "disable_studio_auth"]) && Get(d, "path") == None
      && Get(d, "disable_studio_auth") == BoolJson(a.disableStudioAuth)
      && Get(d, "openapi") == (if a.openapi.None? then None else Some(Obj(OmitNone(OpenApiSlots(a.openapi.value)))))
  {
    hide OmitNone, Get, OpenApiSlots, BoolJson;
    var slots := AuthSlots(a);
    SlotsFound(slots, ["path", "openapi", "disable_studio_auth"]);
    GetOmittedNone(slots, "path");
    assert slots[0].0 == "disable_studio_auth" && slots[1].0 == "openapi";
  }

  // ---- The manifest

  ghost predicate Acceptable(m: Manifest, clean: UrlCheck) {
    && m.graphs != [] && (forall i | 0 <= i < |m.graphs| :: m.graphs[i].0 != "" && GraphPreloaded(m.graphs[i].1))
    && (forall i | 0 <= i < |m.dependencies| :: ContainerPath(m.dependencies[i]))
    && (m.store.Some? ==> AcceptableStore(m.store.value))
    && AppPreloaded(m.http)
    && (m.auth.Some? ==> AcceptableOpenApi(m.auth.value.openapi, clean))
  }

  lemma ManifestLookups(m: Manifest)
    ensures
      var d := OmitNone(ManifestSlots(m));
      && Allowed(d, MANIFEST_NAMES) && Get(d, "schema_version") == Some(Int(1)) && Get(d, "runtime") == Some(Obj(RUNTIME))
      && Get(d, "graphs") == Some(GraphsJson(m.graphs)) && Get(d, "dependencies") == Some(Strings(m.dependencies))
      && Get(d, "store") == StoreJson(m.store) && Get(d, "http") == HttpJson(m.http) && Get(d, "auth") == AuthJson(m.auth)
  {
    hide OmitNone, Get, StoreJson, HttpJson, AuthJson, GraphsJson, Strings;
    var slots := ManifestSlots(m);
    NamesDiffer();
    SlotsFound(slots, MANIFEST_NAMES);
    assert slots[0].0 == "schema_version" && slots[1].0 == "runtime" && slots[2].0 == "graphs";
    assert slots[3].0 == "dependencies" && slots[4].0 == "store" && slots[5].0 == "http" && slots[6].0 == "auth";
  }

  lemma RuntimeBack()
    ensures RuntimeIdentity(Some(Obj(RUNTIME)))
  {
    var d := RUNTIME;
    assert d[1..][0] == d[1] && d[1..][1..][0] == d[2];
  }

  lemma SectionsBack(m: Manifest, clean: UrlCheck)
    ensures ParseStore(StoreJson(m.store)) ==
            if m.store.Some? ==> AcceptableStore(m.store.value) then Ok(m.store) else Err(())
    ensures ParseHttp(HttpJson(m.http)) == if AppPreloaded(m.http) then Ok(m.http) else Err(())
    ensures ParseAuth(AuthJson(m.auth), clean) ==
            if m.auth.Some? ==> AcceptableOpenApi(m.auth.value.openapi, clean) then Ok(m.auth) else Err(())
    ensures !MentionsPath(AuthJson(m.auth))
  {
    if m.store.Some? { StoreBack(m.store.value); }
    if m.http.Some? { HttpBack(m.http.value); }
    if m.auth.Some? { AuthBack(m.auth.value, clean); }
    NothingParses();
    NothingMentioned();
    hide OmitNone, StoreSlots, HttpSlots, AuthSlots, ParseStore, RawHttp, ParseAuth, AcceptableStore, AcceptableOpenApi,
      MentionsPath, AppPreloaded;
  }

  /** Parsing what was printed gives the manifest back exactly when the manifest is acceptable, and an
      error otherwise: never another manifest. */
  lemma PrintParseExactly(m: Manifest, clean: UrlCheck)
    ensures Parse(Print(m), clean) == if Acceptable(m, clean) then Ok(m) else Err(())
  {
    ManifestLookups(m);
    RuntimeBack();
    GraphsBack(m.graphs);
    StringsBack(m.dependencies);
    SectionsBack(m, clean);
    DirectoriesBack(m.dependencies);
    hide OmitNone, Get, Allowed, GraphsJson, ParseGraphs, ParseStore, ParseHttp, ParseAuth, StoreJson, HttpJson, AuthJson,
      AcceptableStore, AcceptableOpenApi, ManifestSlots, MentionsPath, RuntimeIdentity, ContainerDirectories, ContainerPath,
      GraphPreloaded, AppPreloaded, Strings, StringsOf;
  }

  lemma NothingMentioned()
    ensures !MentionsPath(None) && AppPreloaded(None)
  {}

  lemma DirectoriesBack(dependencies: seq<string>)
    ensures ContainerDirectories(Some(Strings(dependencies))) <==>
            forall i | 0 <= i < |dependencies| :: ContainerPath(dependencies[i])
  {
    hide ContainerPath;
    var items := Strings(dependencies).items;
    assert forall i | 0 <= i < |dependencies| :: items[i].s == dependencies[i];
  }

  // ---- What the parser accepts

  lemma GraphsAccepted(v: Option<Json>)
    requires ParseGraphs(v).Ok?
    ensures
      var graphs := ParseGraphs(v).value;
      graphs != [] && forall i | 0 <= i < |graphs| :: graphs[i].0 != "" && GraphPreloaded(graphs[i].1)
  {
    var fields := v.value.fields;
    var graphs := ParseGraphs(v).value;
    hide RawGraph, GraphPreloaded;
    assert |graphs| == |fields|;
    forall i | 0 <= i < |graphs| ensures graphs[i].0 != "" && GraphPreloaded(graphs[i].1) {
      assert graphs[i] == (fields[i].0, ParseGraph(fields[i].1).value);
    }
  }

  // A valid scheme holds strings, nulls and objects of them: nothing freezing would change.
  lemma ValidSchemeIsPlain(v: Json, clean: UrlCheck)
    requires ValidScheme(v, clean)
    ensures TupleFree(v)
  {
    forall i | 0 <= i < |v.fields| ensures TupleFree(v.fields[i].1) {
      var name, field := v.fields[i].0, v.fields[i].1;
      assert ValidSchemeField(name, field, clean);
      if name == "flows" {
        forall j | 0 <= j < |field.fields| ensures TupleFree(field.fields[j].1) {
          FlowIsPlain(field.fields[j].0, field.fields[j].1, clean);
        }
      }
    }
  }

  lemma FlowIsPlain(name: string, v: Json, clean: UrlCheck)
    requires ValidFlow(name, v, clean)
    ensures TupleFree(v)
  {
    forall i | 0 <= i < |v.fields| ensures TupleFree(v.fields[i].1) {
      assert ValidFlowField(v.fields[i].0, v.fields[i].1, clean);
    }
  }

  lemma SchemesAccepted(v: Option<Json>, clean: UrlCheck)
    requires ParseSchemes(v, clean).Ok?
    ensures AcceptableSchemes(ParseSchemes(v, clean).value, clean)
  {
    var schemes := ParseSchemes(v, clean).value;
    if schemes.Some? {
      var fields := v.value.fields;
      forall i | 0 <= i < |schemes.value| ensures ValidScheme(Thaw(schemes.value[i].1), clean) {
        assert ValidScheme(fields[i].1, clean) && schemes.value[i] == (fields[i].0, Frost(fields[i].1));
        ValidSchemeIsPlain(fields[i].1, clean);
        ThawFreezeForward(fields[i].1);
      }
    }
  }

  lemma SecurityAccepted(v: Option<Json>, schemes: seq<string>)
    requires ParseSecurity(v, schemes).Ok?
    ensures AcceptableSecurity(ParseSecurity(v, schemes).value, schemes)
  {
    var security := ParseSecurity(v, schemes).value;
    if security.Some? {
      var items := v.value.items;
      forall i, j | 0 <= i < |security.value| && 0 <= j < |security.value[i]|
        ensures security.value[i][j].0 in schemes
      {
        assert ValidRequirement(items[i], schemes) && security.value[i] == RequirementOf(items[i], schemes);
        assert items[i].fields[j].0 in schemes;
      }
    }
  }

  lemma AuthAccepted(v: Option<Json>, clean: UrlCheck)
    requires ParseAuth(v, clean).Ok?
    ensures
      var auth := ParseAuth(v, clean).value;
      auth.Some? ==> AcceptableOpenApi(auth.value.openapi, clean)
  {
    var auth := ParseAuth(v, clean).value;
    if auth.Some? && auth.value.openapi.Some? {
      var fields := v.value.fields;
      OpenApiAccepted(Get(fields, "openapi"), clean);
      hide ParseOpenApi, AcceptableOpenApi;
    }
  }

  lemma OpenApiAccepted(v: Option<Json>, clean: UrlCheck)
    requires ParseOpenApi(v, clean).Ok?
    ensures AcceptableOpenApi(ParseOpenApi(v, clean).value, clean)
  {
    var openapi := ParseOpenApi(v, clean).value;
    if openapi.Some? {
      var fields := v.value.fields;
      SchemesAccepted(Get(fields, "securitySchemes"), clean);
      SecurityAccepted(Get(fields, "security"), SchemeNames(openapi.value.securitySchemes));
      hide ParseSchemes, ParseSecurity, AcceptableSchemes, AcceptableSecurity, SchemeNames, Get, Allowed;
    }
  }

  lemma StoreAccepted(v: Option<Json>)
    requires ParseStore(v).Ok?
    ensures ParseStore(v).value.Some? ==> AcceptableStore(ParseStore(v).value.value)
  {
    hide EmbedPreloaded, OptionalString, OptionalInt, OptionalNumber, OptionalBool, StringTuple;
  }

  lemma DirectoriesAccepted(v: Option<Json>)
    requires ContainerDirectories(v)
    ensures forall i | 0 <= i < |StringsOf(v.value)| :: ContainerPath(StringsOf(v.value)[i])
  {
    hide ContainerPath;
  }

  /** Everything the parser returns is acceptable, so it survives printing and parsing again. */
  lemma ParsedIsAcceptable(v: Json, clean: UrlCheck)
    requires Parse(v, clean).Ok?
    ensures Acceptable(Parse(v, clean).value, clean)
    ensures Parse(Print(Parse(v, clean).value), clean) == Parse(v, clean)
  {
    var m, d := Parse(v, clean).value, v.fields;
    GraphsAccepted(Get(d, "graphs"));
    DirectoriesAccepted(Get(d, "dependencies"));
    StoreAccepted(Get(d, "store"));
    AuthAccepted(Get(d, "auth"), clean);
    HttpAccepted(Get(d, "http"));
    assert Acceptable(m, clean) by {
      hide ParseGraphs, ParseStore, ParseHttp, ParseAuth, Allowed, RuntimeIdentity, ContainerDirectories, MentionsPath,
        StringsOf, AcceptableStore, AcceptableOpenApi, AppPreloaded, ContainerPath, GraphPreloaded, Get;
    }
    PrintParseExactly(m, clean);
    hide Parse, Print, Acceptable;
  }

  lemma HttpAccepted(v: Option<Json>)
    requires ParseHttp(v).Ok?
    ensures AppPreloaded(ParseHttp(v).value)
  {
    hide RawHttp, AppPreloaded;
  }
}
