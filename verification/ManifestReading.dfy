/** What the parser reads: a manifest says all that its document says, and nothing else. */
module ManifestReading {
  import opened Wrappers
  import opened OrderedDict
  import opened JsonValues
  import opened Manifest
  import opened ManifestRoundTrip
  import opened PolicyPreserved

  // An entry as it is found by its name.
  predicate Shown(d: Dict<Json>, i: nat)
    requires i < |d|
  {
    Get(d, d[i].0) == Some(d[i].1)
  }

  /** Two values say the same: they are equal, or objects that say the same under every name, where a null
      says nothing. */
  ghost predicate Agrees(a: Json, b: Json)
    decreases a
  {
    || a == b
    || (&& a.Obj? && b.Obj?
        && (forall i | 0 <= i < |a.fields| && Shown(a.fields, i) ::
              if a.fields[i].1.Null? then !Has(b.fields, a.fields[i].0)
              else Has(b.fields, a.fields[i].0) && Agrees(a.fields[i].1, Get(b.fields, a.fields[i].0).value))
        && (forall n | Has(b.fields, n) :: Has(a.fields, n)))
  }

  // Two entries of one name.
  ghost predicate AgreeOn(a: Option<Json>, b: Option<Json>) {
    if a.None? || a.value.Null? then b.None? else b.Some? && Agrees(a.value, b.value)
  }

  lemma Reflexive(a: Json)
    ensures Agrees(a, a)
  {}

  lemma SectionAgrees(a: Dict<Json>, b: Dict<Json>, names: seq<string>)
    requires Allowed(a, names) && Allowed(b, names)
    requires forall i | 0 <= i < |names| :: AgreeOn(Get(a, names[i]), Get(b, names[i]))
    ensures Agrees(Obj(a), Obj(b))
  {
    hide Agrees;
    forall i | 0 <= i < |a| && Shown(a, i)
      ensures if a[i].1.Null? then !Has(b, a[i].0) else Has(b, a[i].0) && Agrees(a[i].1, Get(b, a[i].0).value)
    {
      var k :| 0 <= k < |names| && names[k] == a[i].0;
      assert AgreeOn(Get(a, names[k]), Get(b, names[k]));
    }
    forall n | Has(b, n) ensures Has(a, n) {
      GetIn(b, n);
      var k :| 0 <= k < |names| && names[k] == n;
      assert AgreeOn(Get(a, names[k]), Get(b, names[k]));
    }
    Objects(a, b);
  }

  lemma Objects(a: Dict<Json>, b: Dict<Json>)
    requires forall i | 0 <= i < |a| && Shown(a, i) ::
               if a[i].1.Null? then !Has(b, a[i].0) else Has(b, a[i].0) && Agrees(a[i].1, Get(b, a[i].0).value)
    requires forall n | Has(b, n) :: Has(a, n)
    ensures Agrees(Obj(a), Obj(b))
  {}

  // ---- Entries that are not sections

  lemma EntryAgrees(v: Option<Json>, w: Option<Json>)
    requires w == Denulled(v)
    ensures AgreeOn(v, w)
  {}

  lemma SwitchRead(v: Option<Json>)
    requires OptionalBool(v).Ok?
    ensures AgreeOn(v, BoolJson(OptionalBool(v).value))
  {}

  lemma WholeRead(v: Option<Json>)
    requires OptionalInt(v).Ok?
    ensures AgreeOn(v, IntJson(OptionalInt(v).value))
  {}

  lemma NumberRead(v: Option<Json>)
    requires OptionalNumber(v).Ok?
    ensures AgreeOn(v, NumberJson(OptionalNumber(v).value))
  {}

  lemma TextRead(v: Option<Json>)
    requires OptionalString(v).Ok?
    ensures AgreeOn(v, StrJson(OptionalString(v).value))
  {}

  lemma TextsRead(v: Option<Json>)
    requires StringTuple(v).Ok?
    ensures AgreeOn(v, StringsJson(StringTuple(v).value))
  {
    StringsReturn(v);
    EntryAgrees(v, StringsJson(StringTuple(v).value));
    hide StringTuple, StringsJson;
  }

  lemma SchemaRead(v: Option<Json>)
    requires OptionalSchema(v).Ok? && (v.Some? ==> TupleFree(v.value))
    ensures AgreeOn(v, SchemaJson(OptionalSchema(v).value))
  {
    if v.Some? && v.value.Obj? { ThawFreezeForward(v.value); }
  }

  // ---- Sections

  lemma TtlRead(v: Option<Json>)
    requires ParseTtl(v).Ok?
    ensures
      var t := ParseTtl(v).value;
      AgreeOn(v, if t.None? then None else Some(Obj(OmitNone(TtlSlots(t.value)))))
  {
    var t := ParseTtl(v).value;
    if t.Some? {
      var f, names := v.value.fields, ["refresh_on_read", "default_ttl", "sweep_interval_minutes"];
      var slots := TtlSlots(t.value);
      SlotsFound(slots, names);
      SwitchRead(Get(f, names[0]));
      NumberRead(Get(f, names[1]));
      WholeRead(Get(f, names[2]));
      hide OmitNone, Get, AgreeOn, BoolJson, NumberJson, IntJson, OptionalBool, OptionalNumber, OptionalInt, Allowed;
      assert slots[0].0 == names[0] && slots[1].0 == names[1] && slots[2].0 == names[2];
      SectionAgrees(f, OmitNone(slots), names);
      Present(v.value, Obj(OmitNone(slots)));
    }
  }

  lemma Present(a: Json, b: Json)
    requires !a.Null? && Agrees(a, b)
    ensures AgreeOn(Some(a), Some(b))
  {}

  lemma IndexRead(v: Option<Json>)
    requires ParseIndex(v).Ok?
    ensures
      var x := ParseIndex(v).value;
      AgreeOn(v, if x.None? then None else Some(Obj(OmitNone(IndexSlots(x.value)))))
  {
    var x := ParseIndex(v).value;
    if x.Some? {
      var f, names := v.value.fields, ["embed", "dims", "fields"];
      var slots := IndexSlots(x.value);
      SlotsFound(slots, names);
      TextRead(Get(f, names[0]));
      WholeRead(Get(f, names[1]));
      TextsRead(Get(f, names[2]));
      hide OmitNone, Get, AgreeOn, StrJson, StringsJson, IntJson, OptionalString, OptionalInt, StringTuple, Allowed,
        EmbedPreloaded;
      assert slots[0].0 == names[0] && slots[1].0 == names[1] && slots[2].0 == names[2];
      SectionAgrees(f, OmitNone(slots), names);
      Present(v.value, Obj(OmitNone(slots)));
    }
  }

  lemma StoreRead(v: Option<Json>)
    requires ParseStore(v).Ok?
    ensures AgreeOn(v, StoreJson(ParseStore(v).value))
  {
    var s := ParseStore(v).value;
    if s.Some? {
      var f, names := v.value.fields, ["ttl", "index"];
      var slots := StoreSlots(s.value);
      SlotsFound(slots, names);
      TtlRead(Get(f, names[0]));
      IndexRead(Get(f, names[1]));
      hide OmitNone, Get, AgreeOn, ParseTtl, ParseIndex, Allowed, TtlSlots, IndexSlots;
      assert slots[0].0 == names[0] && slots[1].0 == names[1];
      SectionAgrees(f, OmitNone(slots), names);
      Present(v.value, Obj(OmitNone(slots)));
    }
  }

  // Each entry of a cors section is read into its own field.
  lemma CorsFields(f: Dict<Json>)
    requires ParseCors(Some(Obj(f))).Ok?
    ensures
      var c := ParseCors(Some(Obj(f))).value;
      && c.Some? && Allowed(f, CORS_NAMES)
      && StringTuple(Get(f, "allow_origins")) == Ok(c.value.allowOrigins)
      && OptionalString(Get(f, "allow_origin_regex")) == Ok(c.value.allowOriginRegex)
      && StringTuple(Get(f, "allow_methods")) == Ok(c.value.allowMethods)
      && StringTuple(Get(f, "allow_headers")) == Ok(c.value.allowHeaders)
      && OptionalBool(Get(f, "allow_credentials")) == Ok(c.value.allowCredentials)
      && StringTuple(Get(f, "expose_headers")) == Ok(c.value.exposeHeaders)
      && OptionalInt(Get(f, "max_age")) == Ok(c.value.maxAge)
  {
    hide Get, StringTuple, OptionalString, OptionalBool, OptionalInt, Allowed;
  }

  lemma CorsEntriesRead(f: Dict<Json>, c: Cors)
    requires ParseCors(Some(Obj(f))) == Ok(Some(c))
    ensures Agrees(Obj(f), Obj(OmitNone(CorsSlots(c))))
  {
    CorsFields(f);
    CorsLookups(c);
    TextsRead(Get(f, "allow_origins"));
    TextRead(Get(f, "allow_origin_regex"));
    TextsRead(Get(f, "allow_methods"));
    TextsRead(Get(f, "allow_headers"));
    SwitchRead(Get(f, "allow_credentials"));
    TextsRead(Get(f, "expose_headers"));
    WholeRead(Get(f, "max_age"));
    hide OmitNone, CorsSlots, Get, AgreeOn, Agrees, StrJson, StringsJson, IntJson, BoolJson, OptionalString, OptionalInt,
      OptionalBool, StringTuple, Allowed, ParseCors;
    SectionAgrees(f, OmitNone(CorsSlots(c)), CORS_NAMES);
  }

  lemma CorsRead(v: Option<Json>)
    requires ParseCors(v).Ok?
    ensures
      var c := ParseCors(v).value;
      AgreeOn(v, if c.None? then None else Some(Obj(OmitNone(CorsSlots(c.value)))))
  {
    var c := ParseCors(v).value;
    CorsPresent(v);
    if c.Some? {
      CorsEntriesRead(v.value.fields, c.value);
      Present(v.value, Obj(OmitNone(CorsSlots(c.value))));
    }
    hide ParseCors, OmitNone, CorsSlots, Agrees;
  }

  lemma CorsPresent(v: Option<Json>)
    requires ParseCors(v).Ok?
    ensures if ParseCors(v).value.Some? then v.Some? && v.value.Obj? else v.None? || v.value.Null?
  {
    hide Get, StringTuple, OptionalString, OptionalBool, OptionalInt, Allowed;
  }

  lemma HttpRead(v: Option<Json>)
    requires ParseHttp(v).Ok?
    ensures AgreeOn(v, HttpJson(ParseHttp(v).value))
  {
    var h := ParseHttp(v).value;
    if h.Some? {
      var f, printed := v.value.fields, OmitNone(HttpSlots(h.value));
      HttpLookups(h.value);
      TextRead(Get(f, "app"));
      CorsRead(Get(f, "cors"));
      SwitchRead(Get(f, "disable_mcp"));
      SwitchRead(Get(f, "disable_a2a"));
      hide OmitNone, HttpSlots, CorsSlots, Get, AgreeOn, StrJson, BoolJson, OptionalString, OptionalBool, ParseCors, Allowed,
        AppPreloaded;
      SectionAgrees(f, printed, ["app", "cors", "disable_mcp", "disable_a2a"]);
      Present(v.value, Obj(printed));
    }
  }

  // ---- Graphs

  lemma GraphFields(f: Dict<Json>)
    requires RawGraph(Obj(f)).Ok?
    ensures
      var g := RawGraph(Obj(f)).value;
      && g.Structured? && Allowed(f, GRAPH_NAMES) && Get(f, "graph") == Some(Str(g.graph))
      && OptionalString(Get(f, "prepare_input")) == Ok(g.prepareInput)
      && OptionalString(Get(f, "extract_output")) == Ok(g.extractOutput)
      && OptionalString(Get(f, "name")) == Ok(g.name) && OptionalString(Get(f, "description")) == Ok(g.description)
      && OptionalSchema(Get(f, "input_schema")) == Ok(g.inputSchema)
      && OptionalSchema(Get(f, "output_schema")) == Ok(g.outputSchema)
  {
    hide Get, OptionalString, OptionalSchema, Allowed;
  }

  lemma FreeEntry(f: Dict<Json>, name: string)
    requires TupleFree(Obj(f))
    ensures Has(f, name) ==> TupleFree(Get(f, name).value)
  {
    GetIn(f, name);
    if Has(f, name) {
      var i :| 0 <= i < |f| && f[i] == (name, Get(f, name).value);
    }
  }

  lemma GraphEntriesRead(f: Dict<Json>, g: Graph)
    requires RawGraph(Obj(f)) == Ok(g) && TupleFree(Obj(f))
    ensures Agrees(Obj(f), GraphJson(g))
  {
    GraphFields(f);
    GraphLookups(g);
    TextRead(Get(f, "prepare_input"));
    TextRead(Get(f, "extract_output"));
    TextRead(Get(f, "name"));
    TextRead(Get(f, "description"));
    FreeEntry(f, "input_schema");
    FreeEntry(f, "output_schema");
    SchemaRead(Get(f, "input_schema"));
    SchemaRead(Get(f, "output_schema"));
    hide OmitNone, GraphSlots, Get, AgreeOn, Agrees, StrJson, SchemaJson, OptionalString, OptionalSchema, Allowed, RawGraph,
      TupleFree;
    assert AgreeOn(Get(f, "graph"), Some(Str(g.graph))) by { EntryStays(Str(g.graph)); }
    SectionAgrees(f, OmitNone(GraphSlots(g)), GRAPH_NAMES);
  }

  lemma EntryStays(v: Json)
    requires !v.Null?
    ensures AgreeOn(Some(v), Some(v))
  {}

  lemma GraphRead(v: Json)
    requires RawGraph(v).Ok? && TupleFree(v)
    ensures Agrees(v, GraphJson(RawGraph(v).value)) && !v.Null?
  {
    if v.Obj? { GraphEntriesRead(v.fields, RawGraph(v).value); }
    hide Get, OptionalString, OptionalSchema, Allowed, GraphSlots, OmitNone, TupleFree;
  }

  // Objects that list the same names.
  lemma {:induction false} GetParallel(a: Dict<Json>, b: Dict<Json>, name: string)
    requires |a| == |b| && forall i | 0 <= i < |a| :: a[i].0 == b[i].0
    ensures Has(a, name) <==> Has(b, name)
    ensures Has(a, name) ==> exists i | 0 <= i < |a| :: Get(a, name) == Some(a[i].1) && Get(b, name) == Some(b[i].1)
  {
    if a != [] {
      GetParallel(a[1..], b[1..], name);
      if a[0].0 != name && Has(a, name) {
        var i :| 0 <= i < |a| - 1 && Get(a[1..], name) == Some(a[1..][i].1) && Get(b[1..], name) == Some(b[1..][i].1);
        assert Get(a, name) == Some(a[i + 1].1) && Get(b, name) == Some(b[i + 1].1);
      }
    }
  }

  lemma Pointwise(a: Dict<Json>, b: Dict<Json>)
    requires |a| == |b|
    requires forall i | 0 <= i < |a| :: a[i].0 == b[i].0 && !a[i].1.Null? && Agrees(a[i].1, b[i].1)
    ensures Agrees(Obj(a), Obj(b))
  {
    hide Agrees;
    forall i | 0 <= i < |a| && Shown(a, i) ensures Has(b, a[i].0) && Agrees(a[i].1, Get(b, a[i].0).value) {
      GetParallel(a, b, a[i].0);
    }
    forall n | Has(b, n) ensures Has(a, n) { GetParallel(a, b, n); }
    Objects(a, b);
  }

  lemma GraphsRead(f: Dict<Json>)
    requires ParseGraphs(Some(Obj(f))).Ok? && TupleFree(Obj(f))
    ensures Agrees(Obj(f), GraphsJson(ParseGraphs(Some(Obj(f))).value))
  {
    var graphs := ParseGraphs(Some(Obj(f))).value;
    var printed := GraphsJson(graphs).fields;
    forall i | 0 <= i < |f| ensures f[i].0 == printed[i].0 && !f[i].1.Null? && Agrees(f[i].1, printed[i].1) {
      assert graphs[i] == (f[i].0, ParseGraph(f[i].1).value);
      GraphRead(f[i].1);
      hide RawGraph, GraphJson, GraphPreloaded, Agrees;
    }
    hide Agrees, ParseGraph, GraphJson;
    Pointwise(f, printed);
  }

  // ---- Security metadata

  lemma SchemesRead(v: Option<Json>, clean: UrlCheck)
    requires ParseSchemes(v, clean).Ok?
    ensures
      var o := ParseSchemes(v, clean).value;
      AgreeOn(v, if o.None? then None else Some(SchemesJson(o.value)))
  {
    var o := ParseSchemes(v, clean).value;
    if o.Some? {
      var f, printed := v.value.fields, SchemesJson(o.value).fields;
      forall i | 0 <= i < |f| ensures printed[i] == f[i] {
        assert ValidScheme(f[i].1, clean) && o.value[i] == (f[i].0, Frost(f[i].1));
        ValidSchemeIsPlain(f[i].1, clean);
        ThawFreezeForward(f[i].1);
        hide ValidScheme, Thaw, Frost, TupleFree;
      }
      assert printed == f;
    }
  }

  lemma RequirementRead(v: Json, schemes: seq<string>)
    requires ValidRequirement(v, schemes)
    ensures RequirementJson(RequirementOf(v, schemes)) == v
  {
    var printed := RequirementJson(RequirementOf(v, schemes)).fields;
    forall i | 0 <= i < |v.fields| ensures printed[i] == v.fields[i] {
      assert StringList(v.fields[i].1);
      assert Strings(StringsOf(v.fields[i].1)).items == v.fields[i].1.items;
    }
    assert printed == v.fields;
  }

  lemma SecurityRead(v: Option<Json>, schemes: seq<string>)
    requires ParseSecurity(v, schemes).Ok?
    ensures
      var o := ParseSecurity(v, schemes).value;
      AgreeOn(v, if o.None? then None else Some(SecurityJson(o.value)))
  {
    var o := ParseSecurity(v, schemes).value;
    if o.Some? {
      var items, printed := v.value.items, SecurityJson(o.value).items;
      forall i | 0 <= i < |items| ensures printed[i] == items[i] {
        assert ValidRequirement(items[i], schemes) && o.value[i] == RequirementOf(items[i], schemes);
        RequirementRead(items[i], schemes);
        hide ValidRequirement, RequirementOf, RequirementJson;
      }
      assert printed == items;
    }
  }

  lemma OpenApiRead(v: Option<Json>, clean: UrlCheck)
    requires ParseOpenApi(v, clean).Ok?
    ensures
      var o := ParseOpenApi(v, clean).value;
      AgreeOn(v, if o.None? then None else Some(Obj(OmitNone(OpenApiSlots(o.value)))))
  {
    var o := ParseOpenApi(v, clean).value;
    if o.Some? {
      var f, printed := v.value.fields, OmitNone(OpenApiSlots(o.value));
      OpenApiSlotLookups(o.value);
      SchemesRead(Get(f, "securitySchemes"), clean);
      SecurityRead(Get(f, "security"), SchemeNames(o.value.securitySchemes));
      hide OmitNone, OpenApiSlots, Get, AgreeOn, ParseSchemes, ParseSecurity, SchemesJson, SecurityJson, Allowed, SchemeNames;
      SectionAgrees(f, printed, ["securitySchemes", "security"]);
      Present(v.value, Obj(printed));
    }
  }

  lemma AuthRead(v: Option<Json>, clean: UrlCheck)
    requires ParseAuth(v, clean).Ok? && !MentionsPath(v)
    ensures AgreeOn(v, AuthJson(ParseAuth(v, clean).value))
  {
    var a := ParseAuth(v, clean).value;
    if a.Some? {
      var f, printed := v.value.fields, OmitNone(AuthSlots(a.value));
      AuthSlotLookups(a.value);
      SwitchRead(Get(f, "disable_studio_auth"));
      OpenApiRead(Get(f, "openapi"), clean);
      assert AgreeOn(Get(f, "path"), None);
      hide OmitNone, AuthSlots, OpenApiSlots, Get, AgreeOn, ParseOpenApi, BoolJson, OptionalBool, OptionalString, Allowed;
      SectionAgrees(f, printed, ["path", "openapi", "disable_studio_auth"]);
      Present(v.value, Obj(printed));
    }
  }

  // ---- The document

  lemma IdentityRead(v: Option<Json>)
    requires RuntimeIdentity(v)
    ensures AgreeOn(v, Some(Obj(RUNTIME)))
  {
    var f, names := v.value.fields, ["distribution", "version", "contract"];
    RuntimeBack();
    forall i | 0 <= i < |names| ensures AgreeOn(Get(f, names[i]), Get(RUNTIME, names[i])) {
      assert Get(f, names[i]) == Get(RUNTIME, names[i]) && Get(f, names[i]).Some? && !Get(f, names[i]).value.Null?;
    }
    hide Get, AgreeOn, Allowed;
    SectionAgrees(f, RUNTIME, names);
    Present(v.value, Obj(RUNTIME));
  }

  lemma DirectoriesRead(v: Option<Json>)
    requires ContainerDirectories(v)
    ensures AgreeOn(v, Some(Strings(StringsOf(v.value))))
  {
    hide ContainerPath;
    assert Strings(StringsOf(v.value)).items == v.value.items;
  }

  // Each entry of a document is read into its own field.
  lemma ManifestFields(d: Dict<Json>, clean: UrlCheck)
    requires Parse(Obj(d), clean).Ok?
    ensures
      var m := Parse(Obj(d), clean).value;
      && Allowed(d, MANIFEST_NAMES) && Get(d, "schema_version") == Some(Int(1))
      && RuntimeIdentity(Get(d, "runtime")) && ContainerDirectories(Get(d, "dependencies"))
      && ParseGraphs(Get(d, "graphs")) == Ok(m.graphs) && m.dependencies == StringsOf(Get(d, "dependencies").value)
      && ParseStore(Get(d, "store")) == Ok(m.store) && ParseHttp(Get(d, "http")) == Ok(m.http)
      && ParseAuth(Get(d, "auth"), clean) == Ok(m.auth) && !MentionsPath(Get(d, "auth"))
  {
    hide Get, Allowed, RuntimeIdentity, ContainerDirectories, ParseGraphs, ParseStore, ParseHttp, ParseAuth, MentionsPath,
      StringsOf;
  }

  lemma GraphsPresent(v: Option<Json>)
    requires ParseGraphs(v).Ok?
    ensures v.Some? && v.value.Obj?
  {}

  // The entries of a document and those of its printed manifest.
  lemma EntriesRead(d: Dict<Json>, clean: UrlCheck)
    requires Parse(Obj(d), clean).Ok? && TupleFree(Obj(d))
    ensures
      var m := Parse(Obj(d), clean).value;
      && AgreeOn(Get(d, "schema_version"), Some(Int(1))) && AgreeOn(Get(d, "runtime"), Some(Obj(RUNTIME)))
      && AgreeOn(Get(d, "graphs"), Some(GraphsJson(m.graphs)))
      && AgreeOn(Get(d, "dependencies"), Some(Strings(m.dependencies)))
      && AgreeOn(Get(d, "store"), StoreJson(m.store)) && AgreeOn(Get(d, "http"), HttpJson(m.http))
      && AgreeOn(Get(d, "auth"), AuthJson(m.auth))
  {
    var m := Parse(Obj(d), clean).value;
    ManifestFields(d, clean);
    IdentityRead(Get(d, "runtime"));
    DirectoriesRead(Get(d, "dependencies"));
    GraphsPresent(Get(d, "graphs"));
    FreeEntry(d, "graphs");
    GraphsRead(Get(d, "graphs").value.fields);
    StoreRead(Get(d, "store"));
    HttpRead(Get(d, "http"));
    AuthRead(Get(d, "auth"), clean);
    EntryStays(Int(1));
    Present(Get(d, "graphs").value, GraphsJson(m.graphs));
    hide Parse, Get, AgreeOn, Agrees, Allowed, RuntimeIdentity, ContainerDirectories, ParseGraphs, ParseStore, ParseHttp,
      ParseAuth, MentionsPath, StringsOf, Strings, GraphsJson, StoreJson, HttpJson, AuthJson, TupleFree;
  }

  lemma DocumentsAgree(d: Dict<Json>, e: Dict<Json>)
    requires Allowed(d, MANIFEST_NAMES) && Allowed(e, MANIFEST_NAMES)
    requires AgreeOn(Get(d, "schema_version"), Get(e, "schema_version")) && AgreeOn(Get(d, "runtime"), Get(e, "runtime"))
    requires AgreeOn(Get(d, "graphs"), Get(e, "graphs")) && AgreeOn(Get(d, "dependencies"), Get(e, "dependencies"))
    requires AgreeOn(Get(d, "store"), Get(e, "store")) && AgreeOn(Get(d, "http"), Get(e, "http"))
    requires AgreeOn(Get(d, "auth"), Get(e, "auth"))
    ensures Agrees(Obj(d), Obj(e))
  {
    hide Get, AgreeOn, Agrees, Allowed;
    SectionAgrees(d, e, MANIFEST_NAMES);
  }

  /** The manifest of a document says what the document says, section by section, with nothing left out and
      nothing added; a null counts as left out. */
  lemma ParsedSaysAll(d: Dict<Json>, clean: UrlCheck)
    requires Parse(Obj(d), clean).Ok? && TupleFree(Obj(d))
    ensures Agrees(Obj(d), Print(Parse(Obj(d), clean).value))
  {
    var m := Parse(Obj(d), clean).value;
    EntriesRead(d, clean);
    NamesKnown(d, clean);
    ManifestLookups(m);
    hide *;
    hide Print;
    DocumentsAgree(d, OmitNone(ManifestSlots(m)));
    assert Print(m) == Obj(OmitNone(ManifestSlots(m))) by { Printed(m); }
  }

  lemma Printed(m: Manifest)
    ensures Print(m) == Obj(OmitNone(ManifestSlots(m)))
  {
    hide OmitNone, ManifestSlots;
  }

  lemma NamesKnown(d: Dict<Json>, clean: UrlCheck)
    requires Parse(Obj(d), clean).Ok?
    ensures Allowed(d, MANIFEST_NAMES)
  {
    ManifestFields(d, clean);
  }
}
