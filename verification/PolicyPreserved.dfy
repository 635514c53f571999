/** What planning preserves: proofs about `RuntimePolicy`. */
module PolicyPreserved {
  import opened Wrappers
  import opened OrderedDict
  import opened JsonValues
  import opened Manifest
  import opened ManifestRoundTrip
  import opened RuntimePolicy

  /** Parsing the printed manifest again changes nothing: the plan's manifest is the one built, and it
      is refused exactly when that is not acceptable. */
  lemma PlanKeepsManifest(config: Dict<Json>, files: Files, clean: UrlCheck, runtimeRoots: Option<seq<string>>)
    ensures
      match Built(config, files, clean, runtimeRoots)
      case Err(_) => Plan(config, files, clean, runtimeRoots) == Err(())
      case Ok(m) => Plan(config, files, clean, runtimeRoots) == if Acceptable(m, clean) then Ok(m) else Err(())
  {
    var built := Built(config, files, clean, runtimeRoots);
    if built.Ok? { PrintParseExactly(built.value, clean); }
    hide Built, Parse, Print, Acceptable;
  }

  // ---- Nulls disappear

  // What a value becomes in the manifest: an explicit null is omitted.
  function Denulled(v: Option<Json>): Option<Json> { if v == Some(Null) then None else v }

  lemma StringsReturn(v: Option<Json>)
    requires StringTuple(v).Ok?
    ensures StringsJson(StringTuple(v).value) == Denulled(v)
    ensures v.Some? ==> Freezable(v.value)
  {
    if v.Some? && v.value.List? {
      assert Strings(StringsOf(v.value)).items == v.value.items;
    }
  }

  lemma ScalarsReturn(b: Option<Json>, n: Option<Json>, s: Option<Json>)
    requires OptionalBool(b).Ok? && OptionalInt(n).Ok? && OptionalString(s).Ok?
    ensures BoolJson(OptionalBool(b).value) == Denulled(b)
    ensures IntJson(OptionalInt(n).value) == Denulled(n)
    ensures StrJson(OptionalString(s).value) == Denulled(s)
  {}

  // ---- CORS

  predicate Star(origins: Option<Json>) { origins.None? || origins == Some(STAR) }

  /** Explicit nulls that the printed section turns into other settings. A null for the regex is the
      default; a null for the credentials is false, as the default is when every origin is allowed. */
  predicate CorsNullsHarmless(cors: Dict<Json>) {
    && Get(cors, "allow_origins") != Some(Null) && Get(cors, "allow_methods") != Some(Null)
    && Get(cors, "allow_headers") != Some(Null) && Get(cors, "expose_headers") != Some(Null)
    && Get(cors, "max_age") != Some(Null)
    && (Get(cors, "allow_credentials") == Some(Null) ==> Star(Get(cors, "allow_origins")))
  }

  // A setting read from an entry, and from the entry without its null.
  lemma SettingKept(v: Option<Json>, default: Json)
    requires !default.Null? && Freezable(default) && (v.Some? ==> Freezable(v.value))
    ensures Freezable(Or(v, default)) && Freezable(Or(Denulled(v), default))
    ensures Frost(Or(v, default)) == Frost(Or(Denulled(v), default)) <==> v != Some(Null)
  {}

  lemma CredentialsKept(o: Option<Json>, c: Option<Json>)
    requires StringTuple(o).Ok? && OptionalBool(c).Ok? && o != Some(Null)
    ensures Credentials(Or(o, STAR), c) == Credentials(Or(Denulled(o), STAR), Denulled(c)) <==>
            (c == Some(Null) ==> Star(o))
  {}

  // The settings with and without the nulls, for entries the parser lets through.
  lemma NullsInCors(o: Option<Json>, c: Option<Json>, m: Option<Json>, h: Option<Json>, r: Option<Json>,
                    e: Option<Json>, a: Option<Json>)
    requires StringTuple(o).Ok? && OptionalBool(c).Ok? && StringTuple(m).Ok? && StringTuple(h).Ok?
    requires OptionalString(r).Ok? && StringTuple(e).Ok? && OptionalInt(a).Ok?
    ensures
      var x := CorsFrom(o, c, m, h, r, e, a);
      var y := CorsFrom(Denulled(o), Denulled(c), Denulled(m), Denulled(h), Denulled(r), Denulled(e), Denulled(a));
      && x.Ok? && y.Ok?
      && (x == y <==>
            && o != Some(Null) && m != Some(Null) && h != Some(Null) && e != Some(Null) && a != Some(Null)
            && (c == Some(Null) ==> Star(o)))
  {
    hide *;
    ScalarsFreeze(a, r);
    StringsReturn(o);
    StringsReturn(m);
    StringsReturn(h);
    StringsReturn(e);
    SettingKept(o, STAR);
    SettingKept(m, STAR);
    SettingKept(h, STAR);
    SettingKept(e, EXPOSED);
    SettingKept(a, Int(600));
    if o != Some(Null) { CredentialsKept(o, c); }
    CorsCompared(o, c, m, h, r, e, a);
  }

  lemma ScalarsFreeze(a: Option<Json>, r: Option<Json>)
    requires OptionalInt(a).Ok? && OptionalString(r).Ok?
    ensures Freezable(STAR) && Freezable(EXPOSED) && Freezable(Int(600)) && STAR != Null && EXPOSED != Null
    ensures (a.Some? ==> Freezable(a.value)) && Freezable(Or(r, Null)) && Or(Denulled(r), Null) == Or(r, Null)
  {}

  // Settings are equal field by field.
  lemma CorsCompared(o: Option<Json>, c: Option<Json>, m: Option<Json>, h: Option<Json>, r: Option<Json>,
                     e: Option<Json>, a: Option<Json>)
    requires Freezable(Or(o, STAR)) && Freezable(Or(m, STAR)) && Freezable(Or(h, STAR))
    requires Freezable(Or(e, EXPOSED)) && Freezable(Or(a, Int(600))) && Freezable(Or(r, Null))
    requires Freezable(Or(Denulled(o), STAR)) && Freezable(Or(Denulled(m), STAR)) && Freezable(Or(Denulled(h), STAR))
    requires Freezable(Or(Denulled(e), EXPOSED)) && Freezable(Or(Denulled(a), Int(600)))
    requires Or(Denulled(r), Null) == Or(r, Null)
    ensures
      var x := CorsFrom(o, c, m, h, r, e, a);
      var y := CorsFrom(Denulled(o), Denulled(c), Denulled(m), Denulled(h), Denulled(r), Denulled(e), Denulled(a));
      && x.Ok? && y.Ok?
      && (x == y <==>
            && Frost(Or(o, STAR)) == Frost(Or(Denulled(o), STAR)) && Frost(Or(m, STAR)) == Frost(Or(Denulled(m), STAR))
            && Frost(Or(h, STAR)) == Frost(Or(Denulled(h), STAR))
            && Frost(Or(e, EXPOSED)) == Frost(Or(Denulled(e), EXPOSED))
            && Frost(Or(a, Int(600))) == Frost(Or(Denulled(a), Int(600)))
            && Credentials(Or(o, STAR), c) == Credentials(Or(Denulled(o), STAR), Denulled(c)))
  {
    hide Freezable, Frost, Credentials, Denulled, Or;
  }

  // Entries the parser lets through.
  predicate CorsParses(d: Dict<Json>) {
    && StringTuple(Get(d, "allow_origins")).Ok? && OptionalBool(Get(d, "allow_credentials")).Ok?
    && StringTuple(Get(d, "allow_methods")).Ok? && StringTuple(Get(d, "allow_headers")).Ok?
    && OptionalString(Get(d, "allow_origin_regex")).Ok? && StringTuple(Get(d, "expose_headers")).Ok?
    && OptionalInt(Get(d, "max_age")).Ok?
  }

  // The same settings without the nulls.
  predicate NullsDropped(d: Dict<Json>, e: Dict<Json>) {
    && Get(e, "allow_origins") == Denulled(Get(d, "allow_origins"))
    && Get(e, "allow_credentials") == Denulled(Get(d, "allow_credentials"))
    && Get(e, "allow_methods") == Denulled(Get(d, "allow_methods"))
    && Get(e, "allow_headers") == Denulled(Get(d, "allow_headers"))
    && Get(e, "allow_origin_regex") == Denulled(Get(d, "allow_origin_regex"))
    && Get(e, "expose_headers") == Denulled(Get(d, "expose_headers"))
    && Get(e, "max_age") == Denulled(Get(d, "max_age"))
  }

  lemma CorsWithoutNulls(d: Dict<Json>, e: Dict<Json>)
    requires CorsParses(d) && NullsDropped(d, e)
    ensures CorsOf(d).Ok? && CorsOf(e).Ok? && (CorsOf(d) == CorsOf(e) <==> CorsNullsHarmless(d))
  {
    hide Get, CorsFrom, StringTuple, OptionalBool, OptionalInt, OptionalString, Denulled, Star;
    NullsInCors(Get(d, "allow_origins"), Get(d, "allow_credentials"), Get(d, "allow_methods"), Get(d, "allow_headers"),
                Get(d, "allow_origin_regex"), Get(d, "expose_headers"), Get(d, "max_age"));
  }

  lemma CorsParsed(d: Dict<Json>)
    requires ParseCors(Some(Obj(d))).Ok?
    ensures
      var r := ParseCors(Some(Obj(d)));
      && CorsParses(d) && r.value.Some?
      && r.value.value == Cors(
           StringTuple(Get(d, "allow_origins")).value, OptionalString(Get(d, "allow_origin_regex")).value,
           StringTuple(Get(d, "allow_methods")).value, StringTuple(Get(d, "allow_headers")).value,
           OptionalBool(Get(d, "allow_credentials")).value, StringTuple(Get(d, "expose_headers")).value,
           OptionalInt(Get(d, "max_age")).value)
  {
    hide Get, StringTuple, OptionalBool, OptionalInt, OptionalString, Allowed;
  }

  lemma CorsPrinted(d: Dict<Json>, c: Cors)
    requires ParseCors(Some(Obj(d))) == Ok(Some(c))
    ensures CorsParses(d) && NullsDropped(d, OmitNone(CorsSlots(c)))
  {
    CorsParsed(d);
    CorsLookups(c);
    hide ParseCors, Get, OmitNone, CorsSlots, StringTuple, OptionalBool, OptionalInt, OptionalString, StringsJson, StrJson,
      IntJson, BoolJson, Denulled, Allowed;
    StringsReturn(Get(d, "allow_origins"));
    StringsReturn(Get(d, "allow_methods"));
    StringsReturn(Get(d, "allow_headers"));
    StringsReturn(Get(d, "expose_headers"));
    ScalarsReturn(Get(d, "allow_credentials"), Get(d, "max_age"), Get(d, "allow_origin_regex"));
  }

  lemma NoCors()
    ensures CorsOf([]).Ok? && CorsNullsHarmless([])
  {
    NullsInCors(None, None, None, None, None, None, None);
    hide CorsFrom;
  }

  lemma CorsKept(raw: Option<Json>)
    requires ParseCors(raw).Ok?
    ensures
      var c := ParseCors(raw).value;
      var printed := if c.None? then None else Some(Obj(OmitNone(CorsSlots(c.value))));
      var x, y := CorsOf(Section(raw)), CorsOf(Section(printed));
      x.Ok? && y.Ok? && (x == y <==> CorsNullsHarmless(Section(raw)))
  {
    var c := ParseCors(raw).value;
    NoCors();
    if c.Some? {
      CorsPrinted(raw.value.fields, c.value);
      CorsWithoutNulls(raw.value.fields, OmitNone(CorsSlots(c.value)));
      hide ParseCors;
    }
    hide CorsOf, CorsNullsHarmless, OmitNone, CorsSlots, CorsParses, NullsDropped;
  }

  // ---- The custom app

  lemma {:induction false} LastColon(m: string, symbol: string)
    requires ':' !in symbol
    ensures RightSplit(m + ":" + symbol) == Some((m, symbol))
    decreases |symbol|
  {
    var s := m + ":" + symbol;
    if symbol == "" {
      assert s == m + ":" && s[..|s| - 1] == m;
    } else {
      var front := symbol[..|symbol| - 1];
      assert s[..|s| - 1] == m + ":" + front && s[|s| - 1] == symbol[|symbol| - 1];
      assert symbol[|symbol| - 1] in symbol;
      LastColon(m, front);
      assert symbol == front + [symbol[|symbol| - 1]];
    }
  }

  lemma {:induction false} SymbolHasNoColon(s: string)
    ensures RightSplit(s).Some? ==> ':' !in RightSplit(s).value.1
    ensures RightSplit(s).Some? ==> s == RightSplit(s).value.0 + ":" + RightSplit(s).value.1
  {
    if s != "" && s[|s| - 1] != ':' {
      SymbolHasNoColon(s[..|s| - 1]);
      assert s == s[..|s| - 1] + [s[|s| - 1]];
    } else if s != "" {
      assert s == s[..|s| - 1] + ":" + "";
    }
  }

  lemma SuffixCancels(a: string, b: string, tail: string)
    ensures a + tail == b + tail <==> a == b
  {
    if a + tail == b + tail {
      assert (a + tail)[..|a|] == a && (b + tail)[..|b|] == b;
    }
  }

  /** A path that already begins with the container root is taken as it stands on the host, but planned
      by where its file is. */
  predicate AppHarmless(app: Option<Json>, files: Files) {
    app.Some? && app.value.Str? && IsPathReference(app.value.s) && StartsWith(ModuleOf(app.value.s), AGENT) ==>
      files.relative(ModuleOf(app.value.s)) == Some(ModuleOf(app.value.s)[|AGENT|..])
  }

  lemma PathAppKept(s: string, files: Files)
    requires IsPathReference(s) && Planned(s, files).Ok? && PreloadedReference(Planned(s, files).value, true)
    ensures Logical(Some(Str(s)), Some(files)) == Logical(Some(Str(Planned(s, files).value)), None) <==>
            AppHarmless(Some(Str(s)), files)
  {
    var m, symbol, planned := ModuleOf(s), SymbolOf(s), Planned(s, files).value;
    var rel := files.relative(m).value;
    SymbolHasNoColon(s);
    LastColon(AGENT + rel, symbol);
    assert planned == AGENT + rel + ":" + symbol;
    assert symbol != "" && RightSplit(s).Some?;
    assert (AGENT + rel)[..|AGENT|] == AGENT && (AGENT + rel)[|AGENT|..] == rel;
    assert Logical(Some(Str(planned)), None) == Some(rel + ":" + symbol);
    hide RightSplit, IsPathReference, PreloadedReference;
    if StartsWith(m, AGENT) {
      SuffixCancels(m[|AGENT|..], rel, ":" + symbol);
      assert m[|AGENT|..] + ":" + symbol == m[|AGENT|..] + (":" + symbol) && rel + ":" + symbol == rel + (":" + symbol);
    }
  }

  lemma RootHasSlash(m: string)
    ensures StartsWith(m, AGENT) ==> '/' in m
  {
    if StartsWith(m, AGENT) { assert m[0] == AGENT[0]; }
  }

  lemma PlainAppKept(s: string, files: Files)
    requires !IsPathReference(s)
    ensures Logical(Some(Str(s)), Some(files)) == Logical(Some(Str(s)), None)
  {
    if RightSplit(s).Some? {
      RootHasSlash(RightSplit(s).value.0);
    }
  }

  lemma AppKept(app: Option<Json>, files: Files)
    requires OptionalString(app).Ok?
    requires PlannedOption(OptionalString(app).value, files).Ok?
    requires
      var p := PlannedOption(OptionalString(app).value, files).value;
      p.Some? ==> PreloadedReference(p.value, true)
    ensures
      var planned := PlannedOption(OptionalString(app).value, files).value;
      Logical(app, Some(files)) == Logical(StrJson(planned), None) <==> AppHarmless(app, files)
  {
    if app.Some? && app.value.Str? {
      if IsPathReference(app.value.s) { PathAppKept(app.value.s, files); } else { PlainAppKept(app.value.s, files); }
    }
    hide PreloadedReference, IsPathReference, RightSplit;
  }

  // ---- OpenAPI metadata

  function Frosted(v: Option<Json>): Option<Frozen> {
    if v.Some? && Freezable(v.value) then Some(Frost(v.value)) else None
  }

  lemma FrostedDenulled(v: Option<Json>)
    requires v.Some? ==> Freezable(v.value)
    ensures Frosted(v) == Frosted(Denulled(v)) <==> v != Some(Null)
  {}

  lemma {:induction false} OmittedFreezable(slots: seq<Slot>)
    requires forall i | 0 <= i < |slots| :: slots[i].1.Some? ==> Freezable(slots[i].1.value)
    ensures Freezable(Obj(OmitNone(slots)))
  {
    if slots != [] { OmittedFreezable(slots[1..]); }
  }

  lemma {:induction false} GetFrosted(fields: Dict<Json>, n: string)
    requires Freezable(Obj(fields))
    ensures Get(Frost(Obj(fields)).fields, n) == Frosted(Get(fields, n))
  {
    if fields != [] {
      GetFrosted(fields[1..], n);
      assert Frost(Obj(fields)).fields[1..] == Frost(Obj(fields[1..])).fields;
    }
  }

  lemma SchemesReturn(v: Option<Json>, clean: UrlCheck)
    requires ParseSchemes(v, clean).Ok?
    ensures v.Some? ==> Freezable(v.value)
    ensures
      var schemes := ParseSchemes(v, clean).value;
      (if schemes.None? then None else Some(SchemesJson(schemes.value))) == Denulled(v)
  {
    var schemes := ParseSchemes(v, clean).value;
    if schemes.Some? {
      var fields := v.value.fields;
      forall i | 0 <= i < |fields| ensures Thaw(Frost(fields[i].1)) == fields[i].1 {
        assert ValidScheme(fields[i].1, clean);
        ValidSchemeIsPlain(fields[i].1, clean);
        ThawFreezeForward(fields[i].1);
      }
      hide ValidScheme, Thaw, Frost;
      var printed := SchemesJson(schemes.value).fields;
      assert forall i | 0 <= i < |fields| :: schemes.value[i] == (fields[i].0, Frost(fields[i].1));
      assert forall i | 0 <= i < |fields| :: printed[i] == (fields[i].0, fields[i].1) == fields[i];
      assert printed == fields;
    }
  }

  lemma SecurityReturns(v: Option<Json>, schemes: seq<string>)
    requires ParseSecurity(v, schemes).Ok?
    ensures v.Some? ==> Freezable(v.value)
    ensures
      var security := ParseSecurity(v, schemes).value;
      (if security.None? then None else Some(SecurityJson(security.value))) == Denulled(v)
  {
    var security := ParseSecurity(v, schemes).value;
    if security.Some? {
      var items := v.value.items;
      forall i | 0 <= i < |items|
        ensures Freezable(items[i]) && RequirementJson(RequirementOf(items[i], schemes)) == items[i]
      {
        assert ValidRequirement(items[i], schemes);
        RequirementReturns(items[i], schemes);
      }
      hide ValidRequirement, RequirementJson, RequirementOf;
      assert forall i | 0 <= i < |items| :: security.value[i] == RequirementOf(items[i], schemes);
      assert SecurityJson(security.value).items == items;
    }
  }

  lemma RequirementReturns(v: Json, schemes: seq<string>)
    requires ValidRequirement(v, schemes)
    ensures Freezable(v) && RequirementJson(RequirementOf(v, schemes)) == v
  {
    var back := RequirementJson(RequirementOf(v, schemes)).fields;
    forall j | 0 <= j < |v.fields| ensures Freezable(v.fields[j].1) && back[j] == v.fields[j] {
      StringsReturn(Some(v.fields[j].1));
      assert back[j] == (v.fields[j].0, Strings(StringsOf(v.fields[j].1)));
      assert Strings(StringsOf(v.fields[j].1)).items == v.fields[j].1.items;
    }
    assert back == v.fields;
  }

  predicate OpenApiNullsHarmless(v: Option<Json>) {
    Get(Section(v), "securitySchemes") != Some(Null) && Get(Section(v), "security") != Some(Null)
  }

  function OpenApiJson(o: Option<OpenApi>): Option<Json> {
    if o.None? then None else Some(Obj(OmitNone(OpenApiSlots(o.value))))
  }

  lemma OpenApiLookups(fields: Dict<Json>, o: OpenApi, clean: UrlCheck)
    requires ParseOpenApi(Some(Obj(fields)), clean) == Ok(Some(o))
    ensures
      var printed := OmitNone(OpenApiSlots(o));
      && Allowed(printed, ["securitySchemes", "security"]) && Allowed(fields, ["securitySchemes", "security"])
      && (forall n :: n != "securitySchemes" && n != "security" ==> Get(fields, n) == None && Get(printed, n) == None)
      && Get(printed, "securitySchemes") == Denulled(Get(fields, "securitySchemes"))
      && Get(printed, "security") == Denulled(Get(fields, "security"))
      && (Has(fields, "securitySchemes") ==> Freezable(Get(fields, "securitySchemes").value))
      && (Has(fields, "security") ==> Freezable(Get(fields, "security").value))
      && Freezable(Obj(printed))
  {
    var names := ["securitySchemes", "security"];
    var slots := OpenApiSlots(o);
    SlotsFound(slots, names);
    assert slots[0].0 == "securitySchemes" && slots[1].0 == "security";
    SchemesReturn(Get(fields, "securitySchemes"), clean);
    SecurityReturns(Get(fields, "security"), SchemeNames(o.securitySchemes));
    OmittedFreezable(slots);
    hide ParseSchemes, ParseSecurity, Freezable, Denulled, SchemesJson, SecurityJson;
    var printed := OmitNone(slots);
    forall n | n != "securitySchemes" && n != "security" ensures Get(fields, n) == None && Get(printed, n) == None {
      GetIn(fields, n);
      GetIn(printed, n);
    }
  }

  lemma AllFreezable(fields: Dict<Json>, names: seq<string>)
    requires Unique(fields) && Allowed(fields, names)
    requires forall n <- names :: Has(fields, n) ==> Freezable(Get(fields, n).value)
    ensures Freezable(Obj(fields))
  {
    forall i | 0 <= i < |fields| ensures Freezable(fields[i].1) {
      GetAt(fields, i);
      assert fields[i].0 in names;
    }
  }

  /** The printed metadata is the host's exactly when neither part is an explicit null. */
  lemma OpenApiKept(raw: Option<Json>, clean: UrlCheck)
    requires ParseOpenApi(raw, clean).Ok? && Unique(Section(raw))
    ensures
      var printed := OpenApiJson(ParseOpenApi(raw, clean).value);
      && Metadata(raw).Ok? && Metadata(printed).Ok?
      && (SameMapping(Metadata(raw).value, Metadata(printed).value) <==> OpenApiNullsHarmless(raw))
  {
    var o := ParseOpenApi(raw, clean).value;
    if o.Some? {
      var fields, printed := raw.value.fields, OmitNone(OpenApiSlots(o.value));
      OpenApiLookups(fields, o.value, clean);
      hide ParseOpenApi;
      MetadataCompared(fields, printed);
    } else {
      hide ParseOpenApi;
    }
  }

  lemma MetadataCompared(fields: Dict<Json>, printed: Dict<Json>)
    requires Unique(fields) && Allowed(fields, ["securitySchemes", "security"])
    requires forall n :: n != "securitySchemes" && n != "security" ==> Get(fields, n) == None && Get(printed, n) == None
    requires Get(printed, "securitySchemes") == Denulled(Get(fields, "securitySchemes"))
    requires Get(printed, "security") == Denulled(Get(fields, "security"))
    requires Has(fields, "securitySchemes") ==> Freezable(Get(fields, "securitySchemes").value)
    requires Has(fields, "security") ==> Freezable(Get(fields, "security").value)
    requires Freezable(Obj(printed))
    ensures Metadata(Some(Obj(fields))).Ok? && Metadata(Some(Obj(printed))).Ok?
    ensures SameMapping(Metadata(Some(Obj(fields))).value, Metadata(Some(Obj(printed))).value) <==>
            OpenApiNullsHarmless(Some(Obj(fields)))
  {
    hide Freezable, Frost, Allowed, Frosted, Denulled, Unique;
    AllFreezable(fields, ["securitySchemes", "security"]);
    var a, b := Frost(Obj(fields)).fields, Frost(Obj(printed)).fields;
    EntryCompared(fields, printed, "securitySchemes");
    EntryCompared(fields, printed, "security");
    forall n | n != "securitySchemes" && n != "security" ensures Get(a, n) == Get(b, n) {
      GetFrosted(fields, n);
      GetFrosted(printed, n);
    }
    hide Get;
  }

  lemma EntryCompared(fields: Dict<Json>, printed: Dict<Json>, n: string)
    requires Freezable(Obj(fields)) && Freezable(Obj(printed)) && Get(printed, n) == Denulled(Get(fields, n))
    requires Has(fields, n) ==> Freezable(Get(fields, n).value)
    ensures Get(Frost(Obj(fields)).fields, n) == Get(Frost(Obj(printed)).fields, n) <==> Get(fields, n) != Some(Null)
  {
    hide Freezable, Frost, Frosted, Denulled;
    GetFrosted(fields, n);
    GetFrosted(printed, n);
    FrostedDenulled(Get(fields, n));
    hide Get;
  }

  // ---- The whole policy

  // What planning an http section takes from its entries.
  lemma HttpParts(raw: Option<Json>, files: Files)
    requires PlanHttp(raw, files).Ok? && PlanHttp(raw, files).value.Some?
    ensures
      var h, d := PlanHttp(raw, files).value.value, Section(raw);
      && ParseCors(Get(d, "cors")) == Ok(h.cors) && OptionalString(Get(d, "app")).Ok?
      && PlannedOption(OptionalString(Get(d, "app")).value, files) == Ok(h.app)
      && OptionalBool(Get(d, "disable_mcp")) == Ok(h.disableMcp) && OptionalBool(Get(d, "disable_a2a")) == Ok(h.disableA2a)
  {
    hide ParseCors, OptionalString, PlannedOption, OptionalBool, Get, Allowed;
  }

  lemma SwitchKept(v: Option<Json>)
    requires OptionalBool(v).Ok?
    ensures v == Some(Bool(true)) <==> BoolJson(OptionalBool(v).value) == Some(Bool(true))
  {}

  // Two http sections that a policy cannot tell apart, but for the app and the cors settings.
  ghost predicate SameSwitches(d: Dict<Json>, e: Dict<Json>) {
    && (Get(d, "disable_mcp") == Some(Bool(true)) <==> Get(e, "disable_mcp") == Some(Bool(true)))
    && (Get(d, "disable_a2a") == Some(Bool(true)) <==> Get(e, "disable_a2a") == Some(Bool(true)))
  }

  lemma HttpKept(raw: Option<Json>, files: Files)
    requires PlanHttp(raw, files).Ok? && AppPreloaded(PlanHttp(raw, files).value)
    ensures
      var d, printed := Section(raw), Section(HttpJson(PlanHttp(raw, files).value));
      var x, y := CorsOf(Section(Get(d, "cors"))), CorsOf(Section(Get(printed, "cors")));
      && SameSwitches(d, printed) && x.Ok? && y.Ok? && (x == y <==> CorsNullsHarmless(Section(Get(d, "cors"))))
      && (Logical(Get(d, "app"), Some(files)) == Logical(Get(printed, "app"), None) <==> AppHarmless(Get(d, "app"), files))
  {
    var h, d := PlanHttp(raw, files).value, Section(raw);
    if h.None? {
      NoHttp(raw, files);
    } else {
      HttpParts(raw, files);
      HttpLookups(h.value);
      CorsKept(Get(d, "cors"));
      AppKept(Get(d, "app"), files);
      SwitchKept(Get(d, "disable_mcp"));
      SwitchKept(Get(d, "disable_a2a"));
      assert Section(HttpJson(h)) == OmitNone(HttpSlots(h.value));
      hide PlanHttp, CorsOf, CorsNullsHarmless, ParseCors, Get, OmitNone, HttpSlots, CorsSlots, Allowed, PreloadedReference,
        Logical, AppHarmless, OptionalString, OptionalBool, BoolJson, StrJson, PlannedOption, Section, HttpJson;
    }
  }

  lemma NoHttp(raw: Option<Json>, files: Files)
    requires PlanHttp(raw, files) == Ok(None)
    ensures Section(raw) == [] && CorsOf([]).Ok? && CorsNullsHarmless([]) && Section(Get<Json>([], "cors")) == []
    ensures Get<Json>([], "app") == None
  {
    NothingParses();
    CorsKept(None);
    hide CorsFrom, ParseCors, CorsNullsHarmless;
  }

  lemma AuthKept(raw: Option<Json>, clean: UrlCheck)
    requires ParseAuth(raw, clean).Ok? && Unique(Section(Get(Section(raw), "openapi")))
    ensures
      var d, printed := Section(raw), Section(AuthJson(ParseAuth(raw, clean).value));
      var x, y := Get(d, "openapi"), Get(printed, "openapi");
      && (Get(d, "disable_studio_auth") == Some(Bool(true)) <==> Get(printed, "disable_studio_auth") == Some(Bool(true)))
      && Metadata(x).Ok? && Metadata(y).Ok?
      && (SameMapping(Metadata(x).value, Metadata(y).value) <==> OpenApiNullsHarmless(x))
  {
    var a, d := ParseAuth(raw, clean).value, Section(raw);
    if a.Some? {
      AuthSlotLookups(a.value);
      OpenApiKept(Get(d, "openapi"), clean);
      SwitchKept(Get(d, "disable_studio_auth"));
      hide ParseOpenApi, OpenApiSlots, OmitNone, AuthSlots, Get, Allowed, SameMapping, Metadata, OpenApiNullsHarmless, Freezable,
        Unique, OptionalBool, BoolJson;
    }
  }

  /** What keeps the effective policy: no explicit null that the manifest drops to another meaning, and
      no app path that already begins with the container root unless it means the same file there. */
  predicate Harmless(config: Dict<Json>, files: Files) {
    var http, auth := Section(Get(config, "http")), Section(Get(config, "auth"));
    && CorsNullsHarmless(Section(Get(http, "cors"))) && AppHarmless(Get(http, "app"), files)
    && OpenApiNullsHarmless(Get(auth, "openapi"))
  }

  lemma PoliciesCompared(http: Dict<Json>, auth: Dict<Json>, http': Dict<Json>, auth': Dict<Json>, files: Files)
    requires SameSwitches(http, http')
    requires CorsOf(Section(Get(http, "cors"))).Ok? && CorsOf(Section(Get(http', "cors"))).Ok?
    requires Metadata(Get(auth, "openapi")).Ok? && Metadata(Get(auth', "openapi")).Ok?
    requires Get(auth, "disable_studio_auth") == Some(Bool(true)) <==> Get(auth', "disable_studio_auth") == Some(Bool(true))
    ensures
      var x, y := PolicyOf(http, auth, Some(files)), PolicyOf(http', auth', None);
      && x.Ok? && y.Ok?
      && (SamePolicy(x.value, y.value) <==>
            && CorsOf(Section(Get(http, "cors"))) == CorsOf(Section(Get(http', "cors")))
            && Logical(Get(http, "app"), Some(files)) == Logical(Get(http', "app"), None)
            && SameMapping(Metadata(Get(auth, "openapi")).value, Metadata(Get(auth', "openapi")).value))
  {
    hide CorsOf, Section, Get, Metadata, Logical, SameMapping;
  }

  /** Whenever planning succeeds, both policies can be read, and the manifest's is the host's exactly
      when the config is harmless in that sense. */
  lemma PolicyPreservedExactly(config: Dict<Json>, files: Files, clean: UrlCheck, runtimeRoots: Option<seq<string>>)
    requires Plan(config, files, clean, runtimeRoots).Ok?
    requires Unique(Section(Get(Section(Get(config, "auth")), "openapi")))
    ensures
      var host := HostPolicy(config, files);
      var manifest := ManifestPolicy(Plan(config, files, clean, runtimeRoots).value);
      && host.Ok? && manifest.Ok?
      && (SamePolicy(host.value, manifest.value) <==> Harmless(config, files))
  {
    hide *;
    var m := Plan(config, files, clean, runtimeRoots).value;
    BuiltSections(config, files, clean, runtimeRoots);
    HttpKept(Get(config, "http"), files);
    AuthKept(Get(config, "auth"), clean);
    var http, auth := Section(Get(config, "http")), Section(Get(config, "auth"));
    PoliciesCompared(http, auth, Section(HttpJson(m.http)), Section(AuthJson(m.auth)), files);
    PoliciesAre(config, files, m);
    HarmlessIs(config, files);
  }

  lemma PoliciesAre(config: Dict<Json>, files: Files, m: Manifest)
    ensures HostPolicy(config, files) ==
            PolicyOf(Section(Get(config, "http")), Section(Get(config, "auth")), Some(files))
    ensures ManifestPolicy(m) == PolicyOf(Section(HttpJson(m.http)), Section(AuthJson(m.auth)), None)
  {
    ManifestLookups(m);
    hide PolicyOf, Section, Get, OmitNone, ManifestSlots, HttpJson, AuthJson;
  }

  lemma HarmlessIs(config: Dict<Json>, files: Files)
    ensures
      var http, auth := Section(Get(config, "http")), Section(Get(config, "auth"));
      Harmless(config, files) <==>
        && CorsNullsHarmless(Section(Get(http, "cors"))) && AppHarmless(Get(http, "app"), files)
        && OpenApiNullsHarmless(Get(auth, "openapi"))
  {
    hide CorsNullsHarmless, AppHarmless, OpenApiNullsHarmless, Section, Get;
  }

  lemma BuiltSections(config: Dict<Json>, files: Files, clean: UrlCheck, runtimeRoots: Option<seq<string>>)
    requires Plan(config, files, clean, runtimeRoots).Ok?
    ensures
      var m := Plan(config, files, clean, runtimeRoots).value;
      && PlanHttp(Get(config, "http"), files) == Ok(m.http) && AppPreloaded(m.http)
      && ParseAuth(Get(config, "auth"), clean) == Ok(m.auth)
  {
    PlanKeepsManifest(config, files, clean, runtimeRoots);
    hide Plan, PlanGraphs, PlanStore, PlanHttp, ParseAuth, Get, AppPreloaded, AcceptableOpenApi, AcceptableStore,
      GraphPreloaded, ContainerPath;
  }
}
