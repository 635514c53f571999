/** Which manifests a parser lets through, written out field by field. */
module ManifestAcceptance {
  import opened Wrappers
  import opened OrderedDict
  import opened JsonValues
  import opened Manifest
  import opened ManifestRoundTrip
  import opened ContainerPaths

  // ---- References

  // A reference whose module is written as a path.
  ghost predicate IsPath(m: string) {
    (exists stem: string :: m == stem + ".py") || (m != "" && m[0] == '.') || '/' in m || '\\' in m
  }

  // The module is a normalized path strictly below the container root, or identifiers with dots between them.
  ghost predicate CopiedAs(m: string, symbol: string) {
    && ':' !in symbol && symbol != ""
    && if IsPath(m) then '\\' !in m && "/deps/agent/" <= m && Normalized(m)
       else Identifier(symbol) && forall p | HasPart(m, '.', p) :: Identifier(p)
  }

  /** A reference to something copied into the container: a module, a colon and a symbol of it. */
  ghost predicate Copied(reference: string) {
    exists m: string, symbol: string :: reference == m + ":" + symbol && CopiedAs(m, symbol)
  }

  lemma {:induction false} NoColonNoSplit(s: string)
    ensures RightSplit(s).None? <==> ':' !in s
    ensures RightSplit(s).Some? ==> s == RightSplit(s).value.0 + ":" + RightSplit(s).value.1 && ':' !in RightSplit(s).value.1
  {
    if s != "" {
      assert s == s[..|s| - 1] + [s[|s| - 1]];
      if s[|s| - 1] != ':' { NoColonNoSplit(s[..|s| - 1]); }
    }
  }

  lemma IsPathExactly(m: string, symbol: string)
    requires ':' !in symbol
    ensures IsPathReference(m + ":" + symbol) <==> IsPath(m)
  {
    ModuleIs(m, symbol);
    assert EndsWith(m, ".py") <==> exists stem: string :: m == stem + ".py" by {
      if EndsWith(m, ".py") { assert m == m[..|m| - 3] + ".py"; }
    }
    hide RightSplit, ModuleOf;
  }

  // A path without a slash is refused; so is one with a backslash.
  lemma PathNeedsSlash(m: string, symbol: string)
    requires ':' !in symbol && IsPath(m) && '/' !in m
    ensures !PreloadedReference(m + ":" + symbol, false) && !("/deps/agent/" <= m)
  {
    ModuleIs(m, symbol);
    IsPathExactly(m, symbol);
    assert "/deps/agent/"[0] == '/';
    SplitFirst(m, "", '/');
    hide RightSplit, IsPathReference, Split;
  }

  lemma CopiedParts(m: string, symbol: string)
    requires ':' !in symbol
    ensures PreloadedReference(m + ":" + symbol, false) <==> CopiedAs(m, symbol)
  {
    IsPathExactly(m, symbol);
    if !IsPath(m) {
      DottedReferenceExactly(m, symbol, false);
      assert !Identifier("");
    } else if '/' in m {
      PathReferenceExactly(m, symbol, false);
    } else {
      PathNeedsSlash(m, symbol);
    }
    hide PreloadedReference, IsPathReference, IsPath, HasPart, Normalized;
  }

  /** The parser takes exactly the references that name something copied. */
  lemma ReferenceExactly(reference: string)
    ensures PreloadedReference(reference, false) <==> Copied(reference)
    ensures PreloadedReference(reference, true) <==> reference == "" || Copied(reference)
  {
    EmptyAllowed(reference);
    NoColonNoSplit(reference);
    if PreloadedReference(reference, false) {
      var parts := RightSplit(reference).value;
      CopiedParts(parts.0, parts.1);
    }
    if Copied(reference) {
      var m: string, symbol: string :| reference == m + ":" + symbol && CopiedAs(m, symbol);
      assert ':' !in symbol;
      CopiedParts(m, symbol);
    }
    hide PreloadedReference, CopiedAs, RightSplit;
  }

  lemma EmptyAllowed(reference: string)
    ensures PreloadedReference(reference, true) <==> reference == "" || PreloadedReference(reference, false)
  {}

  // ---- Security schemes

  // An entry that is there, and the entries there may be.
  predicate Present(d: Dict<Json>, name: string) { Get(d, name).Some? }

  predicate Within(d: Dict<Json>, names: set<string>) { forall i | 0 <= i < |d| :: d[i].0 in names }

  predicate CleanUrl(v: Json, clean: UrlCheck) { v.Str? && clean(v.s) }

  // One flow: its URLs are clean where they are not null, and its scopes are texts.
  predicate FlowIs(v: Json, clean: UrlCheck, needsAuthorization: bool, needsToken: bool) {
    && v.Obj?
    && Within(v.fields, {"tokenUrl", "refreshUrl", "scopes"} + if needsAuthorization then {"authorizationUrl"} else {})
    && (needsAuthorization ==> Present(v.fields, "authorizationUrl"))
    && (needsToken ==> Present(v.fields, "tokenUrl"))
    && Present(v.fields, "scopes")
    && (forall i | 0 <= i < |v.fields| && v.fields[i].0 == "scopes" ::
          v.fields[i].1.Obj? && forall k | 0 <= k < |v.fields[i].1.fields| :: v.fields[i].1.fields[k].1.Str?)
    && (forall i | 0 <= i < |v.fields| && v.fields[i].0 != "scopes" ::
          v.fields[i].1.Null? || CleanUrl(v.fields[i].1, clean))
  }

  predicate FlowsAre(v: Json, clean: UrlCheck) {
    && v.Obj? && v.fields != [] && Within(v.fields, {"implicit", "password", "clientCredentials", "authorizationCode"})
    && forall i | 0 <= i < |v.fields| ::
         var name := v.fields[i].0;
         FlowIs(v.fields[i].1, clean, name == "implicit" || name == "authorizationCode", name != "implicit")
  }

  predicate AllTexts(d: Dict<Json>) { forall i | 0 <= i < |d| :: d[i].1.Str? }

  // All entries are texts, but those of one name.
  predicate TextsBut(d: Dict<Json>, name: string) { forall i | 0 <= i < |d| && d[i].0 != name :: d[i].1.Str? }

  /** A security scheme, by its type. */
  predicate SchemeMeans(d: Dict<Json>, clean: UrlCheck) {
    match Get<Json>(d, "type")
    case Some(Str("apiKey")) =>
      && Within(d, {"type", "description", "name", "in"}) && AllTexts(d) && Present(d, "name")
      && (Get(d, "in") == Some(Str("query")) || Get(d, "in") == Some(Str("header")) || Get(d, "in") == Some(Str("cookie")))
    case Some(Str("http")) =>
      Within(d, {"type", "description", "scheme", "bearerFormat"}) && AllTexts(d) && Present(d, "scheme")
    case Some(Str("oauth2")) =>
      && Within(d, {"type", "description", "flows"}) && TextsBut(d, "flows") && Present(d, "flows")
      && (forall i | 0 <= i < |d| && d[i].0 == "flows" :: FlowsAre(d[i].1, clean))
    case Some(Str("openIdConnect")) =>
      && Within(d, {"type", "description", "openIdConnectUrl"}) && AllTexts(d) && Present(d, "openIdConnectUrl")
      && (forall i | 0 <= i < |d| && d[i].0 == "openIdConnectUrl" :: CleanUrl(d[i].1, clean))
    case _ => false
  }

  lemma AllowedIs(d: Dict<Json>, names: seq<string>, allowed: set<string>)
    requires forall x :: x in names <==> x in allowed
    ensures Allowed(d, names) <==> Within(d, allowed)
  {}

  lemma HasThese(d: Dict<Json>, a: string, b: string, c: string)
    ensures HasAll(d, [a]) <==> Present(d, a)
    ensures HasAll(d, [a, b]) <==> Present(d, a) && Present(d, b)
    ensures HasAll(d, [a, b, c]) <==> Present(d, a) && Present(d, b) && Present(d, c)
  {
    hide Get;
    assert a in [a] && a in [a, b] && b in [a, b] && a in [a, b, c] && b in [a, b, c] && c in [a, b, c];
  }

  // Which flows need an authorization URL, and which a token URL.
  lemma FlowNeeds(name: string, d: Dict<Json>)
    requires name in ["implicit", "password", "clientCredentials", "authorizationCode"]
    ensures
      HasAll(d, if name == "implicit" then ["authorizationUrl", "scopes"]
                else if name == "authorizationCode" then ["authorizationUrl", "tokenUrl", "scopes"]
                else ["tokenUrl", "scopes"]) <==>
      && (name == "implicit" || name == "authorizationCode" ==> Present(d, "authorizationUrl"))
      && (name != "implicit" ==> Present(d, "tokenUrl")) && Present(d, "scopes")
  {
    HasThese(d, "authorizationUrl", "scopes", "");
    HasThese(d, "authorizationUrl", "tokenUrl", "scopes");
    HasThese(d, "tokenUrl", "scopes", "");
    hide Get, HasAll, Present;
  }

  lemma FlowExactly(name: string, v: Json, clean: UrlCheck)
    requires name in ["implicit", "password", "clientCredentials", "authorizationCode"]
    ensures ValidFlow(name, v, clean) <==>
            FlowIs(v, clean, name == "implicit" || name == "authorizationCode", name != "implicit")
  {
    if v.Obj? {
      var asks := name == "implicit" || name == "authorizationCode";
      FlowNeeds(name, v.fields);
      AllowedIs(v.fields, ["tokenUrl", "refreshUrl", "scopes"] + (if asks then ["authorizationUrl"] else []),
                {"tokenUrl", "refreshUrl", "scopes"} + if asks then {"authorizationUrl"} else {});
      hide Get, HasAll, Present, Within, Allowed;
      FlowFields(v.fields, clean);
    }
  }

  lemma FlowFields(d: Dict<Json>, clean: UrlCheck)
    ensures
      (forall i | 0 <= i < |d| :: ValidFlowField(d[i].0, d[i].1, clean)) <==>
      && (forall i | 0 <= i < |d| && d[i].0 == "scopes" ::
            d[i].1.Obj? && forall k | 0 <= k < |d[i].1.fields| :: d[i].1.fields[k].1.Str?)
      && (forall i | 0 <= i < |d| && d[i].0 != "scopes" :: d[i].1.Null? || CleanUrl(d[i].1, clean))
  {}

  lemma FlowsExactly(v: Json, clean: UrlCheck)
    ensures ValidFlows(v, clean) <==> FlowsAre(v, clean)
  {
    if v.Obj? {
      var d := v.fields;
      forall i | 0 <= i < |d| && d[i].0 in ["implicit", "password", "clientCredentials", "authorizationCode"]
        ensures ValidFlow(d[i].0, d[i].1, clean) <==>
                FlowIs(d[i].1, clean, d[i].0 == "implicit" || d[i].0 == "authorizationCode", d[i].0 != "implicit")
      {
        FlowExactly(d[i].0, d[i].1, clean);
      }
      forall i | 0 <= i < |d| && ValidFlow(d[i].0, d[i].1, clean)
        ensures d[i].0 in ["implicit", "password", "clientCredentials", "authorizationCode"]
      {}
      hide ValidFlow, FlowIs;
    }
  }

  // Of the names a scheme may have, one ends in `Url`.
  lemma UrlNames(name: string)
    requires name in {"type", "description", "name", "in", "scheme", "bearerFormat", "openIdConnectUrl"}
    ensures EndsWith(name, "Url") <==> name == "openIdConnectUrl"
  {
    if name != "openIdConnectUrl" {
      assert name[|name| - 1] != 'l';
      assert |name| >= 3 ==> name[|name| - 3..][2] == name[|name| - 1];
    }
  }

  lemma PlainFields(d: Dict<Json>, clean: UrlCheck)
    requires Within(d, {"type", "description", "name", "in", "scheme", "bearerFormat"})
    ensures (forall i | 0 <= i < |d| :: ValidSchemeField(d[i].0, d[i].1, clean)) <==> AllTexts(d)
  {
    forall i | 0 <= i < |d| ensures ValidSchemeField(d[i].0, d[i].1, clean) <==> d[i].1.Str? { UrlNames(d[i].0); }
    hide ValidSchemeField;
  }

  lemma FlowsField(d: Dict<Json>, clean: UrlCheck)
    requires Within(d, {"type", "description", "flows"})
    ensures
      (forall i | 0 <= i < |d| :: ValidSchemeField(d[i].0, d[i].1, clean)) <==>
      TextsBut(d, "flows") && forall i | 0 <= i < |d| && d[i].0 == "flows" :: FlowsAre(d[i].1, clean)
  {
    forall i | 0 <= i < |d|
      ensures ValidSchemeField(d[i].0, d[i].1, clean) <==>
              if d[i].0 == "flows" then FlowsAre(d[i].1, clean) else d[i].1.Str?
    {
      FlowsExactly(d[i].1, clean);
      if d[i].0 != "flows" { UrlNames(d[i].0); }
      hide FlowsAre, ValidFlows;
    }
    hide ValidSchemeField, FlowsAre;
  }

  lemma UrlField(d: Dict<Json>, clean: UrlCheck)
    requires Within(d, {"type", "description", "openIdConnectUrl"})
    ensures
      (forall i | 0 <= i < |d| :: ValidSchemeField(d[i].0, d[i].1, clean)) <==>
      AllTexts(d) && forall i | 0 <= i < |d| && d[i].0 == "openIdConnectUrl" :: CleanUrl(d[i].1, clean)
  {
    forall i | 0 <= i < |d|
      ensures ValidSchemeField(d[i].0, d[i].1, clean) <==>
              d[i].1.Str? && (d[i].0 == "openIdConnectUrl" ==> CleanUrl(d[i].1, clean))
    {
      UrlNames(d[i].0);
    }
    hide ValidSchemeField, CleanUrl;
  }

  lemma TypesDiffer()
    ensures "apiKey" != "http" && "apiKey" != "oauth2" && "http" != "oauth2"
    ensures "openIdConnect" != "apiKey" && "openIdConnect" != "http" && "openIdConnect" != "oauth2"
  {
    Differ("apiKey", "oauth2", 0);
  }

  /** The parser takes exactly these schemes. */
  lemma SchemeExactly(v: Json, clean: UrlCheck)
    ensures ValidScheme(v, clean) <==> v.Obj? && SchemeMeans(v.fields, clean)
  {
    if v.Obj? {
      var d := v.fields;
      TypesDiffer();
      match Get<Json>(d, "type")
      case Some(Str(t)) =>
        if t == "apiKey" { KeyScheme(d, clean); }
        else if t == "http" { HttpScheme(d, clean); }
        else if t == "oauth2" { OauthScheme(d, clean); }
        else if t == "openIdConnect" { OpenIdScheme(d, clean); }
      case _ =>
    }
    hide Get, Within, AllTexts, TextsBut, FlowsAre, CleanUrl, Present, ValidSchemeField, HasAll, Allowed;
  }

  lemma KeyScheme(d: Dict<Json>, clean: UrlCheck)
    requires Get(d, "type") == Some(Str("apiKey"))
    ensures ValidScheme(Obj(d), clean) <==> SchemeMeans(d, clean)
  {
    AllowedIs(d, ["type", "description", "name", "in"], {"type", "description", "name", "in"});
    HasThese(d, "name", "in", "");
    if Within(d, {"type", "description", "name", "in"}) { PlainFields(d, clean); }
    hide Get, Within, AllTexts, ValidSchemeField, HasAll, Allowed;
  }

  lemma HttpScheme(d: Dict<Json>, clean: UrlCheck)
    requires Get(d, "type") == Some(Str("http"))
    ensures ValidScheme(Obj(d), clean) <==> SchemeMeans(d, clean)
  {
    TypesDiffer();
    AllowedIs(d, ["type", "description", "scheme", "bearerFormat"], {"type", "description", "scheme", "bearerFormat"});
    HasThese(d, "scheme", "", "");
    if Within(d, {"type", "description", "scheme", "bearerFormat"}) { PlainFields(d, clean); }
    hide Get, Within, AllTexts, ValidSchemeField, HasAll, Allowed, Present;
  }

  lemma OauthScheme(d: Dict<Json>, clean: UrlCheck)
    requires Get(d, "type") == Some(Str("oauth2"))
    ensures ValidScheme(Obj(d), clean) <==> SchemeMeans(d, clean)
  {
    TypesDiffer();
    AllowedIs(d, ["type", "description", "flows"], {"type", "description", "flows"});
    HasThese(d, "flows", "", "");
    if Within(d, {"type", "description", "flows"}) { FlowsField(d, clean); }
    hide Get, Within, TextsBut, ValidSchemeField, HasAll, Allowed, Present, FlowsAre;
  }

  lemma OpenIdScheme(d: Dict<Json>, clean: UrlCheck)
    requires Get(d, "type") == Some(Str("openIdConnect"))
    ensures ValidScheme(Obj(d), clean) <==> SchemeMeans(d, clean)
  {
    TypesDiffer();
    AllowedIs(d, ["type", "description", "openIdConnectUrl"], {"type", "description", "openIdConnectUrl"});
    HasThese(d, "openIdConnectUrl", "", "");
    if Within(d, {"type", "description", "openIdConnectUrl"}) { UrlField(d, clean); }
    hide Get, Within, AllTexts, ValidSchemeField, HasAll, Allowed, Present, CleanUrl;
  }

  // ---- Manifests

  // A graph's references are those to its entry point and to its two hooks.
  ghost predicate GraphCopied(g: Graph) {
    match g
    case Reference(r) => Copied(r)
    case Structured(r, prepare, extract, _, _, _, _) =>
      Copied(r) && (prepare.Some? ==> Copied(prepare.value)) && (extract.Some? ==> Copied(extract.value))
  }

  // The store's embedding function, if it is written as a path.
  ghost predicate EmbedCopied(m: Manifest) {
    m.store.Some? && m.store.value.index.Some? && m.store.value.index.value.embed.Some? ==>
      var embed := m.store.value.index.value.embed.value;
      IsPathReference(embed) ==> Copied(embed)
  }

  // Security metadata: each scheme valid for its type, each requirement of schemes that are there.
  ghost predicate SecurityGood(o: OpenApi, clean: UrlCheck) {
    && (o.securitySchemes.Some? ==>
          forall i | 0 <= i < |o.securitySchemes.value| ::
            var v := Thaw(o.securitySchemes.value[i].1); v.Obj? && SchemeMeans(v.fields, clean))
    && (o.security.Some? ==>
          forall i | 0 <= i < |o.security.value| :: forall j | 0 <= j < |o.security.value[i]| ::
            Named(o.securitySchemes, o.security.value[i][j].0))
  }

  ghost predicate Named(schemes: Option<Dict<Frozen>>, name: string) {
    schemes.Some? && exists k | 0 <= k < |schemes.value| :: schemes.value[k].0 == name
  }

  /** The manifests that a parser returns, and that survive printing and parsing: everything they name has
      been copied, and their security metadata are complete. */
  lemma AcceptableExactly(m: Manifest, clean: UrlCheck)
    ensures Acceptable(m, clean) <==>
      && m.graphs != [] && (forall i | 0 <= i < |m.graphs| :: m.graphs[i].0 != "" && GraphCopied(m.graphs[i].1))
      && (forall i | 0 <= i < |m.dependencies| ::
            (m.dependencies[i] == "/deps/agent" || "/deps/agent/" <= m.dependencies[i]) && Normalized(m.dependencies[i]))
      && EmbedCopied(m)
      && (m.http.Some? && m.http.value.app.Some? ==> m.http.value.app.value == "" || Copied(m.http.value.app.value))
      && (m.auth.Some? && m.auth.value.openapi.Some? ==> SecurityGood(m.auth.value.openapi.value, clean))
  {
    forall i | 0 <= i < |m.graphs| ensures GraphPreloaded(m.graphs[i].1) <==> GraphCopied(m.graphs[i].1) {
      GraphExactly(m.graphs[i].1);
    }
    forall i | 0 <= i < |m.dependencies|
      ensures ContainerPath(m.dependencies[i]) <==>
        (m.dependencies[i] == "/deps/agent" || "/deps/agent/" <= m.dependencies[i]) && Normalized(m.dependencies[i])
    {
      ContainerPathExactly(m.dependencies[i]);
    }
    EmbedExactly(m);
    if m.http.Some? && m.http.value.app.Some? { ReferenceExactly(m.http.value.app.value); }
    if m.auth.Some? && m.auth.value.openapi.Some? { SecurityExactly(m.auth.value.openapi.value, clean); }
    hide GraphPreloaded, GraphCopied, ContainerPath, Normalized, Copied, PreloadedReference, SecurityGood, AcceptableStore,
      EmbedCopied;
    NothingToAccept(clean, []);
    hide AcceptableOpenApi;
  }

  lemma GraphExactly(g: Graph)
    ensures GraphPreloaded(g) <==> GraphCopied(g)
  {
    match g
    case Reference(r) => ReferenceExactly(r);
    case Structured(r, prepare, extract, _, _, _, _) =>
      ReferenceExactly(r);
      if prepare.Some? { ReferenceExactly(prepare.value); }
      if extract.Some? { ReferenceExactly(extract.value); }
      hide PreloadedReference, Copied;
  }

  lemma EmbedExactly(m: Manifest)
    ensures (m.store.Some? ==> AcceptableStore(m.store.value)) <==> EmbedCopied(m)
  {
    if m.store.Some? && m.store.value.index.Some? && m.store.value.index.value.embed.Some? {
      ReferenceExactly(m.store.value.index.value.embed.value);
    }
    hide PreloadedReference, Copied, IsPathReference;
  }

  lemma SchemesExactly(schemes: Dict<Frozen>, clean: UrlCheck)
    ensures AcceptableSchemes(Some(schemes), clean) <==>
            forall i | 0 <= i < |schemes| ::
              var v := Thaw(schemes[i].1); v.Obj? && SchemeMeans(v.fields, clean)
  {
    forall i | 0 <= i < |schemes|
      ensures var v := Thaw(schemes[i].1); ValidScheme(v, clean) <==> v.Obj? && SchemeMeans(v.fields, clean)
    {
      SchemeExactly(Thaw(schemes[i].1), clean);
    }
    hide ValidScheme, SchemeMeans, Thaw;
  }

  lemma SecurityExactly(o: OpenApi, clean: UrlCheck)
    ensures AcceptableOpenApi(Some(o), clean) <==> SecurityGood(o, clean)
  {
    if o.securitySchemes.Some? { SchemesExactly(o.securitySchemes.value, clean); }
    NothingToAccept(clean, []);
    forall name: string ensures name in SchemeNames(o.securitySchemes) <==> Named(o.securitySchemes, name) {
      if o.securitySchemes.Some? { NameIn(o.securitySchemes.value, name); }
    }
    hide SchemeNames, Named, AcceptableSchemes, SchemeMeans, Thaw;
  }

  lemma NameIn(schemes: Dict<Frozen>, name: string)
    ensures name in Names(schemes) <==> exists k | 0 <= k < |schemes| :: schemes[k].0 == name
  {
    assert forall k | 0 <= k < |schemes| :: Names(schemes)[k] == schemes[k].0;
  }
}
