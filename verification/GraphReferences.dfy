/** The loop that rewrites a graph's references one after the other, and the loops around it. */
module GraphReferences {
  import opened Wrappers
  import opened OrderedDict
  import opened JsonValues
  import opened Manifest
  import opened RuntimePolicy

  function Rewritten(reference: string, files: Files): string {
    match Planned(reference, files) case Ok(s) => s case Err(_) => reference
  }

  function RewrittenOption(reference: Option<string>, files: Files): Option<string> {
    if reference.None? then None else Some(Rewritten(reference.value, files))
  }

  /** Every reference rewritten for itself, each in its own field. */
  function AllRewritten(g: Graph, files: Files): Graph {
    match g
    case Reference(r) => Reference(Rewritten(r, files))
    case Structured(r, prepare, extract, _, _, _, _) =>
      g.(graph := Rewritten(r, files), prepareInput := RewrittenOption(prepare, files),
         extractOutput := RewrittenOption(extract, files))
  }

  // Reads like a reference already rewritten for an earlier field, and is not its own rewriting.
  predicate Collides(reference: Option<string>, rewritten: seq<string>, files: Files) {
    && reference.Some? && IsPathReference(reference.value)
    && reference.value in rewritten && Rewritten(reference.value, files) != reference.value
  }

  predicate Collision(g: Graph, files: Files) {
    g.Structured? &&
    var first := Rewritten(g.graph, files);
    || Collides(g.prepareInput, [first], files)
    || Collides(g.extractOutput,
                [first] + (if g.prepareInput.Some? then [Rewritten(g.prepareInput.value, files)] else []), files)
  }

  // One turn of the loop, for a reference that may be a path.
  function Turn(g: Graph, reference: string, files: Files): Graph {
    if IsPathReference(reference) then Replaced(g, reference, Rewritten(reference, files)) else g
  }

  lemma TurnStep(g: Graph, references: seq<string>, files: Files)
    requires references != [] && PlanReferences(g, references, files).Ok?
    ensures
      var next := Turn(g, references[0], files);
      PlanReferences(next, references[1..], files) == PlanReferences(g, references, files)
  {
    hide IsPathReference;
  }

  lemma PlainRewritten(reference: string, files: Files)
    ensures !IsPathReference(reference) ==> Rewritten(reference, files) == reference
  {
    hide IsPathReference;
  }

  function Turns(g: Graph, references: seq<string>, files: Files): Graph
    decreases |references|
  {
    if references == [] then g else Turns(Turn(g, references[0], files), references[1..], files)
  }

  lemma {:induction false} PlannedIsTurns(g: Graph, references: seq<string>, files: Files)
    requires PlanReferences(g, references, files).Ok?
    ensures PlanReferences(g, references, files).value == Turns(g, references, files)
    decreases |references|
  {
    if references != [] {
      TurnStep(g, references, files);
      PlannedIsTurns(Turn(g, references[0], files), references[1..], files);
      hide Turn;
    }
  }

  /** When the graph can be planned, the loop rewrites each field's reference in that field exactly when
      no hook collides with a reference rewritten before it. */
  lemma RewrittenUnlessCollision(g: Graph, files: Files)
    requires PlanReferences(g, References(g), files).Ok?
    ensures PlanReferences(g, References(g), files).value == AllRewritten(g, files) <==> !Collision(g, files)
  {
    PlannedIsTurns(g, References(g), files);
    match g
    case Reference(r) =>
      PlainRewritten(r, files);
      assert [r][1..] == [];
    case Structured(_, _, _, _, _, _, _) =>
      TurnsOf(g, files);
      TwoTurns(g, files);
      ThirdTurn(g, files);
      hide IsPathReference, Rewritten, Turns, Turn, References, PlanReferences, Collides, AfterTwo, AllRewritten, Collision;
  }

  function AfterOne(g: Graph, files: Files): Graph
    requires g.Structured?
  {
    g.(graph := Rewritten(g.graph, files))
  }

  // The graph once its own reference and the first hook's have had their turns.
  function AfterTwo(g: Graph, files: Files): Graph
    requires g.Structured?
  {
    if g.prepareInput.None? then AfterOne(g, files)
    else if Collides(g.prepareInput, [AfterOne(g, files).graph], files) then
      g.(graph := Rewritten(g.prepareInput.value, files))
    else AfterOne(g, files).(prepareInput := RewrittenOption(g.prepareInput, files))
  }

  lemma TwoTurns(g: Graph, files: Files)
    requires g.Structured?
    ensures Turn(g, g.graph, files) == AfterOne(g, files)
    ensures g.prepareInput.Some? ==> Turn(AfterOne(g, files), g.prepareInput.value, files) == AfterTwo(g, files)
  {
    PlainRewritten(g.graph, files);
    if g.prepareInput.Some? { PlainRewritten(g.prepareInput.value, files); }
    hide IsPathReference, Rewritten;
  }

  function AfterThree(g: Graph, files: Files): Graph
    requires g.Structured?
  {
    var two := AfterTwo(g, files);
    if g.extractOutput.Some? then Turn(two, g.extractOutput.value, files) else two
  }

  // The last turn completes the rewriting exactly when nothing collides.
  lemma ThirdTurn(g: Graph, files: Files)
    requires g.Structured?
    ensures AfterThree(g, files) == AllRewritten(g, files) <==> !Collision(g, files)
  {
    if g.prepareInput.Some? && Collides(g.prepareInput, [Rewritten(g.graph, files)], files) {
      HookMisplaced(g, files);
    } else {
      HookPlaced(g, files);
    }
    hide AfterThree, AllRewritten, Rewritten, RewrittenOption, IsPathReference;
  }

  lemma HookMisplaced(g: Graph, files: Files)
    requires g.Structured? && g.prepareInput.Some?
    requires Collides(g.prepareInput, [Rewritten(g.graph, files)], files)
    ensures AfterThree(g, files) != AllRewritten(g, files)
  {
    hide IsPathReference, Rewritten;
    assert AfterTwo(g, files) == g.(graph := Rewritten(g.prepareInput.value, files));
  }

  lemma HookPlaced(g: Graph, files: Files)
    requires g.Structured?
    requires g.prepareInput.Some? ==> !Collides(g.prepareInput, [Rewritten(g.graph, files)], files)
    ensures AfterThree(g, files) == AllRewritten(g, files) <==> !Collision(g, files)
  {
    if g.extractOutput.Some? { PlainRewritten(g.extractOutput.value, files); }
    hide IsPathReference, Rewritten;
    var first := Rewritten(g.graph, files);
    var two := AfterTwo(g, files);
    assert two == g.(graph := first, prepareInput := RewrittenOption(g.prepareInput, files));
    hide AfterTwo;
  }

  lemma TurnsOf(g: Graph, files: Files)
    requires g.Structured?
    ensures
      var one := Turn(g, g.graph, files);
      var two := if g.prepareInput.Some? then Turn(one, g.prepareInput.value, files) else one;
      Turns(g, References(g), files) ==
      if g.extractOutput.Some? then Turn(two, g.extractOutput.value, files) else two
  {
    hide Turn;
    var refs := References(g);
    var one := Turn(g, g.graph, files);
    var last := if g.extractOutput.Some? then [g.extractOutput.value] else [];
    assert Turns(g, refs, files) == Turns(one, refs[1..], files);
    if g.prepareInput.Some? {
      assert refs[1..] == [g.prepareInput.value] + last;
      assert refs[1..][1..] == last;
      OneMore(Turn(one, g.prepareInput.value, files), g.extractOutput, files);
    } else {
      assert refs[1..] == last;
      OneMore(one, g.extractOutput, files);
    }
  }

  lemma OneMore(g: Graph, reference: Option<string>, files: Files)
    ensures Turns(g, if reference.Some? then [reference.value] else [], files) ==
            if reference.Some? then Turn(g, reference.value, files) else g
  {
    hide Turn;
    if reference.Some? {
      var refs := [reference.value];
      assert refs[1..] == [];
      assert Turns(Turn(g, refs[0], files), [], files) == Turn(g, refs[0], files);
    }
  }

  /** A hook that reads like the rewritten graph reference takes the graph's place: the graph ends up
      with the hook's rewriting, and the hook is left as it was. */
  lemma CollisionMisplaces(a: string, b: string, c: string, files: Files)
    requires IsPathReference(a) && IsPathReference(b) && a != b && Planned(a, files) == Ok(b) && Planned(b, files) == Ok(c)
    ensures
      var g := Hooked(a, b);
      && PlanReferences(g, References(g), files) == Ok(g.(graph := c))
      && (Collision(g, files) <==> b != c)
  {
    hide IsPathReference, Planned;
    var g := Hooked(a, b);
    var refs := References(g);
    assert refs == [a, b] && refs[1..] == [b] && refs[1..][1..] == [];
    var one := Replaced(g, a, b);
    assert PlanReferences(g, refs, files) == PlanReferences(one, [b], files);
    assert PlanReferences(one, [b], files) == PlanReferences(Replaced(one, b, c), [b][1..], files);
  }

  // A graph with one hook.
  function Hooked(graph: string, prepare: string): Graph {
    Structured(graph, Some(prepare), None, None, None, None, None)
  }

  /** It happens when the container path of one project file is itself the path of another: the graph
      gets the other file, and the hook keeps a path that means another file in the container. */
  lemma CollisionsHappen(own: string, r: string, s: string, symbol: string, files: Files)
    requires '/' in own && |symbol| == 1 && symbol[0] != ':' && r != s
    requires files.relative(own) == Some(r) && files.selectable(own)
    requires files.relative(AGENT + r) == Some(s) && files.selectable(AGENT + r)
    ensures
      var g := Hooked(own + ":" + symbol, AGENT + r + ":" + symbol);
      && Collision(g, files)
      && PlanReferences(g, References(g), files) == Ok(g.(graph := AGENT + s + ":" + symbol))
      && PlanReferences(g, References(g), files) != Ok(AllRewritten(g, files))
  {
    hide *;
    RootPath(r);
    PlannedPath(own, symbol, r, files);
    PlannedPath(AGENT + r, symbol, s, files);
    var a, b, c := own + ":" + symbol, AGENT + r + ":" + symbol, AGENT + s + ":" + symbol;
    assert a[..|own|] == own && b[..|AGENT + r|] == AGENT + r;
    assert b[|AGENT|..|AGENT + r|] == r && c[|AGENT|..|AGENT + s|] == s;
    CollisionMisplaces(a, b, c, files);
    RewrittenUnlessCollision(Hooked(a, b), files);
  }

  lemma RootPath(relative: string)
    ensures '/' in AGENT + relative
  {
    assert (AGENT + relative)[0] == AGENT[0] == '/';
  }

  // A project rooted at /deps, read by a config in that directory, with the files x.py and agent/x.py.
  function Twins(): Files {
    Files(m => if m == "./x.py" then Some("x.py") else if m == "/deps/agent/x.py" then Some("agent/x.py") else None,
          m => m == "./x.py" || m == "/deps/agent/x.py", _ => true)
  }

  lemma TwinsPlanned()
    ensures IsPathReference("./x.py:g") && Planned("./x.py:g", Twins()) == Ok("/deps/agent/x.py:g")
    ensures IsPathReference("/deps/agent/x.py:g")
    ensures Planned("/deps/agent/x.py:g", Twins()) == Ok("/deps/agent/agent/x.py:g")
  {
    hide *;
    TwinsFiles();
    PlannedPath("./x.py", "g", "x.py", Twins());
    PlannedPath("/deps/agent/x.py", "g", "agent/x.py", Twins());
    assert "./x.py" + ":" + "g" == "./x.py:g";
    assert "/deps/agent/x.py" + ":" + "g" == "/deps/agent/x.py:g";
    assert AGENT + "x.py" == "/deps/agent/x.py";
    assert AGENT + "agent/x.py" == "/deps/agent/agent/x.py";
    assert "/deps/agent/agent/x.py" + ":" + "g" == "/deps/agent/agent/x.py:g";
  }

  lemma TwinsFiles()
    ensures '/' in "./x.py" && '/' in "/deps/agent/x.py" && "g"[0] != ':' && AGENT == "/deps/agent/"
    ensures var t := Twins();
      && t.relative("./x.py") == Some("x.py") && t.relative("/deps/agent/x.py") == Some("agent/x.py")
      && t.selectable("./x.py") && t.selectable("/deps/agent/x.py")
  {
    assert "./x.py"[1] == '/' && "/deps/agent/x.py"[0] == '/';
    assert |"./x.py"| == 6;
  }

  /** One such project and graph. */
  lemma TwinsCollide()
    ensures
      var g := Hooked("./x.py:g", "/deps/agent/x.py:g");
      && Collision(g, Twins())
      && AllRewritten(g, Twins()) == Hooked("/deps/agent/x.py:g", "/deps/agent/agent/x.py:g")
      && PlanReferences(g, References(g), Twins()) == Ok(Hooked("/deps/agent/agent/x.py:g", "/deps/agent/x.py:g"))
  {
    var a, b, c := "./x.py:g", "/deps/agent/x.py:g", "/deps/agent/agent/x.py:g";
    assert |a| == 8 && |b| == 18 && |c| == 24;
    TwinsPlanned();
    hide Planned, Twins, IsPathReference;
    CollisionMisplaces(a, b, c, Twins());
    hide Collision, PlanReferences;
  }

  lemma PlannedPath(m: string, symbol: string, relative: string, files: Files)
    requires '/' in m && |symbol| == 1 && symbol[0] != ':'
    requires files.relative(m) == Some(relative) && files.selectable(m)
    ensures IsPathReference(m + ":" + symbol)
    ensures Planned(m + ":" + symbol, files) == Ok(AGENT + relative + ":" + symbol)
  {
    Splits(m, symbol);
    hide RightSplit;
  }

  lemma Splits(m: string, symbol: string)
    requires |symbol| == 1 && symbol[0] != ':'
    ensures RightSplit(m + ":" + symbol) == Some((m, symbol))
  {
    var s := m + ":" + symbol;
    assert s[..|s| - 1] == m + ":" && (m + ":")[..|m|] == m && s[|s| - 1] == symbol[0];
    assert RightSplit(m + ":") == Some((m, ""));
    assert "" + [symbol[0]] == symbol;
  }

  // ---- The loops

  /** The inner loop of `_parse_graphs` when an image is planned. */
  method RewriteReferences(graph: Graph, files: Files) returns (r: Result<Graph, ()>)
    ensures r == PlanReferences(graph, References(graph), files)
  {
    var g, references := graph, References(graph);
    assert references[0..] == references;
    for i := 0 to |references|
      invariant PlanReferences(g, references[i..], files) == PlanReferences(graph, references, files)
    {
      assert references[i..][1..] == references[i + 1..];
      var reference := references[i];
      if !IsPathReference(reference) {
        if !files.importable(reference) { return Err(()); }
        continue;
      }
      var normalized := Planned(reference, files);
      if normalized.Err? { return Err(()); }
      g := Replaced(g, reference, normalized.value);
    }
    r := Ok(g);
  }

  // One graph of a manifest, or of a config that is being planned.
  function GraphFor(value: Json, files: Option<Files>): Result<Graph, ()> {
    if files.None? then ParseGraph(value) else PlanGraph(value, files.value)
  }

  method BuildGraph(value: Json, files: Option<Files>) returns (r: Result<Graph, ()>)
    ensures r == GraphFor(value, files)
  {
    var graph := RawGraph(value);
    if graph.Err? { return Err(()); }
    if files.None? { return if GraphPreloaded(graph.value) then graph else Err(()); }
    r := RewriteReferences(graph.value, files.value);
  }

  /** `_parse_graphs`, preloaded or planned: an object's items are taken in order. */
  method BuildGraphs(raw: Option<Json>, files: Option<Files>) returns (r: Result<Dict<Graph>, ()>)
    ensures r == if files.None? then ParseGraphs(raw) else PlanGraphs(raw, files.value)
  {
    hide RawGraph, GraphPreloaded, ParseGraph, PlanGraph;
    if raw.None? || !raw.value.Obj? || raw.value.fields == [] { return Err(()); }
    var fields := raw.value.fields;
    var graphs: Dict<Graph> := [];
    for i := 0 to |fields|
      invariant |graphs| == i
      invariant forall k | 0 <= k < i ::
        fields[k].0 != "" && GraphFor(fields[k].1, files).Ok? && graphs[k] == (fields[k].0, GraphFor(fields[k].1, files).value)
    {
      var name, value := fields[i].0, fields[i].1;
      if name == "" { return Err(()); }
      var graph := BuildGraph(value, files);
      if graph.Err? { return Err(()); }
      graphs := graphs + [(name, graph.value)];
    }
    if files.None? {
      assert graphs == ParseGraphs(raw).value;
    } else {
      assert graphs == PlanGraphs(raw, files.value).value;
    }
    r := Ok(graphs);
  }

  /** The requirements loop of `_parse_auth`. */
  method BuildSecurity(items: seq<Json>, schemes: seq<string>) returns (r: Result<seq<Dict<seq<string>>>, ()>)
    ensures ParseSecurity(Some(List(items)), schemes) == match r case Ok(security) => Ok(Some(security)) case Err(_) => Err(())
  {
    var parsed: seq<Dict<seq<string>>> := [];
    for i := 0 to |items|
      invariant |parsed| == i
      invariant forall k | 0 <= k < i :: ValidRequirement(items[k], schemes) && parsed[k] == RequirementOf(items[k], schemes)
    {
      if !items[i].Obj? { return Err(()); }
      var requirement := items[i].fields;
      var item: Dict<seq<string>> := [];
      for j := 0 to |requirement|
        invariant |item| == j
        invariant forall k | 0 <= k < j :: requirement[k].0 in schemes && StringList(requirement[k].1)
        invariant forall k | 0 <= k < j :: item[k] == (requirement[k].0, StringsOf(requirement[k].1))
      {
        var name, scopes := requirement[j].0, requirement[j].1;
        if name !in schemes { return Err(()); }
        if !StringList(scopes) { return Err(()); }
        item := item + [(name, StringsOf(scopes))];
      }
      assert item == RequirementOf(items[i], schemes);
      parsed := parsed + [item];
    }
    var spec := ParseSecurity(Some(List(items)), schemes);
    assert spec.Ok? && parsed == spec.value.value;
    r := Ok(parsed);
  }
}
