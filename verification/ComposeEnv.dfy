/** The literal dotenv file Compose is given: a chain of string replacements that can be undone. */
module ComposeEnv {
  import opened Wrappers
  import opened Ordering

  // A dict's items, in insertion order, with distinct names.
  type Entry = (string, string)

  datatype EncodeError = InvalidName | UnsafeControl(name: string)

  predicate NameStart(c: char) { 'A' <= c <= 'Z' || 'a' <= c <= 'z' || c == '_' }

  predicate NamePart(c: char) { NameStart(c) || '0' <= c <= '9' }

  // [A-Za-z_][A-Za-z0-9_]*, matched in full.
  predicate ValidName(name: string) {
    name != "" && NameStart(name[0]) && forall i | 0 <= i < |name| :: NamePart(name[i])
  }

  predicate SafeChar(c: char) { c >= ' ' || c == '\n' || c == '\r' || c == '\t' }

  predicate SafeValue(value: string) { forall i | 0 <= i < |value| :: SafeChar(value[i]) }

  // Python's s.replace(c, with) for a one-character c.
  function ReplaceAll(s: string, c: char, with: string): string {
    if s == "" then "" else (if s[0] == c then with else [s[0]]) + ReplaceAll(s[1..], c, with)
  }

  function Literal(value: string): string {
    var a := ReplaceAll(value, '\\', "\\\\");
    var b := ReplaceAll(a, '"', "\\\"");
    var c := ReplaceAll(b, '$', "$$");
    var d := ReplaceAll(c, '\n', "\\n");
    var e := ReplaceAll(d, '\r', "\\r");
    ReplaceAll(e, '\t', "\\t")
  }

  function Line(entry: Entry): string { entry.0 + "=\"" + Literal(entry.1) + "\"" }

  predicate PairLess(a: Entry, b: Entry) {
    StringLess(a.0, b.0) || (a.0 == b.0 && StringLess(a.1, b.1))
  }

  function Sorted(items: seq<Entry>): seq<Entry> { SortedSet(PairLess, items) }

  function Lines(entries: seq<Entry>): Result<seq<string>, EncodeError> {
    if entries == [] then Ok([]) else
      match Lines(entries[..|entries| - 1])
      case Err(e) => Err(e)
      case Ok(front) =>
        var last := entries[|entries| - 1];
        if !ValidName(last.0) then Err(InvalidName)
        else if !SafeValue(last.1) then Err(UnsafeControl(last.0))
        else Ok(front + [Line(last)])
  }

  // Python's "\n".join(lines).
  function Joined(lines: seq<string>): string {
    if lines == [] then "" else if |lines| == 1 then lines[0] else lines[0] + "\n" + Joined(lines[1..])
  }

  /** The file, or the first error in name order. */
  function Encode(items: seq<Entry>): Result<string, EncodeError> {
    match Lines(Sorted(items)) case Err(e) => Err(e) case Ok(lines) => Ok(Joined(lines) + "\n")
  }

  /** `encode_compose_environment`. */
  method EncodeComposeEnvironment(values: seq<Entry>) returns (r: Result<string, EncodeError>)
    ensures r == Encode(values)
  {
    var entries := Sorted(values);
    var lines: seq<string> := [];
    for i := 0 to |entries|
      invariant Lines(entries[..i]) == Ok(lines)
    {
      assert entries[..i + 1][..i] == entries[..i];
      var name, value := entries[i].0, entries[i].1;
      if !ValidName(name) {
        ErrorStays(entries, i + 1);
        return Err(InvalidName);
      }
      if !SafeValue(value) {
        ErrorStays(entries, i + 1);
        return Err(UnsafeControl(name));
      }
      lines := lines + [name + "=\"" + Literal(value) + "\""];
    }
    assert entries[..|entries|] == entries;
    r := Ok(Joined(lines) + "\n");
  }

  lemma {:induction false} ErrorStays(entries: seq<Entry>, n: nat)
    requires n <= |entries| && Lines(entries[..n]).Err?
    ensures Lines(entries) == Lines(entries[..n])
    decreases |entries| - n
  {
    if n < |entries| {
      assert entries[..n + 1][..n] == entries[..n];
      ErrorStays(entries, n + 1);
    } else {
      assert entries[..n] == entries;
    }
  }

  // ---- One escape per character

  function Escape(c: char): string {
    if c == '\\' then "\\\\"
    else if c == '"' then "\\\""
    else if c == '$' then "$$"
    else if c == '\n' then "\\n"
    else if c == '\r' then "\\r"
    else if c == '\t' then "\\t"
    else [c]
  }

  function Escaped(s: string): string {
    if s == "" then "" else Escape(s[0]) + Escaped(s[1..])
  }

  lemma {:induction false} ReplaceDistributes(s: string, t: string, c: char, with: string)
    ensures ReplaceAll(s + t, c, with) == ReplaceAll(s, c, with) + ReplaceAll(t, c, with)
    decreases |s|
  {
    if s == "" {
      assert s + t == t;
    } else {
      assert (s + t)[1..] == s[1..] + t;
      ReplaceDistributes(s[1..], t, c, with);
    }
  }

  lemma LiteralDistributes(s: string, t: string)
    ensures Literal(s + t) == Literal(s) + Literal(t)
  {
    ReplaceDistributes(s, t, '\\', "\\\\");
    var a, a' := ReplaceAll(s, '\\', "\\\\"), ReplaceAll(t, '\\', "\\\\");
    ReplaceDistributes(a, a', '"', "\\\"");
    var b, b' := ReplaceAll(a, '"', "\\\""), ReplaceAll(a', '"', "\\\"");
    ReplaceDistributes(b, b', '$', "$$");
    var c, c' := ReplaceAll(b, '$', "$$"), ReplaceAll(b', '$', "$$");
    ReplaceDistributes(c, c', '\n', "\\n");
    var d, d' := ReplaceAll(c, '\n', "\\n"), ReplaceAll(c', '\n', "\\n");
    ReplaceDistributes(d, d', '\r', "\\r");
    var e, e' := ReplaceAll(d, '\r', "\\r"), ReplaceAll(d', '\r', "\\r");
    ReplaceDistributes(e, e', '\t', "\\t");
    hide ReplaceAll;
  }

  lemma ReplaceOne(x: char, c: char, with: string)
    ensures ReplaceAll([x], c, with) == if x == c then with else [x]
  {
    assert [x][1..] == "";
  }

  lemma ReplaceTwo(x: char, y: char, c: char, with: string)
    ensures x != c && y != c ==> ReplaceAll([x, y], c, with) == [x, y]
  {
    assert [x, y][1..] == [y];
    ReplaceOne(y, c, with);
  }

  lemma LiteralOfChar(x: char)
    ensures Literal([x]) == Escape(x)
  {
    ReplaceOne(x, '\\', "\\\\");
    ReplaceOne(x, '"', "\\\"");
    ReplaceOne(x, '$', "$$");
    ReplaceOne(x, '\n', "\\n");
    ReplaceOne(x, '\r', "\\r");
    ReplaceOne(x, '\t', "\\t");
    var e := Escape(x);
    if |e| == 2 {
      ReplaceTwo(e[0], e[1], '"', "\\\"");
      ReplaceTwo(e[0], e[1], '$', "$$");
      ReplaceTwo(e[0], e[1], '\n', "\\n");
      ReplaceTwo(e[0], e[1], '\r', "\\r");
      ReplaceTwo(e[0], e[1], '\t', "\\t");
    }
    hide ReplaceAll;
  }

  /** The six replacements in sequence are one escape per character, read left to right. */
  lemma {:induction false} ReplacementsEscapeEachCharacter(value: string)
    ensures Literal(value) == Escaped(value)
  {
    if value != "" {
      assert value == [value[0]] + value[1..];
      LiteralDistributes([value[0]], value[1..]);
      LiteralOfChar(value[0]);
      ReplacementsEscapeEachCharacter(value[1..]);
      hide Literal;
    }
  }

  // ---- Reading the file back

  // The value up to the closing quote, and what follows the quote.
  function ReadLiteral(s: string): (r: Option<(string, string)>)
    ensures r.Some? ==> |r.value.1| < |s|
    decreases |s|
  {
    if s == "" then None
    else if s[0] == '"' then Some(("", s[1..]))
    else if s[0] == '\\' || s[0] == '$' then
      if |s| < 2 then None else
        match Unescape(s[0], s[1])
        case None => None
        case Some(c) =>
          match ReadLiteral(s[2..]) case None => None case Some(rest) => Some(([c] + rest.0, rest.1))
    else
      match ReadLiteral(s[1..]) case None => None case Some(rest) => Some(([s[0]] + rest.0, rest.1))
  }

  function Unescape(lead: char, c: char): Option<char> {
    if lead == '$' then if c == '$' then Some('$') else None
    else if c == '\\' || c == '"' then Some(c)
    else if c == 'n' then Some('\n')
    else if c == 'r' then Some('\r')
    else if c == 't' then Some('\t')
    else None
  }

  // The name up to the equals sign, and what follows the sign.
  function ReadName(s: string): (r: Option<(string, string)>)
    ensures r.Some? ==> |r.value.1| < |s|
  {
    if s == "" then None
    else if s[0] == '=' then Some(("", s[1..]))
    else match ReadName(s[1..]) case None => None case Some(rest) => Some(([s[0]] + rest.0, rest.1))
  }

  function ReadEntries(s: string): Option<seq<Entry>>
    decreases |s|
  {
    if s == "" then Some([]) else
      match ReadName(s)
      case None => None
      case Some(name) =>
        if name.1 == "" || name.1[0] != '"' then None else
          match ReadLiteral(name.1[1..])
          case None => None
          case Some(value) =>
            if value.1 == "" || value.1[0] != '\n' then None else
              match ReadEntries(value.1[1..])
              case None => None
              case Some(rest) => Some([(name.0, value.0)] + rest)
  }

  /** A reader of the file, written from the grammar and not from the encoder. */
  function Decode(file: string): Option<seq<Entry>> {
    if file == "\n" then Some([]) else ReadEntries(file)
  }

  lemma ReadEscape(c: char, tail: string)
    ensures ReadLiteral(Escape(c) + tail) ==
            match ReadLiteral(tail) case None => None case Some(rest) => Some(([c] + rest.0, rest.1))
  {
    var e := Escape(c);
    assert (e + tail)[|e|..] == tail && e + tail != "";
    if |e| == 2 { assert (e + tail)[0] == e[0] && (e + tail)[1] == e[1]; }
  }

  lemma {:induction false} ReadEscaped(value: string, rest: string)
    ensures ReadLiteral(Escaped(value) + "\"" + rest) == Some((value, rest))
  {
    if value == "" {
      assert (Escaped(value) + "\"" + rest)[1..] == rest;
    } else {
      var tail := Escaped(value[1..]) + "\"" + rest;
      ReadEscaped(value[1..], rest);
      assert Escaped(value) + "\"" + rest == Escape(value[0]) + tail;
      ReadEscape(value[0], tail);
      assert value == [value[0]] + value[1..];
      hide ReadLiteral, Escape;
    }
  }

  lemma {:induction false} ReadPlainName(name: string, rest: string)
    requires forall i | 0 <= i < |name| :: NamePart(name[i])
    ensures ReadName(name + "=" + rest) == Some((name, rest))
  {
    if name == "" {
      assert (name + "=" + rest)[1..] == rest;
    } else {
      ReadPlainName(name[1..], rest);
      assert (name + "=" + rest)[1..] == name[1..] + "=" + rest && name == [name[0]] + name[1..];
    }
  }

  function FileOf(entries: seq<Entry>): string {
    if entries == [] then "" else Line(entries[0]) + "\n" + FileOf(entries[1..])
  }

  predicate Accepted(entries: seq<Entry>) {
    forall i | 0 <= i < |entries| :: ValidName(entries[i].0) && SafeValue(entries[i].1)
  }

  lemma ReadOne(entry: Entry, rest: string)
    requires ValidName(entry.0)
    ensures ReadEntries(Line(entry) + "\n" + rest) ==
            match ReadEntries(rest) case None => None case Some(more) => Some([entry] + more)
  {
    var name, value := entry.0, entry.1;
    var tail := "\n" + rest;
    var literal := Escaped(value) + "\"" + tail;
    ReplacementsEscapeEachCharacter(value);
    ReadEscaped(value, tail);
    ReadPlainName(name, "\"" + literal);
    assert Line(entry) + "\n" + rest == name + "=" + ("\"" + literal);
    assert ("\"" + literal)[1..] == literal && tail[1..] == rest;
    hide ReadName, ReadLiteral, Escaped, Line, ValidName;
  }

  lemma {:induction false} ReadFile(entries: seq<Entry>)
    requires Accepted(entries)
    ensures ReadEntries(FileOf(entries)) == Some(entries)
  {
    if entries != [] {
      ReadFile(entries[1..]);
      ReadOne(entries[0], FileOf(entries[1..]));
      assert entries == [entries[0]] + entries[1..];
      hide Line, ReadEntries;
    }
  }

  lemma {:induction false} JoinedIsFile(entries: seq<Entry>, lines: seq<string>)
    requires |lines| == |entries| > 0 && forall i | 0 <= i < |lines| :: lines[i] == Line(entries[i])
    ensures Joined(lines) + "\n" == FileOf(entries)
  {
    hide Line;
    if |lines| == 1 {
      assert entries[1..] == [] && FileOf(entries[1..]) == "";
    } else {
      JoinedIsFile(entries[1..], lines[1..]);
    }
  }

  lemma {:induction false} LinesExactly(entries: seq<Entry>)
    ensures Lines(entries).Ok? <==> Accepted(entries)
    ensures Lines(entries).Ok? ==>
      && |Lines(entries).value| == |entries|
      && forall i | 0 <= i < |entries| :: Lines(entries).value[i] == Line(entries[i])
  {
    hide Line, ValidName, SafeValue;
    if entries != [] { LinesExactly(entries[..|entries| - 1]); }
  }

  lemma PairsAreOrdered()
    ensures StrictTotal(PairLess)
  {
    StringsAreOrdered();
    hide StringLess;
  }

  lemma SortedItems(items: seq<Entry>)
    ensures Ascending(PairLess, Sorted(items)) && forall e :: e in Sorted(items) <==> e in items
  {
    PairsAreOrdered();
    SortedSetAscends(PairLess, items);
    forall e ensures e in Sorted(items) <==> e in items { SortedSetElements(PairLess, items, e); }
  }

  /** The encoder accepts exactly the maps whose names and values are all acceptable. */
  lemma EncodedFile(items: seq<Entry>)
    ensures Encode(items).Ok? <==> Accepted(items)
    ensures Accepted(items) <==> Accepted(Sorted(items))
    ensures Encode(items).Ok? ==>
      Encode(items).value == if Sorted(items) == [] then "\n" else FileOf(Sorted(items))
  {
    var entries := Sorted(items);
    SortedItems(items);
    assert Accepted(entries) <==> Accepted(items) by {
      assert forall i | 0 <= i < |items| :: items[i] in entries;
      assert forall i | 0 <= i < |entries| :: entries[i] in items;
    }
    LinesExactly(entries);
    if Accepted(entries) {
      if entries != [] {
        JoinedIsFile(entries, Lines(entries).value);
      } else {
        assert "" + "\n" == "\n";
      }
    }
  }

  // What is wrong with an entry: a name that is not letters, digits and underscores or that begins with a
  // digit, else a control character that is not a line break or a tab.
  function Refusal(entry: Entry): Option<EncodeError> {
    if entry.0 == "" || '0' <= entry.0[0] <= '9'
       || exists c <- entry.0 :: !('A' <= c <= 'Z' || 'a' <= c <= 'z' || '0' <= c <= '9' || c == '_')
    then Some(InvalidName)
    else if exists c <- entry.1 :: c as int < 0x20 && c !in "\n\r\t" then Some(UnsafeControl(entry.0))
    else None
  }

  lemma RefusalIs(entry: Entry)
    ensures Refusal(entry) == if !ValidName(entry.0) then Some(InvalidName)
                              else if !SafeValue(entry.1) then Some(UnsafeControl(entry.0)) else None
  {
    assert ' ' as int == 0x20;
    assert forall c: char :: c in "\n\r\t" <==> c == '\n' || c == '\r' || c == '\t';
    assert forall i | 0 <= i < |entry.0| :: entry.0[i] in entry.0;
    assert forall i | 0 <= i < |entry.1| :: entry.1[i] in entry.1;
  }

  // The first of the entries with something wrong.
  lemma {:induction false} FirstWrong(entries: seq<Entry>, e: EncodeError)
    ensures Lines(entries) == Err(e) <==>
            exists k | 0 <= k < |entries| :: Refusal(entries[k]) == Some(e) && forall i | 0 <= i < k :: Refusal(entries[i]) == None
  {
    hide Refusal, ValidName, SafeValue, Line;
    if entries != [] {
      var n := |entries| - 1;
      var front := entries[..n];
      FirstWrong(front, e);
      RefusalIs(entries[n]);
      if Lines(front).Err? {
        FirstWrong(front, Lines(front).error);
        var k :| 0 <= k < n && Refusal(front[k]).Some? && forall i | 0 <= i < k :: Refusal(front[i]) == None;
        assert Refusal(entries[k]) == Refusal(front[k]);
      } else {
        forall i | 0 <= i < n ensures Refusal(entries[i]) == None {
          LinesExactly(front);
          assert ValidName(front[i].0) && SafeValue(front[i].1);
          RefusalIs(entries[i]);
        }
      }
    }
  }

  /** The error is that of the first wrong entry in name order. */
  lemma RefusedExactly(items: seq<Entry>, e: EncodeError)
    ensures Encode(items) == Err(e) <==>
            exists b <- items :: Refusal(b) == Some(e) && forall a <- items | PairLess(a, b) :: Refusal(a) == None
  {
    var entries := Sorted(items);
    SortedItems(items);
    PairsAreOrdered();
    FirstWrong(entries, e);
    hide Refusal, PairLess, Lines;
    if Encode(items) == Err(e) {
      var k :| 0 <= k < |entries| && Refusal(entries[k]) == Some(e) && forall i | 0 <= i < k :: Refusal(entries[i]) == None;
      assert entries[k] in items;
      forall a <- items | PairLess(a, entries[k]) ensures Refusal(a) == None {
        var i :| 0 <= i < |entries| && entries[i] == a;
        EarlierIsBefore(entries, i, k);
      }
    }
    if exists b <- items :: Refusal(b) == Some(e) && forall a <- items | PairLess(a, b) :: Refusal(a) == None {
      var b :| b in items && Refusal(b) == Some(e) && forall a <- items | PairLess(a, b) :: Refusal(a) == None;
      var k :| 0 <= k < |entries| && entries[k] == b;
      forall i | 0 <= i < k ensures Refusal(entries[i]) == None { assert entries[i] in items && PairLess(entries[i], b); }
    }
  }

  lemma EarlierIsBefore(entries: seq<Entry>, i: nat, k: nat)
    requires StrictTotal(PairLess) && Ascending(PairLess, entries) && i < |entries| && k < |entries|
    requires PairLess(entries[i], entries[k])
    ensures i < k
  {
    hide PairLess;
  }

  /** The reader recovers every item, in name order, from the file. */
  lemma DecodeUndoesEncode(items: seq<Entry>)
    requires Encode(items).Ok?
    ensures Decode(Encode(items).value) == Some(Sorted(items))
  {
    EncodedFile(items);
    var entries := Sorted(items);
    if entries != [] {
      ReadFile(entries);
      assert |Line(entries[0])| >= 3;
      assert |FileOf(entries)| > 1;
    }
  }

  /** The file depends on the set of items alone, errors included, whatever order the map gives them in. */
  lemma OrderDoesNotMatter(items: seq<Entry>, others: seq<Entry>)
    requires forall e :: e in items <==> e in others
    ensures Encode(items) == Encode(others)
  {
    SortedItems(items);
    SortedItems(others);
    PairsAreOrdered();
    AscendingIsUnique(PairLess, Sorted(items), Sorted(others));
  }

  /** Two maps have the same file only if they are the same map. */
  lemma EncodingIsInjective(items: seq<Entry>, others: seq<Entry>)
    requires Encode(items).Ok? && Encode(items) == Encode(others)
    ensures forall e :: e in items <==> e in others
  {
    DecodeUndoesEncode(items);
    DecodeUndoesEncode(others);
    SortedItems(items);
    SortedItems(others);
  }

  function LineBreaks(s: string): nat {
    if s == "" then 0 else (if s[0] == '\n' || s[0] == '\r' then 1 else 0) + LineBreaks(s[1..])
  }

  lemma {:induction false} LineBreaksAdd(s: string, t: string)
    ensures LineBreaks(s + t) == LineBreaks(s) + LineBreaks(t)
    decreases |s|
  {
    if s == "" {
      assert s + t == t;
    } else {
      assert (s + t)[1..] == s[1..] + t;
      LineBreaksAdd(s[1..], t);
    }
  }

  lemma {:induction false} EscapedHasNoBreak(value: string)
    ensures LineBreaks(Escaped(value)) == 0
  {
    if value != "" {
      var e := Escape(value[0]);
      LineBreaksAdd(e, Escaped(value[1..]));
      EscapedHasNoBreak(value[1..]);
      assert e[1..] == "" || (|e| == 2 && e[1..] == [e[1]] && e[1..][1..] == "");
    }
  }

  lemma {:induction false} NameHasNoBreak(name: string)
    requires forall i | 0 <= i < |name| :: NamePart(name[i])
    ensures LineBreaks(name) == 0
  {
    if name != "" { NameHasNoBreak(name[1..]); }
  }

  lemma LineHasNoBreak(entry: Entry)
    requires ValidName(entry.0)
    ensures LineBreaks(Line(entry)) == 0
  {
    var name, value := entry.0, entry.1;
    NameHasNoBreak(name);
    ReplacementsEscapeEachCharacter(value);
    EscapedHasNoBreak(value);
    hide Literal, Escaped, ValidName, LineBreaks;
    QuotedHasNoBreak(Literal(value));
    Joins(name, "=\"", Literal(value), "\"");
    LineBreaksAdd(name, "=\"" + (Literal(value) + "\""));
  }

  lemma Joins(a: string, b: string, c: string, d: string)
    ensures a + b + c + d == a + (b + (c + d))
  {}

  lemma QuotedHasNoBreak(text: string)
    ensures LineBreaks("=\"" + (text + "\"")) == LineBreaks(text)
  {
    LineBreaksAdd(text, "\"");
    LineBreaksAdd("=\"", text + "\"");
    assert "=\""[1..] == "\"" && "\""[1..] == "";
  }

  /** Each entry takes exactly one physical line, its own. */
  lemma {:induction false} OneLineEach(entries: seq<Entry>)
    requires Accepted(entries)
    ensures LineBreaks(FileOf(entries)) == |entries|
    ensures forall i | 0 <= i < |entries| :: LineBreaks(Line(entries[i])) == 0
  {
    if entries != [] {
      LineHasNoBreak(entries[0]);
      var tail := "\n" + FileOf(entries[1..]);
      LineBreaksAdd(Line(entries[0]), tail);
      assert FileOf(entries) == Line(entries[0]) + tail;
      assert tail[1..] == FileOf(entries[1..]);
      OneLineEach(entries[1..]);
      hide Line, ValidName, SafeValue;
    }
  }

  /** The file has as many lines as there are entries, or one empty line for an empty map. */
  lemma OneLinePerEntry(items: seq<Entry>)
    requires Encode(items).Ok?
    ensures LineBreaks(Encode(items).value) == if Sorted(items) == [] then 1 else |Sorted(items)|
  {
    EncodedFile(items);
    OneLineEach(Sorted(items));
    assert "\n"[1..] == "";
  }
}
