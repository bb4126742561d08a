/** SKILL.md: the file that is rendered for a new skill and the parser that reads it back. */
module SkillFile {
  import opened Options
  import opened Texts

  /** A front matter value: text, a JSON value kept as its text, or an indented mapping. */
  datatype Value = Str(text: string) | Json(text: string) | Nested(entries: map<string, Value>)

  datatype Manifest = Manifest(name: string, description: string, body: string)

  // ---- rendering ----

  function Render(name: string, description: string, instructions: string): string {
    "---\nname: " + name + "\ndescription: " + description + "\n---\n\n" + Strip(instructions) + "\n"
  }

  // ---- parsing; None is an error, and `json` tells which texts are JSON ----

  /** A scalar or a JSON-like value; the value was stripped. */
  function ParseValue(value: string, json: string -> bool): Option<Value> {
    if value == "" then Some(Str(""))
    else if value[0] == '"' || value[0] == '\'' then
      if |value| < 2 || value[|value| - 1] != value[0] then None else Some(Str(value[1..|value| - 1]))
    else if value[0] == '[' || value[0] == '{' then
      if json(value) then Some(Json(value)) else None
    else Some(Str(value))
  }

  function SplitPair(line: string): Option<(string, string)> {
    var colon := Find(line, ":", 0);
    if colon.None? then None
    else
      var key := Strip(line[..colon.value]);
      if key == "" then None else Some((key, Strip(line[colon.value + 1..])))
  }

  /** What is parsed so far, and the key whose indented lines are being read. */
  datatype State = State(parsed: map<string, Value>, current: Option<string>)

  predicate Ignored(line: string) {
    Strip(line) == "" || (TrimLeft(line, IsSpace) != "" && TrimLeft(line, IsSpace)[0] == '#')
  }

  /** The current mapping is the one stored under its key. */
  predicate Linked(st: State) {
    st.current.Some? ==> st.current.value in st.parsed && st.parsed[st.current.value].Nested?
  }

  function ParseIndented(st: State, line: string, json: string -> bool): (r: Option<State>)
    requires Linked(st)
    ensures r.Some? ==> Linked(r.value)
  {
    if st.current.None? then None
    else
      var pair := SplitPair(Strip(line));
      if pair.None? then None
      else
        var value, key := ParseValue(pair.value.1, json), st.current.value;
        if value.None? then None
        else
          Some(st.(parsed := st.parsed[key := Nested(st.parsed[key].entries[pair.value.0 := value.value])]))
  }

  function ParseTop(st: State, line: string, json: string -> bool): (r: Option<State>)
    ensures r.Some? ==> Linked(r.value)
  {
    var pair := SplitPair(line);
    if pair.None? then None
    else if pair.value.1 == "" then
      Some(State(st.parsed[pair.value.0 := Nested(map[])], Some(pair.value.0)))
    else
      var value := ParseValue(pair.value.1, json);
      if value.None? then None else Some(State(st.parsed[pair.value.0 := value.value], None))
  }

  function ParseLine(st: State, line: string, json: string -> bool): (r: Option<State>)
    requires Linked(st)
    ensures r.Some? ==> Linked(r.value)
  {
    if Ignored(line) then Some(st)
    else if line[0] == ' ' || line[0] == '\t' then ParseIndented(st, line, json)
    else ParseTop(st, line, json)
  }

  function ParseLines(lines: seq<string>, json: string -> bool): (r: Option<State>)
    ensures r.Some? ==> Linked(r.value)
  {
    if lines == [] then Some(State(map[], None))
    else
      var st := ParseLines(lines[..|lines| - 1], json);
      if st.None? then None else ParseLine(st.value, lines[|lines| - 1], json)
  }

  lemma {:induction false} StopsAtError(lines: seq<string>, k: nat, json: string -> bool)
    requires k <= |lines| && ParseLines(lines[..k], json).None?
    ensures ParseLines(lines, json).None?
  {
    if k < |lines| {
      assert lines[..|lines| - 1][..k] == lines[..k];
      StopsAtError(lines[..|lines| - 1], k, json);
    } else {
      assert lines[..k] == lines;
    }
  }

  method ParseMapping(lines: seq<string>, json: string -> bool) returns (r: Option<map<string, Value>>)
    ensures var st := ParseLines(lines, json);
      r == if st.None? then None else Some(st.value.parsed)
  {
    var st := State(map[], None);
    for i := 0 to |lines|
      invariant ParseLines(lines[..i], json) == Some(st)
    {
      assert lines[..i + 1][..i] == lines[..i];
      var next := ParseLine(st, lines[i], json);
      if next.None? {
        StopsAtError(lines, i + 1, json);
        return None;
      }
      st := next.value;
    }
    assert lines[..|lines|] == lines;
    r := Some(st.parsed);
  }

  predicate IsNewline(c: char) {
    c == '\r' || c == '\n'
  }

  /** The front matter's lines and the body. */
  function SplitFile(content: string): Option<(seq<string>, string)> {
    if !("---\n" <= content) then None
    else
      var end := Find(content, "\n---", 4);
      if end.None? then None
      else Some((SplitLines(content[4..end.value]), TrimLeft(content[end.value + 4..], IsNewline)))
  }

  predicate ValidName(name: string) {
    && name != "" && name[0] != '-'
    && forall c :: c in name ==> 'a' <= c <= 'z' || '0' <= c <= '9' || c == '-'
  }

  /** The file in a directory of the given name as a manifest. */
  function Validate(content: string, directory: string, json: string -> bool): Option<Manifest> {
    var file := SplitFile(content);
    if file.None? then None
    else
      var st := ParseLines(file.value.0, json);
      if st.None? then None else ManifestOf(st.value.parsed, file.value.1, directory)
  }

  function ManifestOf(meta: map<string, Value>, body: string, directory: string): Option<Manifest> {
    if "name" !in meta || !meta["name"].Str? || Strip(meta["name"].text) == "" then None
    else if !ValidName(meta["name"].text) || directory != meta["name"].text then None
    else if "description" !in meta || !meta["description"].Str? || Strip(meta["description"].text) == "" then None
    else if Strip(body) == "" then None
    else Some(Manifest(meta["name"].text, Strip(meta["description"].text), Strip(body)))
  }

  // ---- reading back what was rendered ----

  lemma NameIsPlain(name: string)
    requires ValidName(name)
    ensures OneLine(name) && Trimmed(name) && Strip(name) == name
    ensures forall c :: c in name ==> c != ':' && c != '"' && c != '\'' && c != '[' && c != '{'
  {
    assert name[0] in name && name[|name| - 1] in name;
    StripFacts(name);
  }

  predicate IsKey(key: string) {
    key == "name" || key == "description"
  }

  lemma KeyFacts(key: string)
    requires IsKey(key)
    ensures key != "" && Trimmed(key) && OneLine(key) && !IsSpace(key[0]) && key[0] != '#'
    ensures forall i :: 0 <= i < |key| ==> key[i] != ':'
  {
  }

  /** A line `key: value` of one of the two keys. */
  lemma PairSplits(key: string, value: string)
    requires key != "" && Trimmed(key) && forall i :: 0 <= i < |key| ==> key[i] != ':'
    ensures SplitPair(key + ": " + value) == Some((key, Strip(value)))
  {
    var line := key + ": " + value;
    assert line[|key|] == ':' && OccursAt(line, ":", |key|);
    forall i: nat | i < |key|
      ensures !OccursAt(line, ":", i)
    {
      assert line[i] == key[i] != ':';
      assert line[i..i + 1][0] == line[i];
    }
    assert line[..|key|] == key && line[|key| + 1..] == " " + value;
    StripFacts(key);
    StripAfterSpace(value);
  }

  lemma PairLine(key: string, value: string)
    requires IsKey(key) && OneLine(value)
    ensures OneLine(key + ": " + value) && !Ignored(key + ": " + value)
    ensures (key + ": " + value)[0] == key[0]
    ensures SplitPair(key + ": " + value) == Some((key, Strip(value)))
  {
    KeyFacts(key);
    PairSplits(key, value);
    var line := key + ": " + value;
    assert line[0] == key[0];
    NotBlank(line);
    forall c | c in line
      ensures !IsBreak(c)
    {
      assert c in key || c == ':' || c == ' ' || c in value;
    }
  }

  lemma NotBlank(line: string)
    requires line != "" && !IsSpace(line[0]) && line[0] != '#'
    ensures !Ignored(line)
  {
    assert TrimLeft(line, IsSpace) == line;
    TrimRightFacts(line, IsSpace);
    RightKeeps(line, IsSpace);
  }

  lemma {:induction false} RightKeeps(s: string, p: char -> bool)
    requires s != "" && !p(s[0])
    ensures TrimRight(s, p) != "" && TrimRight(s, p)[0] == s[0]
  {
    if p(s[|s| - 1]) {
      RightKeeps(s[..|s| - 1], p);
    }
  }

  function Content(l1: string, l2: string, tail: string): string {
    "---\n" + l1 + "\n" + l2 + "\n---" + tail
  }

  lemma RenderIsContent(name: string, description: string, instructions: string)
    ensures Render(name, description, instructions)
         == Content("name: " + name, "description: " + description, "\n\n" + Strip(instructions) + "\n")
  {
    var t := Strip(instructions);
    assert "---\nname: " == "---\n" + "name: ";
    assert "\ndescription: " == "\n" + "description: ";
    assert "\n---\n\n" == "\n---" + "\n\n";
    assert "---\n" + ("name: " + name) == "---\nname: " + name;
    assert "---\nname: " + name + "\n" + ("description: " + description)
        == "---\nname: " + name + "\ndescription: " + description;
    assert "---\nname: " + name + "\ndescription: " + description + "\n---" + ("\n\n" + t + "\n")
        == "---\nname: " + name + "\ndescription: " + description + "\n---\n\n" + t + "\n";
  }

  lemma CutAfter(s: string, i: nat, a: string, b: string)
    requires i <= |s| && s[i..] == a + b
    ensures i + |a| <= |s| && s[i..i + |a|] == a && s[i + |a|..] == b
  {
    assert s[i..i + |a|] == s[i..][..|a|];
    assert s[i + |a|..] == s[i..][|a|..];
  }

  /** The content from its second line on, and from the closing fence on. */
  function FromSecond(l2: string, tail: string): string { l2 + ("\n---" + tail) }

  function FromFirst(l1: string, l2: string, tail: string): string { l1 + ("\n" + FromSecond(l2, tail)) }

  lemma ContentStarts(l1: string, l2: string, tail: string)
    ensures var s := Content(l1, l2, tail); |s| >= 4 && s[..4] == "---\n" && s[4..] == FromFirst(l1, l2, tail)
  {
    assert Content(l1, l2, tail) == "---\n" + FromFirst(l1, l2, tail);
  }

  lemma FirstLineAt(s: string, l1: string, l2: string, tail: string)
    requires |s| >= 4 && s[4..] == FromFirst(l1, l2, tail)
    ensures var m := 4 + |l1|;
      m < |s| && s[4..m] == l1 && s[m] == '\n' && s[m + 1..] == FromSecond(l2, tail)
  {
    CutAfter(s, 4, l1, "\n" + FromSecond(l2, tail));
    CutAfter(s, 4 + |l1|, "\n", FromSecond(l2, tail));
    assert s[4 + |l1|..4 + |l1| + 1][0] == s[4 + |l1|];
  }

  lemma SecondLineAt(s: string, i: nat, l2: string, tail: string)
    requires i <= |s| && s[i..] == FromSecond(l2, tail)
    ensures var e := i + |l2|;
      |s| == e + 4 + |tail| && s[i..e] == l2 && s[e..e + 4] == "\n---" && s[e + 4..] == tail
  {
    CutAfter(s, i, l2, "\n---" + tail);
    CutAfter(s, i + |l2|, "\n---", tail);
  }

  lemma ContentAt(l1: string, l2: string, tail: string)
    ensures var s, m, e := Content(l1, l2, tail), 4 + |l1|, 5 + |l1| + |l2|;
      && |s| == e + 4 + |tail|
      && s[..4] == "---\n" && s[4..m] == l1 && s[m] == '\n' && s[m + 1..e] == l2
      && s[e..e + 4] == "\n---" && s[e + 4..] == tail
  {
    var s := Content(l1, l2, tail);
    ContentStarts(l1, l2, tail);
    FirstLineAt(s, l1, l2, tail);
    SecondLineAt(s, 5 + |l1|, l2, tail);
  }

  lemma LinesTogether(s: string, m: nat, e: nat, l1: string, l2: string)
    requires 4 <= m < e <= |s| && s[4..m] == l1 && s[m] == '\n' && s[m + 1..e] == l2
    ensures s[4..e] == l1 + "\n" + l2
  {
    assert s[4..e] == s[4..m] + [s[m]] + s[m + 1..e];
  }

  /** A closing fence starts with a line feed and a dash. */
  lemma NoFenceAt(s: string, i: nat)
    requires i + 1 < |s| ==> s[i] != '\n' || s[i + 1] != '-'
    ensures !OccursAt(s, "\n---", i)
  {
    if i + 4 <= |s| {
      assert s[i..i + 4][0] == s[i] && s[i..i + 4][1] == s[i + 1];
    }
  }

  lemma NoBreakInside(s: string, a: nat, b: nat, line: string, i: nat)
    requires a <= i < b <= |s| && s[a..b] == line && OneLine(line)
    ensures s[i] != '\n'
  {
    assert s[i] == line[i - a];
    assert line[i - a] in line;
  }

  /** The front matter ends where it was rendered to end. */
  lemma FrontMatterEnds(l1: string, l2: string, tail: string)
    requires OneLine(l1) && OneLine(l2) && l2 != "" && l2[0] != '-'
    ensures Find(Content(l1, l2, tail), "\n---", 4) == Some(5 + |l1| + |l2|)
  {
    var s, m, e := Content(l1, l2, tail), 4 + |l1|, 5 + |l1| + |l2|;
    ContentAt(l1, l2, tail);
    assert OccursAt(s, "\n---", e);
    assert s[m + 1] == s[m + 1..e][0] == l2[0];
    forall i: nat | 4 <= i < e
      ensures !OccursAt(s, "\n---", i)
    {
      if i < m {
        NoBreakInside(s, 4, m, l1, i);
      } else if i > m {
        NoBreakInside(s, m + 1, e, l2, i);
      }
      NoFenceAt(s, i);
    }
  }

  lemma SplitFileAt(s: string, e: nat, front: string, tail: string)
    requires |s| >= 4 && s[..4] == "---\n" && Find(s, "\n---", 4) == Some(e)
    requires s[4..e] == front && e + 4 <= |s| && s[e + 4..] == tail
    ensures SplitFile(s) == Some((SplitLines(front), TrimLeft(tail, IsNewline)))
  {
    assert "---\n" <= s;
  }

  lemma FileParts(l1: string, l2: string, tail: string)
    requires OneLine(l1) && OneLine(l2) && l2 != "" && l2[0] != '-'
    ensures SplitFile(Content(l1, l2, tail)) == Some(([l1, l2], TrimLeft(tail, IsNewline)))
  {
    ContentAt(l1, l2, tail);
    FrontMatterEnds(l1, l2, tail);
    LinesTogether(Content(l1, l2, tail), 4 + |l1|, 5 + |l1| + |l2|, l1, l2);
    TwoLines(l1, l2);
    SplitFileAt(Content(l1, l2, tail), 5 + |l1| + |l2|, l1 + "\n" + l2, tail);
  }

  lemma BodyReadsBack(instructions: string)
    requires Strip(instructions) != ""
    ensures Strip(TrimLeft("\n\n" + Strip(instructions) + "\n", IsNewline)) == Strip(instructions)
  {
    StripFacts(instructions);
    var t := Strip(instructions);
    var s := "\n\n" + t + "\n";
    assert s[1..] == "\n" + t + "\n" && s[1..][1..] == t + "\n";
    assert TrimLeft(s, IsNewline) == TrimLeft(s[1..], IsNewline) == TrimLeft(t + "\n", IsNewline) == t + "\n";
    assert (t + "\n")[..|t|] == t;
    assert TrimLeft(t + "\n", IsSpace) == t + "\n";
    assert TrimRight(t + "\n", IsSpace) == TrimRight(t, IsSpace) == t;
  }

  lemma ParseTwo(l1: string, l2: string, json: string -> bool)
    ensures ParseLines([l1, l2], json) ==
      var st := ParseLine(State(map[], None), l1, json);
      if st.None? then None else ParseLine(st.value, l2, json)
  {
    assert [l1, l2][..1] == [l1];
    assert [l1][..0] == [];
    assert ParseLines([], json) == Some(State(map[], None));
    assert ParseLines([l1], json) == ParseLine(State(map[], None), l1, json);
  }

  /** A `key: value` line at the top level. */
  lemma PairParses(st: State, key: string, value: string, json: string -> bool)
    requires Linked(st) && OneLine(value) && IsKey(key)
    ensures var v := Strip(value);
      ParseLine(st, key + ": " + value, json) ==
        if v == "" then Some(State(st.parsed[key := Nested(map[])], Some(key)))
        else if ParseValue(v, json).None? then None
        else Some(State(st.parsed[key := ParseValue(v, json).value], None))
  {
    PairLine(key, value);
    KeyFacts(key);
  }

  function DescriptionValue(description: string, json: string -> bool): Option<Value> {
    if Strip(description) == "" then Some(Nested(map[])) else ParseValue(Strip(description), json)
  }

  function Named(name: string): State { State(map["name" := Str(name)], None) }

  lemma NameParses(name: string, json: string -> bool)
    requires ValidName(name)
    ensures ParseLine(State(map[], None), "name: " + name, json) == Some(Named(name))
  {
    NameIsPlain(name);
    assert name[0] in name;
    PairParses(State(map[], None), "name", name, json);
    assert "name" + ": " + name == "name: " + name;
    assert map[]["name" := Str(name)] == map["name" := Str(name)];
  }

  lemma DescriptionParses(name: string, description: string, json: string -> bool)
    requires OneLine(description)
    ensures var st, x := ParseLine(Named(name), "description: " + description, json),
                         DescriptionValue(description, json);
      if x.None? then st.None?
      else st.Some? && st.value.parsed == map["name" := Str(name), "description" := x.value]
  {
    PairParses(Named(name), "description", description, json);
    assert "description" + ": " + description == "description: " + description;
  }

  /** What the rendered front matter parses to. */
  lemma FrontMatterReadsBack(name: string, description: string, json: string -> bool)
    requires ValidName(name) && OneLine(description)
    ensures var st, x := ParseLines(["name: " + name, "description: " + description], json),
                         DescriptionValue(description, json);
      if x.None? then st.None?
      else st.Some? && st.value.parsed == map["name" := Str(name), "description" := x.value]
  {
    var l1, l2 := "name: " + name, "description: " + description;
    NameParses(name, json);
    DescriptionParses(name, description, json);
    ParseTwo(l1, l2, json);
  }

  predicate StartsPlain(d: string) {
    d != "" && d[0] != '"' && d[0] != '\'' && d[0] != '[' && d[0] != '{'
  }

  function ReadBack(name: string, x: Option<Value>, body: string): Option<Manifest> {
    if x.None? || !x.value.Str? || Strip(x.value.text) == "" then None
    else Some(Manifest(name, Strip(x.value.text), body))
  }

  lemma RenderedFile(name: string, description: string, instructions: string)
    requires ValidName(name) && OneLine(description)
    ensures SplitFile(Render(name, description, instructions))
         == Some((["name: " + name, "description: " + description],
                  TrimLeft("\n\n" + Strip(instructions) + "\n", IsNewline)))
  {
    NameIsPlain(name);
    RenderIsContent(name, description, instructions);
    PairLine("name", name);
    PairLine("description", description);
    FileParts("name: " + name, "description: " + description, "\n\n" + Strip(instructions) + "\n");
  }

  lemma ManifestReadsBack(name: string, x: Value, body: string)
    requires ValidName(name) && Strip(body) != ""
    ensures ManifestOf(map["name" := Str(name), "description" := x], body, name)
         == ReadBack(name, Some(x), Strip(body))
  {
    NameIsPlain(name);
  }

  /** What validating a rendered file with a one-line description gives. */
  lemma OneLineReadsBack(name: string, description: string, instructions: string, json: string -> bool)
    requires ValidName(name) && Strip(instructions) != "" && OneLine(description)
    ensures Validate(Render(name, description, instructions), name, json)
         == ReadBack(name, DescriptionValue(description, json), Strip(instructions))
  {
    RenderedFile(name, description, instructions);
    FrontMatterReadsBack(name, description, json);
    BodyReadsBack(instructions);
    var x := DescriptionValue(description, json);
    if x.Some? {
      ManifestReadsBack(name, x.value, TrimLeft("\n\n" + Strip(instructions) + "\n", IsNewline));
    }
  }

  // ---- a description of several lines never comes back ----

  ghost predicate OneLineValues(parsed: map<string, Value>) {
    forall k :: k in parsed && parsed[k].Str? ==> OneLine(parsed[k].text)
  }

  lemma LineKeepsOneLine(st: State, line: string, json: string -> bool)
    requires Linked(st) && OneLineValues(st.parsed) && OneLine(line)
    ensures ParseLine(st, line, json).Some? ==> OneLineValues(ParseLine(st, line, json).value.parsed)
  {
    var pair := SplitPair(line);
    if pair.Some? {
      var colon := Find(line, ":", 0).value;
      StripFacts(line[colon + 1..]);
      assert OneLine(pair.value.1);
    }
  }

  lemma {:induction false} LinesKeepOneLine(lines: seq<string>, json: string -> bool)
    requires forall line :: line in lines ==> OneLine(line)
    ensures ParseLines(lines, json).Some? ==> OneLineValues(ParseLines(lines, json).value.parsed)
  {
    if lines != [] {
      LinesKeepOneLine(lines[..|lines| - 1], json);
      var st := ParseLines(lines[..|lines| - 1], json);
      if st.Some? {
        LineKeepsOneLine(st.value, lines[|lines| - 1], json);
      }
    }
  }

  lemma DescriptionsAreOneLine(content: string, directory: string, json: string -> bool)
    ensures Validate(content, directory, json).Some? ==>
      OneLine(Validate(content, directory, json).value.description)
  {
    var file := SplitFile(content);
    if file.Some? {
      LinesKeepOneLine(file.value.0, json);
      var st := ParseLines(file.value.0, json);
      if st.Some? && "description" in st.value.parsed && st.value.parsed["description"].Str? {
        StripFacts(st.value.parsed["description"].text);
      }
    }
  }

  /** A one-line description is its own value exactly when it is trimmed and starts plainly. */
  lemma PlainDescription(name: string, d: string, body: string, json: string -> bool)
    ensures ReadBack(name, DescriptionValue(d, json), body) == Some(Manifest(name, d, body))
      <==> Trimmed(d) && StartsPlain(d)
  {
    StripFacts(d);
    var x := DescriptionValue(d, json);
    if x.Some? && x.value.Str? {
      StripFacts(x.value.text);
    }
  }

  /** For a valid name and instructions that are not blank, the rendered file reads back as it was written,
      with the instructions trimmed, exactly when the description is one trimmed line that does not start
      like a quoted text or a JSON value. */
  lemma RenderedSkillReadsBack(name: string, description: string, instructions: string, json: string -> bool)
    requires ValidName(name) && Strip(instructions) != ""
    ensures Validate(Render(name, description, instructions), name, json)
              == Some(Manifest(name, description, Strip(instructions)))
      <==> OneLine(description) && Trimmed(description) && StartsPlain(description)
  {
    if OneLine(description) {
      OneLineReadsBack(name, description, instructions, json);
      PlainDescription(name, description, Strip(instructions), json);
    } else {
      DescriptionsAreOneLine(Render(name, description, instructions), name, json);
    }
  }

  /** A quoted description is accepted, and reads back as another one. */
  lemma QuotedDescriptionLosesItsQuotes(name: string, instructions: string, json: string -> bool)
    requires ValidName(name) && Strip(instructions) != ""
    ensures Validate(Render(name, "\"x\"", instructions), name, json)
         == Some(Manifest(name, "x", Strip(instructions)))
  {
    var quoted := "\"x\"";
    assert OneLine(quoted) && Trimmed(quoted) && Trimmed("x");
    StripFacts(quoted);
    StripFacts("x");
    assert quoted[1..2] == "x";
    OneLineReadsBack(name, quoted, instructions, json);
  }

  // ---- lines of any front matter ----

  /** A line that is blank, or a comment. */
  ghost predicate SaysNothing(line: string) {
    (forall c :: c in line ==> IsSpace(c)) || Comment(line)
  }

  /** White space, a hash sign, anything. */
  ghost predicate Comment(line: string) {
    exists k :: 0 <= k < |line| && line[k] == '#' && forall i :: 0 <= i < k ==> IsSpace(line[i])
  }

  lemma {:induction false} AllSpaceIsTrimmed(line: string)
    requires forall c :: c in line ==> IsSpace(c)
    ensures TrimLeft(line, IsSpace) == ""
  {
    if line != "" {
      assert line[0] in line;
      AllSpaceIsTrimmed(line[1..]);
    }
  }

  lemma {:induction false} CommentStarts(line: string, k: nat)
    requires k < |line| && line[k] == '#' && forall i :: 0 <= i < k ==> IsSpace(line[i])
    ensures TrimLeft(line, IsSpace) != "" && TrimLeft(line, IsSpace)[0] == '#'
  {
    if k > 0 {
      assert line[0] == line[0];
      CommentStarts(line[1..], k - 1);
    }
  }

  lemma NothingIsIgnored(line: string)
    requires SaysNothing(line)
    ensures Ignored(line)
  {
    if Comment(line) {
      var k :| 0 <= k < |line| && line[k] == '#' && forall i :: 0 <= i < k ==> IsSpace(line[i]);
      CommentStarts(line, k);
    } else {
      AllSpaceIsTrimmed(line);
    }
  }

  /** Blank lines and comments may stand anywhere. */
  lemma {:induction false} NothingChangesNothing(a: seq<string>, line: string, b: seq<string>, json: string -> bool)
    requires SaysNothing(line)
    ensures ParseLines(a + [line] + b, json) == ParseLines(a + b, json)
    decreases |b|
  {
    if b == [] {
      assert a + [line] + b == a + [line] && (a + [line])[..|a|] == a && a + b == a;
      NothingIsIgnored(line);
    } else {
      var n := |b| - 1;
      LastApart(a + [line], b);
      LastApart(a, b);
      NothingChangesNothing(a, line, b[..n], json);
    }
  }

  lemma LastApart(a: seq<string>, b: seq<string>)
    requires b != []
    ensures a + b != [] && (a + b)[|a + b| - 1] == b[|b| - 1] && (a + b)[..|a + b| - 1] == a + b[..|b| - 1]
  {
  }

  /** A key as it may stand before a colon, and a value that is text as it stands. */
  ghost predicate PlainPair(key: string, value: string) {
    && key != "" && Trimmed(key) && key[0] != '#' && (forall i :: 0 <= i < |key| ==> key[i] != ':')
    && Trimmed(value) && StartsPlain(value)
  }

  lemma PlainPairSplits(key: string, value: string)
    requires PlainPair(key, value)
    ensures SplitPair(key + ": " + value) == Some((key, value)) && ParseValue(value, _ => false) == Some(Str(value))
    ensures Trimmed(key + ": " + value) && !Ignored(key + ": " + value) && (key + ": " + value)[0] == key[0]
  {
    PairSplits(key, value);
    StripFacts(value);
    var line := key + ": " + value;
    assert line[0] == key[0] && line[|line| - 1] == value[|value| - 1];
    NotBlank(line);
  }

  /** A plain pair at the top level sets its key, whatever it was before, and ends a mapping. */
  lemma TopPairSets(lines: seq<string>, key: string, value: string, json: string -> bool)
    requires PlainPair(key, value)
    ensures var before, after := ParseLines(lines, json), ParseLines(lines + [key + ": " + value], json);
      after == if before.None? then None else Some(State(before.value.parsed[key := Str(value)], None))
  {
    var line := key + ": " + value;
    assert (lines + [line])[..|lines|] == lines;
    PlainPairSplits(key, value);
  }

  lemma IndentedLine(indent: char, key: string, value: string)
    requires PlainPair(key, value) && (indent == ' ' || indent == '\t')
    ensures var line := [indent] + (key + ": " + value);
      Strip(line) == key + ": " + value && !Ignored(line)
  {
    var text := key + ": " + value;
    PlainPairSplits(key, value);
    StripFacts(text);
    var line := [indent] + text;
    assert line[1..] == text && TrimLeft(line, IsSpace) == TrimLeft(text, IsSpace) == text;
  }

  /** An indented pair goes into the mapping that was opened last, and is an error when none is open. */
  lemma IndentedPairAdds(lines: seq<string>, indent: char, key: string, value: string, json: string -> bool)
    requires PlainPair(key, value) && (indent == ' ' || indent == '\t')
    ensures var before := ParseLines(lines, json);
      var after := ParseLines(lines + [[indent] + (key + ": " + value)], json);
      if before.None? || before.value.current.None? then after.None?
      else
        var open := before.value.current.value;
        && open in before.value.parsed && before.value.parsed[open].Nested?
        && after == Some(State(
             before.value.parsed[open := Nested(before.value.parsed[open].entries[key := Str(value)])], Some(open)))
  {
    var line := [indent] + (key + ": " + value);
    assert (lines + [line])[..|lines|] == lines;
    PlainPairSplits(key, value);
    IndentedLine(indent, key, value);
  }

  /** A key without a value opens an empty mapping. */
  lemma BareKeyOpens(lines: seq<string>, key: string, json: string -> bool)
    requires key != "" && Trimmed(key) && key[0] != '#' && forall i :: 0 <= i < |key| ==> key[i] != ':'
    ensures var before, after := ParseLines(lines, json), ParseLines(lines + [key + ": "], json);
      after == if before.None? then None else Some(State(before.value.parsed[key := Nested(map[])], Some(key)))
  {
    var line := key + ": " + "";
    assert line == key + ": " && (lines + [line])[..|lines|] == lines && line[0] == key[0];
    PairSplits(key, "");
    NotBlank(line);
  }
}
