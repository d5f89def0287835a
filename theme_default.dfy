/** The default terminal theme (`DefaultTheme`): the text it derives from its arguments
    before styling it, the row order of the tool-usage table, and the field holding the
    current spinner. Colours, boxes, tables and the spinner animation are not modelled. */
module ThemeDefault {
  import opened Wrappers
  import opened JsStrings
  import ToolCounts

  // ---------------------------------------------------------------------------------------
  // formatToolInput

  /** Commands longer than this are cut. */
  const MaxCommandLength: nat := 60

  /** The index of the first key whose value in the record is truthy, or `|keys|` when there
      is none (`a || b || c`). */
  function FirstTruthyIndex(input: JsRecord, keys: seq<string>): (i: nat)
    ensures i <= |keys|
    ensures forall j :: 0 <= j < i ==> !TruthyAt(input, keys[j])
    ensures i < |keys| ==> TruthyAt(input, keys[i])
  {
    if keys == [] then 0
    else if TruthyAt(input, keys[0]) then 0
    else 1 + FirstTruthyIndex(input, keys[1..])
  }

  /** `(input[k1] || input[k2] || input[k3]) as string || ''`, as the line shows it. */
  function FirstTruthy(input: JsRecord, keys: seq<string>): (r: string)
    ensures FirstTruthyIndex(input, keys) == |keys| ==> r == ""
    ensures FirstTruthyIndex(input, keys) < |keys| ==>
      r == ToJsString(input[keys[FirstTruthyIndex(input, keys)]])
  {
    var i := FirstTruthyIndex(input, keys);
    if i < |keys| then ToJsString(input[keys[i]]) else ""
  }

  /** The Bash summary: a truthy string command, cut to 60 characters plus `...` when longer;
      anything else gives the empty string. */
  function BashSummary(input: JsRecord): (r: string)
    ensures |r| <= MaxCommandLength + 3
    ensures !("command" in input && input["command"].Str? && input["command"].s != "") ==> r == ""
    ensures "command" in input && input["command"].Str? && input["command"].s != "" ==>
      var command := input["command"].s;
      (|command| <= MaxCommandLength ==> r == command) &&
      (|command| > MaxCommandLength ==> r == command[..MaxCommandLength] + "...")
  {
    if "command" in input && input["command"].Str? && input["command"].s != "" then
      var command := input["command"].s;
      if |command| > MaxCommandLength then command[..MaxCommandLength] + "..." else command
    else ""
  }

  /** The Grep summary: the pattern in double quotes, then ` in <path>` when a path is given. */
  function GrepSummary(input: JsRecord): (r: string)
    ensures StartsWith(r, "\"" + FirstTruthy(input, ["pattern"]) + "\"")
    ensures !TruthyAt(input, "path") ==> r == "\"" + FirstTruthy(input, ["pattern"]) + "\""
    ensures TruthyAt(input, "path") ==>
      EndsWith(r, " in " + ToJsString(input["path"])) &&
      |r| == |FirstTruthy(input, ["pattern"])| + 2 + |" in " + ToJsString(input["path"])|
  {
    var quoted := "\"" + FirstTruthy(input, ["pattern"]) + "\"";
    var suffix := if TruthyAt(input, "path") then " in " + ToJsString(input["path"]) else "";
    assert (quoted + suffix)[..|quoted|] == quoted;
    assert (quoted + suffix)[|quoted + suffix| - |suffix|..] == suffix;
    quoted + suffix
  }

  const GlobKeys: seq<string> := ["pattern", "glob_pattern", "globPattern"]
  const ListDirKeys: seq<string> := ["path", "target_directory", "targetDirectory"]
  const ReadKeys: seq<string> := ["path", "file_path", "filePath"]

  /** `formatToolInput`: a one-line summary of a tool call's input, by tool; nothing for a
      tool it does not know. */
  function FormatToolInput(toolName: string, input: JsRecord): (r: string)
    ensures toolName == "Bash" ==> r == BashSummary(input)
    ensures toolName == "Glob" ==> r == FirstTruthy(input, GlobKeys)
    ensures toolName == "Grep" ==> r == GrepSummary(input)
    ensures toolName == "ListDir" ==> r == FirstTruthy(input, ListDirKeys)
    ensures toolName == "Read" ==> r == FirstTruthy(input, ReadKeys)
    ensures toolName !in ["Bash", "Glob", "Grep", "ListDir", "Read"] ==> r == ""
  {
    match toolName
    case "Bash" => BashSummary(input)
    case "Glob" => FirstTruthy(input, GlobKeys)
    case "Grep" => GrepSummary(input)
    case "ListDir" => FirstTruthy(input, ListDirKeys)
    case "Read" => FirstTruthy(input, ReadKeys)
    case _ => ""
  }

  /** `toolUse`: the tool's name, then `: ` and the summary when there is one. */
  function ToolUseLine(toolName: string, input: Option<JsRecord>): (r: string)
    ensures StartsWith(r, "  " + toolName)
    ensures input.None? ==> r == "  " + toolName
    ensures input.Some? && FormatToolInput(toolName, input.value) != "" ==>
      r == "  " + toolName + ": " + FormatToolInput(toolName, input.value)
    ensures input.Some? && FormatToolInput(toolName, input.value) == "" ==> r == "  " + toolName
  {
    var formatted := if input.Some? then FormatToolInput(toolName, input.value) else "";
    var line := "  " + toolName + (if formatted != "" then ": " + formatted else "");
    assert line[..|"  " + toolName|] == "  " + toolName;
    line
  }

  /** A cut command keeps its first 60 characters, so two long commands with the same start
      show alike. */
  lemma {:induction false} LongCommandsKeepTheirStart(command: string)
    requires |command| > MaxCommandLength
    ensures var r := BashSummary(map["command" := Str(command)]);
      |r| == MaxCommandLength + 3 && StartsWith(r, command[..MaxCommandLength]) && EndsWith(r, "...")
  {
    var r := BashSummary(map["command" := Str(command)]);
    assert r == command[..MaxCommandLength] + "...";
    assert r[..MaxCommandLength] == command[..MaxCommandLength];
    assert r[|r| - 3..] == "...";
  }

  /** Read prefers `path` to `file_path` to `filePath`, and a falsy value does not count. */
  lemma ReadPrefersPath(p: string, f: string)
    requires p != "" && f != ""
    ensures FormatToolInput("Read", map["path" := Str(p), "file_path" := Str(f)]) == p
    ensures FormatToolInput("Read", map["path" := Str(""), "file_path" := Str(f)]) == f
    ensures FormatToolInput("Read", map["path" := Null]) == ""
  {
    var m1: JsRecord := map["path" := Str(p), "file_path" := Str(f)];
    assert TruthyAt(m1, ReadKeys[0]);
    var m2: JsRecord := map["path" := Str(""), "file_path" := Str(f)];
    assert !TruthyAt(m2, ReadKeys[0]) && TruthyAt(m2, ReadKeys[1]);
    assert FirstTruthyIndex(m2, ReadKeys[1..]) == 0;
    var m3: JsRecord := map["path" := Null];
    assert !TruthyAt(m3, ReadKeys[0]) && !TruthyAt(m3, ReadKeys[1]) && !TruthyAt(m3, ReadKeys[2]);
    assert ReadKeys[1..][1..][1..] == [];
  }

  // ---------------------------------------------------------------------------------------
  // header

  /** The underline under a header: one `─` (U+2500) per character, at most 50. */
  function HeaderUnderline(text: string): (r: string)
    ensures |r| == if |text| < 50 then |text| else 50
    ensures forall i :: 0 <= i < |r| ==> r[i] == '\U{2500}'
  {
    Repeat('\U{2500}', if |text| < 50 then |text| else 50)
  }

  // ---------------------------------------------------------------------------------------
  // assistantMessage

  datatype LineKind = Heading | ListItem | Plain | BlankLine

  /** The tests `assistantMessage` applies to a trimmed line, in its order. */
  function ClassifyLine(line: string): (k: LineKind)
    ensures k == Heading <==> StartsWith(Trim(line), "#")
    ensures k == ListItem <==>
      !StartsWith(Trim(line), "#") && (StartsWith(Trim(line), "-") || StartsWith(Trim(line), "*"))
    ensures k == BlankLine <==> Trim(line) == ""
  {
    var t := Trim(line);
    if StartsWith(t, "#") then Heading
    else if StartsWith(t, "-") || StartsWith(t, "*") then ListItem
    else if t != "" then Plain
    else BlankLine
  }

  /** What one line is printed as, without its colour: a heading after an empty line, a list
      item indented by two spaces, other text as it is, a blank line as an empty one. The
      untrimmed line is what is printed. */
  function RenderLine(line: string): (r: string)
    ensures ClassifyLine(line) == BlankLine <==> r == ""
    ensures ClassifyLine(line) != BlankLine ==> EndsWith(r, line)
    ensures ClassifyLine(line) == Heading ==> r == "\n" + line
    ensures ClassifyLine(line) == ListItem ==> r == "  " + line
  {
    match ClassifyLine(line)
    case Heading =>
      assert ("\n" + line)[1..] == line;
      "\n" + line
    case ListItem =>
      assert ("  " + line)[2..] == line;
      "  " + line
    case Plain =>
      assert line != "";
      line
    case BlankLine => ""
  }

  /** A line counts as blank exactly when it is all whitespace. */
  lemma BlankLineIsAllWhitespace(line: string)
    ensures ClassifyLine(line) == BlankLine <==> forall i :: 0 <= i < |line| ==> IsWhitespace(line[i])
  {
    BlankIffAllWhitespace(line);
  }

  /** Every line rendered, in order. */
  function RenderLines(lines: seq<string>): (r: seq<string>)
    ensures |r| == |lines|
  {
    if lines == [] then [] else RenderLines(lines[..|lines| - 1]) + [RenderLine(lines[|lines| - 1])]
  }

  lemma RenderLinesSnoc(lines: seq<string>, i: nat)
    requires i < |lines|
    ensures RenderLines(lines[..i + 1]) == RenderLines(lines[..i]) + [RenderLine(lines[i])]
  {
    assert lines[..i + 1][..i] == lines[..i];
  }

  /** Line `i` of the output is line `i` of the text, rendered: nothing is dropped, merged
      or reordered. */
  lemma {:induction false} RenderLinesPointwise(lines: seq<string>, i: nat)
    requires i < |lines|
    ensures RenderLines(lines)[i] == RenderLine(lines[i])
  {
    var init, last := lines[..|lines| - 1], lines[|lines| - 1];
    var front := RenderLines(init);
    assert RenderLines(lines) == front + [RenderLine(last)];
    if i < |lines| - 1 {
      RenderLinesPointwise(init, i);
      assert init[i] == lines[i];
      assert RenderLines(lines)[i] == front[i];
    }
  }

  /** `assistantMessage`: the text split at line breaks, each line printed in turn. */
  method AssistantMessage(text: string) returns (printed: seq<string>)
    ensures printed == RenderLines(Split(text, '\n'))
  {
    var lines := Split(text, '\n');
    printed := [];
    for i := 0 to |lines|
      invariant printed == RenderLines(lines[..i])
    {
      RenderLinesSnoc(lines, i);
      printed := printed + [RenderLine(lines[i])];
    }
    assert lines[..|lines|] == lines;
  }

  // ---------------------------------------------------------------------------------------
  // displayToolStats

  predicate SortedByCountDesc(rows: seq<(string, nat)>) {
    forall i, j :: 0 <= i < j < |rows| ==> rows[i].1 >= rows[j].1
  }

  predicate AllAtLeast(rows: seq<(string, nat)>, c: nat) {
    forall i :: 0 <= i < |rows| ==> rows[i].1 >= c
  }

  /** A bound on every count survives adding one more entry that meets it. */
  lemma AtLeastOfMultiset(r: seq<(string, nat)>, rows: seq<(string, nat)>, x: (string, nat), c: nat)
    requires multiset(r) == multiset(rows) + multiset{x}
    requires AllAtLeast(rows, c) && x.1 >= c
    ensures AllAtLeast(r, c)
  {
    forall i | 0 <= i < |r| ensures r[i].1 >= c {
      assert r[i] in multiset(r);
      if r[i] != x {
        assert r[i] in multiset(rows);
        var k :| 0 <= k < |rows| && rows[k] == r[i];
      }
    }
  }

  /** Insertion of one entry after every entry with at least its count. */
  function InsertByCount(sorted: seq<(string, nat)>, x: (string, nat)): (r: seq<(string, nat)>)
    requires SortedByCountDesc(sorted)
    ensures SortedByCountDesc(r)
    ensures multiset(r) == multiset(sorted) + multiset{x}
  {
    if sorted == [] then [x]
    else if sorted[|sorted| - 1].1 >= x.1 then sorted + [x]
    else
      var init, last := sorted[..|sorted| - 1], sorted[|sorted| - 1];
      assert sorted == init + [last];
      var inserted := InsertByCount(init, x);
      AtLeastOfMultiset(inserted, init, x, last.1);
      inserted + [last]
  }

  /** `.sort((a, b) => b[1] - a[1])`: the entries by count, largest first; the sort is stable,
      so entries with equal counts keep their order. */
  function SortByCountDesc(entries: seq<(string, nat)>): (r: seq<(string, nat)>)
    ensures SortedByCountDesc(r)
    ensures multiset(r) == multiset(entries)
  {
    if entries == [] then []
    else
      var init := entries[..|entries| - 1];
      assert entries == init + [entries[|entries| - 1]];
      InsertByCount(SortByCountDesc(init), entries[|entries| - 1])
  }

  /** `displayToolStats`: nothing for an empty record, otherwise the table rows (tool, count),
      a reordering of the record's entries by count, largest first. */
  function DisplayToolStats(toolUseCounts: ToolCounts.Counts): (rows: Option<seq<(string, nat)>>)
    ensures rows.None? <==> toolUseCounts.keys == []
    ensures rows.Some? ==>
      SortedByCountDesc(rows.value) && multiset(rows.value) == multiset(toolUseCounts.Entries())
  {
    if |toolUseCounts.keys| == 0 then None else Some(SortByCountDesc(toolUseCounts.Entries()))
  }

  /** Two tools with different counts come out with the larger count first. */
  lemma SortExample()
    ensures SortByCountDesc([("Read", 1), ("Grep", 3)]) == [("Grep", 3), ("Read", 1)]
  {
    var once := SortByCountDesc([("Read", 1)]);
    assert [("Read", 1), ("Grep", 3)][..1] == [("Read", 1)];
    assert [("Read", 1)][..0] == [];
    assert once == [("Read", 1)];
    assert once[..0] == [];
  }

  // ---------------------------------------------------------------------------------------
  // The spinner field

  /** A running spinner: only the text it shows is modelled. */
  class Spinner {
    var text: string

    constructor (text: string)
      ensures this.text == text
    {
      this.text := text;
    }
  }

  /** How a spinner was ended, as the terminal shows it. */
  datatype SpinnerEnd = NoSpinner | Succeeded(message: string) | Stopped | Failed(failure: Option<string>)

  class DefaultTheme {
    var spinner: Spinner?

    constructor ()
      ensures spinner == null
    {
      spinner := null;
    }

    /** `startSpinner`: a fresh spinner replaces the field, whatever it held. */
    method StartSpinner(text: string)
      modifies this
      ensures spinner != null && fresh(spinner) && spinner.text == text
    {
      spinner := new Spinner(text);
    }

    /** `stopSpinner`: ends a running spinner, with a success line when a message is given,
        and clears the field; without a spinner it does nothing. */
    method StopSpinner(message: Option<string>) returns (ending: SpinnerEnd)
      modifies this
      ensures spinner == null
      ensures old(spinner) == null ==> ending == NoSpinner
      ensures old(spinner) != null && message.Some? && message.value != "" ==> ending == Succeeded(message.value)
      ensures old(spinner) != null && !(message.Some? && message.value != "") ==> ending == Stopped
    {
      ending := NoSpinner;
      if spinner != null {
        if message.Some? && message.value != "" {
          ending := Succeeded(message.value);
        } else {
          ending := Stopped;
        }
        spinner := null;
      }
    }

    /** `failSpinner`: ends a running spinner with a failure line and clears the field;
        without a spinner it does nothing. */
    method FailSpinner(message: Option<string>) returns (ending: SpinnerEnd)
      modifies this
      ensures spinner == null
      ensures ending == if old(spinner) == null then NoSpinner else Failed(message)
    {
      ending := NoSpinner;
      if spinner != null {
        ending := Failed(message);
        spinner := null;
      }
    }

    /** `updateSpinner`: changes a running spinner's text; without a spinner it does nothing. */
    method UpdateSpinner(text: string)
      modifies spinner
      ensures spinner == old(spinner)
      ensures spinner != null ==> spinner.text == text
    {
      if spinner != null {
        spinner.text := text;
      }
    }

    /** `getSpinner`. */
    method GetSpinner() returns (s: Spinner?)
      ensures s == spinner
    {
      s := spinner;
    }
  }

  /** Stopping twice is stopping once: the second call finds no spinner. */
  method StopTwice(theme: DefaultTheme, message: Option<string>) returns (second: SpinnerEnd)
    modifies theme
    ensures theme.spinner == null && second == NoSpinner
  {
    var _ := theme.StopSpinner(message);
    second := theme.StopSpinner(message);
  }
}
