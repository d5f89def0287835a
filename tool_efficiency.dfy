/** The tool-efficiency eval scorer (`scoreToolEfficiency`): the tool-call count is read out
    of the agent's output, then an early-return ladder grades it — no tools, too many tools,
    expected tools not mentioned, or efficient. Scores are kept in tenths (0.3 is 3). */
module ToolEfficiency {
  import opened Wrappers
  import opened JsStrings

  // ---------------------------------------------------------------------------------------
  // `output.match(/Tool calls: (\d+)/)` and `parseInt(match[1], 10)`

  const Marker: string := "Tool calls: "

  /** A match of `/Tool calls: (\d+)/` starts at `i`: the marker, then at least one digit. */
  predicate MatchesAt(output: string, i: nat) {
    i + |Marker| < |output| && output[i..i + |Marker|] == Marker && IsDigit(output[i + |Marker|])
  }

  /** The leftmost match at or after `from`, as the regular expression finds it. */
  function FirstMatchFrom(output: string, from: nat): (r: Option<nat>)
    ensures r.Some? ==> from <= r.value && MatchesAt(output, r.value)
    ensures r.Some? ==> forall j :: from <= j < r.value ==> !MatchesAt(output, j)
    ensures r.None? ==> forall j :: from <= j ==> !MatchesAt(output, j)
    decreases |output| - from
  {
    if from + |Marker| >= |output| then None
    else if MatchesAt(output, from) then Some(from)
    else FirstMatchFrom(output, from + 1)
  }

  /** The length of the run of digits starting at `i`: `\d+` is greedy. */
  function DigitRunLength(s: string, i: nat): (n: nat)
    requires i <= |s|
    ensures i + n <= |s|
    ensures forall k :: i <= k < i + n ==> IsDigit(s[k])
    ensures i + n == |s| || !IsDigit(s[i + n])
    decreases |s| - i
  {
    if i < |s| && IsDigit(s[i]) then 1 + DigitRunLength(s, i + 1) else 0
  }

  /** `toolUseCount`: the number after the first `Tool calls: ` that is followed by digits,
      or 0 when there is none. */
  function ToolCount(output: string): (n: nat)
    ensures FirstMatchFrom(output, 0).None? ==> n == 0
  {
    match FirstMatchFrom(output, 0)
    case None => 0
    case Some(i) =>
      var start := i + |Marker|;
      var len := DigitRunLength(output, start);
      var digits := output[start..start + len];
      assert forall k :: 0 <= k < |digits| ==> digits[k] == output[start + k];
      DigitsValue(digits)
  }

  /** Writing a count after the marker, at the start of the output, reads it back, whatever
      follows as long as it does not extend the numeral. */
  lemma ToolCountRoundTrip(n: nat, rest: string)
    requires rest == [] || !IsDigit(rest[0])
    ensures ToolCount(Marker + NatToString(n) + rest) == n
  {
    var ds := NatToString(n);
    var s := Marker + ds + rest;
    var start := |Marker|;
    assert s[..start] == Marker;
    assert s[0..start] == Marker;
    assert s[start] == ds[0];
    assert MatchesAt(s, 0);
    assert FirstMatchFrom(s, 0) == Some(0);
    if rest != [] {
      assert s[start + |ds|] == rest[0];
    }
    var len := DigitRunLength(s, start);
    assert len == |ds|;
    assert s[start..start + len] == ds;
    DigitsValueOfNatToString(n);
  }

  /** An output that never mentions the marker has a count of 0. */
  lemma NoMarkerNoCount(output: string)
    requires !Contains(output, Marker)
    ensures ToolCount(output) == 0
  {
    match FirstMatchFrom(output, 0)
    case None =>
    case Some(i) =>
      assert OccursAt(output, Marker, i);
      assert false;
  }

  // ---------------------------------------------------------------------------------------
  // The scorer

  /** `context.vars`, both fields optional. */
  datatype Vars = Vars(expectedTools: Option<seq<string>>, maxToolCalls: Option<int>)

  /** The scorer's input; `vars` is `None` when `context` or `context.vars` is missing. */
  datatype ScorerInput = ScorerInput(output: string, vars: Option<Vars>)

  /** The verdict; `score` is in tenths. */
  datatype ScorerOutput = ScorerOutput(pass: bool, score: nat, reason: string)

  /** `context?.vars?.expectedTools || []` (an array, even an empty one, is truthy). */
  function ExpectedTools(vars: Option<Vars>): seq<string> {
    if vars.Some? && vars.value.expectedTools.Some? then vars.value.expectedTools.value else []
  }

  /** `context?.vars?.maxToolCalls || 20`: a missing maximum and a maximum of 0 both mean 20. */
  function MaxToolCalls(vars: Option<Vars>): (m: int)
    ensures m != 0
  {
    if vars.Some? && vars.value.maxToolCalls.Some? && vars.value.maxToolCalls.value != 0 then
      vars.value.maxToolCalls.value
    else 20
  }

  /** The output mentions the tool, ignoring ASCII case. */
  predicate Mentions(output: string, tool: string) {
    Contains(ToLowerAscii(output), ToLowerAscii(tool))
  }

  /** `expectedTools.filter(tool => !output.toLowerCase().includes(tool.toLowerCase()))`. */
  function MissingTools(output: string, expected: seq<string>): (missing: seq<string>)
    ensures |missing| <= |expected|
    ensures forall t :: t in missing <==> t in expected && !Mentions(output, t)
  {
    if expected == [] then []
    else
      var init, tool := expected[..|expected| - 1], expected[|expected| - 1];
      assert expected == init + [tool];
      MissingTools(output, init) + (if Mentions(output, tool) then [] else [tool])
  }

  /** The missing tools keep the order they were expected in: they are a subsequence. */
  lemma {:induction false} MissingToolsInOrder(output: string, expected: seq<string>, i: nat, j: nat)
    requires i < j < |MissingTools(output, expected)|
    ensures exists a, b :: (0 <= a < b < |expected| &&
      expected[a] == MissingTools(output, expected)[i] && expected[b] == MissingTools(output, expected)[j])
  {
    var init, tool := expected[..|expected| - 1], expected[|expected| - 1];
    var front := MissingTools(output, init);
    var missing := MissingTools(output, expected);
    assert missing == front + (if Mentions(output, tool) then [] else [tool]);
    if j < |front| {
      MissingToolsInOrder(output, init, i, j);
      var a, b :| 0 <= a < b < |init| && init[a] == front[i] && init[b] == front[j];
      assert expected[a] == init[a] && expected[b] == init[b];
    } else {
      assert missing[j] == tool;
      assert front[i] in MissingTools(output, init);
      var a :| 0 <= a < |init| && init[a] == front[i];
      assert expected[a] == init[a];
      assert expected[|expected| - 1] == tool;
    }
  }

  const NoToolsReason: string := "No tools were used - agent may not have accessed codebase"

  function TooManyReason(count: nat, max: int): string {
    "Too many tool calls (" + NatToString(count) + "), expected max " + IntToString(max)
  }

  function MissingReason(missing: seq<string>): string {
    "Missing expected tool usage or mentions: " + Join(missing, ", ")
  }

  function EfficientReason(count: nat): string {
    "Efficient tool usage: " + NatToString(count) + " calls"
  }

  /** `scoreToolEfficiency`. */
  function ScoreToolEfficiency(input: ScorerInput): (r: ScorerOutput)
    ensures r.pass <==> r.score == 10
    ensures r.score in {0, 3, 5, 10}
  {
    var count := ToolCount(input.output);
    var max := MaxToolCalls(input.vars);
    if count == 0 then ScorerOutput(false, 0, NoToolsReason)
    else if count > max then ScorerOutput(false, 3, TooManyReason(count, max))
    else
      var missing := MissingTools(input.output, ExpectedTools(input.vars));
      if |missing| > 0 then ScorerOutput(false, 5, MissingReason(missing))
      else ScorerOutput(true, 10, EfficientReason(count))
  }

  /** The rungs of the ladder, checked in order: no tools, too many, missing mentions,
      efficient. */
  lemma ScoreLadder(input: ScorerInput)
    ensures var count, max := ToolCount(input.output), MaxToolCalls(input.vars);
      var missing := MissingTools(input.output, ExpectedTools(input.vars));
      var r := ScoreToolEfficiency(input);
      (r.score == 0 <==> count == 0) &&
      (r.score == 0 ==> r.reason == NoToolsReason) &&
      (r.score == 3 <==> count > 0 && count > max) &&
      (r.score == 3 ==> r.reason == TooManyReason(count, max)) &&
      (r.score == 5 <==> 0 < count <= max && missing != []) &&
      (r.score == 5 ==> r.reason == MissingReason(missing)) &&
      (r.score == 10 ==> r.reason == EfficientReason(count))
  {
  }

  /** A pass means exactly: some tools were used, no more than the maximum, and every expected
      tool is mentioned. */
  lemma PassExactly(input: ScorerInput)
    ensures ScoreToolEfficiency(input).pass <==>
      0 < ToolCount(input.output) <= MaxToolCalls(input.vars) &&
      forall t :: t in ExpectedTools(input.vars) ==> Mentions(input.output, t)
  {
    var missing := MissingTools(input.output, ExpectedTools(input.vars));
    if missing != [] {
      assert missing[0] in missing;
    }
  }

  /** With no expected tools the missing-tools rung is never reached. */
  lemma EmptyExpectedNeverMissing(output: string, max: Option<int>)
    ensures ScoreToolEfficiency(ScorerInput(output, Some(Vars(None, max)))).score != 5
    ensures ScoreToolEfficiency(ScorerInput(output, Some(Vars(Some([]), max)))).score != 5
    ensures ScoreToolEfficiency(ScorerInput(output, None)).score != 5
  {
  }

  /** Twenty calls without a maximum pass when nothing is expected; twenty-one do not. */
  lemma DefaultMaximumExample()
    ensures ScoreToolEfficiency(ScorerInput(Marker + "20", None)).pass
    ensures ScoreToolEfficiency(ScorerInput(Marker + "21", None)).score == 3
  {
    assert NatToString(20) == "20";
    assert NatToString(21) == "21";
    ToolCountRoundTrip(20, "");
    ToolCountRoundTrip(21, "");
    assert Marker + "20" + "" == Marker + "20";
    assert Marker + "21" + "" == Marker + "21";
  }
}
