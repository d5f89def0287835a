/** The agent run (`executeAgent`, `processAssistantMessage`): the SDK's message stream is
    folded into a count of assistant messages, a per-tool usage record, a text buffer and a
    total. The SDK itself is a parameter that maps the configuration and the prompt to the
    stream it would produce; the callbacks and the terminal output are an event trace. */
module Agent {
  import opened Wrappers
  import opened JsStrings
  import opened ToolCounts

  /** A content block of an assistant message, by its `type`. */
  datatype ContentBlock =
    | TextBlock(text: Option<string>)
    | ToolUseBlock(name: Option<string>, input: Option<JsRecord>)
    | OtherBlock(blockType: string)

  /** A message of the stream, by its `type`. */
  datatype Message =
    | Assistant(content: seq<ContentBlock>, stopReason: Option<string>)
    | ResultMessage
    | OtherMessage(messageType: string)

  datatype AgentConfig = AgentConfig(allowedTools: seq<string>, systemPrompt: Option<string>)

  /** The SDK's `query`: the stream it yields for a configuration and a prompt. */
  type Query = (AgentConfig, string) -> seq<Message>

  /** The caller's options: which callbacks are supplied, and `showUI` as given
      (`None` when omitted). */
  datatype ExecutionOptions = ExecutionOptions(
    config: AgentConfig, prompt: string, hasOnText: bool, hasOnToolUse: bool, showUI: Option<bool>)

  /** What a run makes visible besides its result: callback calls and theme calls. */
  datatype Event =
    | TextCallback(text: string)
    | ToolUseCallback(name: string, input: Option<JsRecord>)
    | SectionShown(title: string)
    | AssistantMessageShown(text: string)
    | ToolUseShown(name: string, input: Option<JsRecord>)
    | ThinkingShown

  predicate IsCallback(e: Event) {
    e.TextCallback? || e.ToolUseCallback?
  }

  datatype AgentExecutionResult = AgentExecutionResult(
    duration: real, messageCount: nat, text: string, toolUseCounts: Counts, totalToolUseCount: nat)

  /** The options with the `showUI = true` default applied. */
  datatype Hooks = Hooks(onText: bool, onToolUse: bool, showUI: bool)

  function HooksOf(options: ExecutionOptions): (h: Hooks)
    ensures h.showUI <==> options.showUI != Some(false)
  {
    Hooks(options.hasOnText, options.hasOnToolUse, options.showUI.GetOr(true))
  }

  /** A text block whose text is present and not blank. */
  predicate IsAnalysisText(b: ContentBlock) {
    b.TextBlock? && b.text.Some? && !IsBlank(b.text.value)
  }

  /** A tool-use block whose name is present and non-empty. */
  predicate IsNamedToolUse(b: ContentBlock) {
    b.ToolUseBlock? && b.name.Some? && b.name.value != ""
  }

  /** The variables `executeAgent` updates while it reads the stream. */
  datatype Accumulator = Accumulator(messageCount: nat, toolUseCounts: Counts, textOutput: string)

  const Start: Accumulator := Accumulator(0, Empty, "")

  // ---------------------------------------------------------------------------------------
  // The run, step by step, as the source performs it.

  /** The effect of the `onBlock` callback on the accumulator. */
  function OnBlock(acc: Accumulator, b: ContentBlock): Accumulator {
    match b
    case TextBlock(text) =>
      if IsAnalysisText(b) then acc.(textOutput := acc.textOutput + text.value + "\n") else acc
    case ToolUseBlock(name, _) =>
      if IsNamedToolUse(b) then
        var counts := acc.toolUseCounts;
        acc.(toolUseCounts := counts.Set(name.value, counts.Get(name.value) + 1))
      else acc
    case OtherBlock(_) => acc
  }

  /** The callback calls `onBlock` makes for one block. */
  function OnBlockEvents(b: ContentBlock, hooks: Hooks): seq<Event> {
    if IsAnalysisText(b) then (if hooks.onText then [TextCallback(b.text.value)] else [])
    else if IsNamedToolUse(b) then (if hooks.onToolUse then [ToolUseCallback(b.name.value, b.input)] else [])
    else []
  }

  /** The theme calls `processAssistantMessage` makes for one block. */
  function ShowBlock(b: ContentBlock, showUI: bool): seq<Event> {
    if !showUI then []
    else if IsAnalysisText(b) then [SectionShown("Analysis"), AssistantMessageShown(b.text.value)]
    else if IsNamedToolUse(b) then [ToolUseShown(b.name.value, b.input)]
    else []
  }

  /** Everything one block makes visible: the callback first, then the theme. */
  function BlockEvents(b: ContentBlock, hooks: Hooks): seq<Event> {
    OnBlockEvents(b, hooks) + ShowBlock(b, hooks.showUI)
  }

  /** The thinking indicator after an assistant message that stopped to use a tool. */
  function ThinkingEvents(stopReason: Option<string>, showUI: bool): seq<Event> {
    if stopReason == Some("tool_use") && showUI then [ThinkingShown] else []
  }

  /** Every block goes through `onBlock`, once, in order. */
  function AfterBlocks(acc: Accumulator, bs: seq<ContentBlock>): Accumulator {
    if bs == [] then acc else OnBlock(AfterBlocks(acc, bs[..|bs| - 1]), bs[|bs| - 1])
  }

  function BlocksTrace(bs: seq<ContentBlock>, hooks: Hooks): seq<Event> {
    if bs == [] then []
    else
      BlocksTrace(bs[..|bs| - 1], hooks) + BlockEvents(bs[|bs| - 1], hooks)
  }

  function AfterMessage(acc: Accumulator, m: Message): Accumulator {
    match m
    case Assistant(content, _) => AfterBlocks(acc.(messageCount := acc.messageCount + 1), content)
    case ResultMessage => acc
    case OtherMessage(_) => acc
  }

  function MessageTrace(m: Message, hooks: Hooks): seq<Event> {
    match m
    case Assistant(content, stopReason) =>
      BlocksTrace(content, hooks) + ThinkingEvents(stopReason, hooks.showUI)
    case ResultMessage => []
    case OtherMessage(_) => []
  }

  function AfterStream(acc: Accumulator, ms: seq<Message>): Accumulator {
    if ms == [] then acc else AfterMessage(AfterStream(acc, ms[..|ms| - 1]), ms[|ms| - 1])
  }

  function StreamTrace(ms: seq<Message>, hooks: Hooks): seq<Event> {
    if ms == [] then [] else StreamTrace(ms[..|ms| - 1], hooks) + MessageTrace(ms[|ms| - 1], hooks)
  }

  // ---------------------------------------------------------------------------------------
  // What the stream contains, independently of how it is read.

  function AssistantCount(ms: seq<Message>): nat {
    if ms == [] then 0 else AssistantCount(ms[..|ms| - 1]) + (if ms[|ms| - 1].Assistant? then 1 else 0)
  }

  /** The raw text a block contributes: its text if it is a non-blank text block. */
  function BlockText(b: ContentBlock): seq<string> {
    if IsAnalysisText(b) then [b.text.value] else []
  }

  /** The tool name a block contributes: its name if it is a named tool-use block. */
  function BlockToolName(b: ContentBlock): seq<string> {
    if IsNamedToolUse(b) then [b.name.value] else []
  }

  /** The raw texts of the non-blank text blocks, in order. */
  function BlockTexts(bs: seq<ContentBlock>): seq<string> {
    if bs == [] then [] else BlockTexts(bs[..|bs| - 1]) + BlockText(bs[|bs| - 1])
  }

  /** The names of the named tool-use blocks, in order. */
  function BlockToolNames(bs: seq<ContentBlock>): seq<string> {
    if bs == [] then [] else BlockToolNames(bs[..|bs| - 1]) + BlockToolName(bs[|bs| - 1])
  }

  function MessageTexts(m: Message): seq<string> {
    if m.Assistant? then BlockTexts(m.content) else []
  }

  function MessageToolNames(m: Message): seq<string> {
    if m.Assistant? then BlockToolNames(m.content) else []
  }

  /** The raw texts of the non-blank text blocks of all assistant messages, in order. */
  function StreamTexts(ms: seq<Message>): seq<string> {
    if ms == [] then [] else StreamTexts(ms[..|ms| - 1]) + MessageTexts(ms[|ms| - 1])
  }

  /** The names of the named tool-use blocks of all assistant messages, in order. */
  function StreamToolNames(ms: seq<Message>): seq<string> {
    if ms == [] then [] else StreamToolNames(ms[..|ms| - 1]) + MessageToolNames(ms[|ms| - 1])
  }

  /** Each text followed by a newline (`textOutput += block.text + '\n'`). */
  function Lines(ts: seq<string>): string {
    if ts == [] then "" else Lines(ts[..|ts| - 1]) + ts[|ts| - 1] + "\n"
  }

  lemma {:induction false} LinesAppend(a: seq<string>, b: seq<string>)
    ensures Lines(a + b) == Lines(a) + Lines(b)
  {
    if b == [] {
      assert a + b == a;
    } else {
      assert (a + b)[..|a + b| - 1] == a + b[..|b| - 1];
      LinesAppend(a, b[..|b| - 1]);
    }
  }

  lemma OneLine(t: string)
    ensures Lines([t]) == t + "\n"
  {
    assert [t][..0] == [];
  }

  /** One block's effect on the accumulator: the tally of its tool name and the line of its
      text. */
  lemma OnBlockMeaning(acc: Accumulator, b: ContentBlock)
    ensures OnBlock(acc, b).messageCount == acc.messageCount
    ensures OnBlock(acc, b).toolUseCounts == TallyFrom(acc.toolUseCounts, BlockToolName(b))
    ensures OnBlock(acc, b).textOutput == acc.textOutput + Lines(BlockText(b))
  {
    if IsAnalysisText(b) {
      assert [b.text.value][..0] == [];
    } else if IsNamedToolUse(b) {
      assert [b.name.value][..0] == [];
    }
  }

  /** Reading a list of blocks tallies its tool names and appends its texts' lines. */
  lemma {:induction false} AfterBlocksMeaning(acc: Accumulator, bs: seq<ContentBlock>)
    ensures AfterBlocks(acc, bs).messageCount == acc.messageCount
    ensures AfterBlocks(acc, bs).toolUseCounts == TallyFrom(acc.toolUseCounts, BlockToolNames(bs))
    ensures AfterBlocks(acc, bs).textOutput == acc.textOutput + Lines(BlockTexts(bs))
  {
    if bs != [] {
      var init, b := bs[..|bs| - 1], bs[|bs| - 1];
      AfterBlocksMeaning(acc, init);
      var before := AfterBlocks(acc, init);
      OnBlockMeaning(before, b);
      TallyFromAppend(acc.toolUseCounts, BlockToolNames(init), BlockToolName(b));
      LinesAppend(BlockTexts(init), BlockText(b));
      AppendAssoc(acc.textOutput, Lines(BlockTexts(init)), Lines(BlockText(b)));
    }
  }

  /** Reading a stream counts its assistant messages, tallies its tool names and appends its
      texts' lines; nothing else touches the accumulator. */
  lemma {:induction false} AfterStreamMeaning(acc: Accumulator, ms: seq<Message>)
    ensures AfterStream(acc, ms).messageCount == acc.messageCount + AssistantCount(ms)
    ensures AfterStream(acc, ms).toolUseCounts == TallyFrom(acc.toolUseCounts, StreamToolNames(ms))
    ensures AfterStream(acc, ms).textOutput == acc.textOutput + Lines(StreamTexts(ms))
  {
    if ms != [] {
      var init, m := ms[..|ms| - 1], ms[|ms| - 1];
      AfterStreamMeaning(acc, init);
      var before := AfterStream(acc, init);
      if m.Assistant? {
        AfterBlocksMeaning(before.(messageCount := before.messageCount + 1), m.content);
        TallyFromAppend(acc.toolUseCounts, StreamToolNames(init), BlockToolNames(m.content));
        LinesAppend(StreamTexts(init), BlockTexts(m.content));
        AppendAssoc(acc.textOutput, Lines(StreamTexts(init)), Lines(BlockTexts(m.content)));
      } else {
        assert StreamToolNames(init) + [] == StreamToolNames(init);
        assert StreamTexts(init) + [] == StreamTexts(init);
        assert Lines(StreamTexts(init)) + "" == Lines(StreamTexts(init));
      }
    }
  }

  /** The result of a run on a stream (`duration` is passed in: the clock is not modelled). */
  function Executed(stream: seq<Message>, duration: real): (r: AgentExecutionResult)
    ensures r.duration == duration
    ensures r.messageCount == AssistantCount(stream)
    ensures r.text == Trim(Lines(StreamTexts(stream)))
    ensures r.toolUseCounts == Tally(StreamToolNames(stream))
    ensures r.totalToolUseCount == Sum(r.toolUseCounts.Values()) == |StreamToolNames(stream)|
  {
    var acc := AfterStream(Start, stream);
    AfterStreamMeaning(Start, stream);
    TallySum(StreamToolNames(stream));
    assert "" + Lines(StreamTexts(stream)) == Lines(StreamTexts(stream));
    AgentExecutionResult(duration, acc.messageCount, Trim(acc.textOutput), acc.toolUseCounts,
                         Sum(acc.toolUseCounts.Values()))
  }

  // ---------------------------------------------------------------------------------------
  // The imperative run.

  /** The `onBlock` closure of `executeAgent`: its captured variables come in and go out,
      with the callback calls it makes. */
  method OnBlockCallback(block: ContentBlock, hooks: Hooks, counts0: Counts, text0: string)
    returns (toolUseCounts: Counts, textOutput: string, callbacks: seq<Event>)
    ensures toolUseCounts == TallyFrom(counts0, BlockToolName(block))
    ensures textOutput == text0 + Lines(BlockText(block))
    ensures callbacks == OnBlockEvents(block, hooks)
  {
    toolUseCounts, textOutput, callbacks := counts0, text0, [];
    if block.TextBlock? && block.text.Some? {
      BlankIsEmptyTrim(block.text.value);
    }
    if block.TextBlock? && block.text.Some? && Trim(block.text.value) != "" {
      textOutput := textOutput + block.text.value + "\n";
      if hooks.onText {
        callbacks := [TextCallback(block.text.value)];
      }
      OneLine(block.text.value);
    } else if block.ToolUseBlock? {
      if block.name.Some? && block.name.value != "" {
        toolUseCounts := toolUseCounts.Set(block.name.value, toolUseCounts.Get(block.name.value) + 1);
        TallyOne(counts0, block.name.value);
      }
      if hooks.onToolUse && block.name.Some? && block.name.value != "" {
        callbacks := [ToolUseCallback(block.name.value, block.input)];
      }
    }
  }

  /** `processAssistantMessage`: each block goes to `onBlock`, then to the theme. */
  method ProcessAssistantMessage(content: seq<ContentBlock>, hooks: Hooks,
                                 counts0: Counts, text0: string)
    returns (toolUseCounts: Counts, textOutput: string, events: seq<Event>)
    ensures toolUseCounts == TallyFrom(counts0, BlockToolNames(content))
    ensures textOutput == text0 + Lines(BlockTexts(content))
    ensures events == BlocksTrace(content, hooks)
  {
    toolUseCounts, textOutput, events := counts0, text0, [];
    for i := 0 to |content|
      invariant toolUseCounts == TallyFrom(counts0, BlockToolNames(content[..i]))
      invariant textOutput == text0 + Lines(BlockTexts(content[..i]))
      invariant events == BlocksTrace(content[..i], hooks)
    {
      var block := content[i];
      assert content[..i + 1][..i] == content[..i];
      ghost var names, texts := BlockToolNames(content[..i]), BlockTexts(content[..i]);
      var callbacks;
      toolUseCounts, textOutput, callbacks := OnBlockCallback(block, hooks, toolUseCounts, textOutput);
      TallyFromAppend(counts0, names, BlockToolName(block));
      LinesAppend(texts, BlockText(block));
      AppendAssoc(text0, Lines(texts), Lines(BlockText(block)));
      var shown: seq<Event> := [];
      if hooks.showUI {
        if block.TextBlock? && block.text.Some? && !IsBlank(block.text.value) {
          shown := [SectionShown("Analysis"), AssistantMessageShown(block.text.value)];
        } else if block.ToolUseBlock? && block.name.Some? && block.name.value != "" {
          shown := [ToolUseShown(block.name.value, block.input)];
        }
      }
      AppendAssoc(events, callbacks, shown);
      events := events + callbacks + shown;
    }
    assert content[..|content|] == content;
  }

  /** One message of the `for await` loop: an assistant message is counted and its blocks
      processed, then the thinking indicator is shown if the turn continues with a tool; any
      other message is skipped. */
  method ReadMessage(message: Message, hooks: Hooks, count0: nat, counts0: Counts, text0: string)
    returns (messageCount: nat, toolUseCounts: Counts, textOutput: string, events: seq<Event>)
    ensures messageCount == count0 + (if message.Assistant? then 1 else 0)
    ensures toolUseCounts == TallyFrom(counts0, MessageToolNames(message))
    ensures textOutput == text0 + Lines(MessageTexts(message))
    ensures events == MessageTrace(message, hooks)
  {
    match message {
      case Assistant(content, stopReason) =>
        messageCount := count0 + 1;
        toolUseCounts, textOutput, events := ProcessAssistantMessage(content, hooks, counts0, text0);
        // Show the thinking indicator if the turn continues
        if stopReason == Some("tool_use") && hooks.showUI {
          events := events + [ThinkingShown];
        } else {
          assert events + [] == events;
        }
      case ResultMessage =>
        messageCount, toolUseCounts, textOutput, events := count0, counts0, text0, [];
        assert text0 + "" == text0;
      case OtherMessage(_) =>
        messageCount, toolUseCounts, textOutput, events := count0, counts0, text0, [];
        assert text0 + "" == text0;
    }
  }

  /** Reading one more message of the stream extends each of the stream's summaries by that
      message's. */
  lemma StreamSnoc(ms: seq<Message>, i: nat, hooks: Hooks)
    requires i < |ms|
    ensures AssistantCount(ms[..i + 1]) == AssistantCount(ms[..i]) + (if ms[i].Assistant? then 1 else 0)
    ensures Tally(StreamToolNames(ms[..i + 1])) == TallyFrom(Tally(StreamToolNames(ms[..i])), MessageToolNames(ms[i]))
    ensures Lines(StreamTexts(ms[..i + 1])) == Lines(StreamTexts(ms[..i])) + Lines(MessageTexts(ms[i]))
    ensures StreamTrace(ms[..i + 1], hooks) == StreamTrace(ms[..i], hooks) + MessageTrace(ms[i], hooks)
  {
    assert ms[..i + 1][..i] == ms[..i];
    TallyFromAppend(Empty, StreamToolNames(ms[..i]), MessageToolNames(ms[i]));
    LinesAppend(StreamTexts(ms[..i]), MessageTexts(ms[i]));
  }

  /** `executeAgent`: reads the stream the SDK yields for the options' configuration and
      prompt, then totals the per-tool counts. */
  method ExecuteAgent(options: ExecutionOptions, query: Query, duration: real)
    returns (r: AgentExecutionResult, trace: seq<Event>)
    ensures r == Executed(query(options.config, options.prompt), duration)
    ensures trace == StreamTrace(query(options.config, options.prompt), HooksOf(options))
  {
    var hooks := HooksOf(options);
    var stream := query(options.config, options.prompt);
    var messageCount: nat := 0;
    var toolUseCounts := Empty;
    var textOutput := "";
    trace := [];
    for i := 0 to |stream|
      invariant messageCount == AssistantCount(stream[..i])
      invariant toolUseCounts == Tally(StreamToolNames(stream[..i]))
      invariant textOutput == Lines(StreamTexts(stream[..i]))
      invariant trace == StreamTrace(stream[..i], hooks)
    {
      var events;
      messageCount, toolUseCounts, textOutput, events :=
        ReadMessage(stream[i], hooks, messageCount, toolUseCounts, textOutput);
      StreamSnoc(stream, i, hooks);
      trace := trace + events;
    }
    assert stream[..|stream|] == stream;
    var totalToolUseCount := TotalOf(toolUseCounts);
    r := AgentExecutionResult(duration, messageCount, Trim(textOutput), toolUseCounts, totalToolUseCount);
  }

  /** `Object.values(counts).reduce((sum, count) => sum + count, 0)`. */
  method TotalOf(counts: Counts) returns (total: nat)
    ensures total == Sum(counts.Values())
  {
    var values := counts.Values();
    total := 0;
    for j := 0 to |values|
      invariant total == Sum(values[..j])
    {
      assert values[..j + 1][..j] == values[..j];
      total := total + values[j];
    }
    assert values[..|values|] == values;
  }

  // ---------------------------------------------------------------------------------------
  // Properties of a run.

  /** The per-tool record of a run: each tool's count is the number of named tool-use blocks
      for it, the keys are the tools in order of first use and each present count is at least
      1. With no named tool use the record is empty and the total 0. */
  lemma ToolUseCountsMeaning(stream: seq<Message>, duration: real)
    ensures var r := Executed(stream, duration);
      (forall k :: r.toolUseCounts.Get(k) == Occurrences(StreamToolNames(stream), k)) &&
      (forall k :: k in r.toolUseCounts.value <==> k in StreamToolNames(stream)) &&
      r.toolUseCounts.keys == FirstOccurrences(StreamToolNames(stream)) &&
      (forall k :: k in r.toolUseCounts.value ==> r.toolUseCounts.value[k] >= 1)
    ensures StreamToolNames(stream) == [] ==>
      Executed(stream, duration).toolUseCounts == Empty &&
      Executed(stream, duration).totalToolUseCount == 0
  {
    TallyCounts(StreamToolNames(stream));
  }

  /** Result messages and other non-assistant messages change neither the accumulator nor
      the trace. */
  lemma NonAssistantChangesNothing(acc: Accumulator, m: Message, hooks: Hooks)
    requires !m.Assistant?
    ensures AfterMessage(acc, m) == acc && MessageTrace(m, hooks) == []
  {
  }

  /** A named tool-use block raises that tool's count by exactly one (creating it at 1, as
      the last key) and changes nothing else. */
  lemma NamedToolUseCounts(acc: Accumulator, name: string, input: Option<JsRecord>)
    requires name != ""
    ensures var r := OnBlock(acc, ToolUseBlock(Some(name), input));
      r.toolUseCounts.Get(name) == acc.toolUseCounts.Get(name) + 1 &&
      (forall k :: k != name ==> r.toolUseCounts.Get(k) == acc.toolUseCounts.Get(k)) &&
      (name !in acc.toolUseCounts.value ==>
         r.toolUseCounts.value[name] == 1 && r.toolUseCounts.keys == acc.toolUseCounts.keys + [name]) &&
      r.messageCount == acc.messageCount && r.textOutput == acc.textOutput
  {
  }

  /** A tool-use block without a name, and a text block without non-blank text, change
      nothing. */
  lemma UncountedBlocksChangeNothing(acc: Accumulator, input: Option<JsRecord>, text: Option<string>)
    ensures OnBlock(acc, ToolUseBlock(None, input)) == acc
    ensures OnBlock(acc, ToolUseBlock(Some(""), input)) == acc
    ensures text.None? || Trim(text.value) == "" ==> OnBlock(acc, TextBlock(text)) == acc
  {
    if text.Some? {
      BlankIsEmptyTrim(text.value);
    }
  }

  /** A non-blank text block appends its raw text and a newline. */
  lemma AnalysisTextAppends(acc: Accumulator, text: string)
    requires Trim(text) != ""
    ensures OnBlock(acc, TextBlock(Some(text))) == acc.(textOutput := acc.textOutput + text + "\n")
  {
    BlankIsEmptyTrim(text);
  }

  function TextCallbacks(es: seq<Event>): seq<string> {
    if es == [] then []
    else
      var e := es[|es| - 1];
      TextCallbacks(es[..|es| - 1]) + (if e.TextCallback? then [e.text] else [])
  }

  function ToolUseCallbacks(es: seq<Event>): seq<string> {
    if es == [] then []
    else
      var e := es[|es| - 1];
      ToolUseCallbacks(es[..|es| - 1]) + (if e.ToolUseCallback? then [e.name] else [])
  }

  lemma {:induction false} CallbacksAppend(a: seq<Event>, b: seq<Event>)
    ensures TextCallbacks(a + b) == TextCallbacks(a) + TextCallbacks(b)
    ensures ToolUseCallbacks(a + b) == ToolUseCallbacks(a) + ToolUseCallbacks(b)
  {
    if b == [] {
      assert a + b == a;
    } else {
      assert (a + b)[..|a + b| - 1] == a + b[..|b| - 1];
      CallbacksAppend(a, b[..|b| - 1]);
    }
  }

  /** A list of events with no callback among them makes no callback. */
  lemma {:induction false} NoCallbacks(es: seq<Event>)
    requires forall i :: 0 <= i < |es| ==> !IsCallback(es[i])
    ensures TextCallbacks(es) == [] && ToolUseCallbacks(es) == []
  {
    if es != [] {
      NoCallbacks(es[..|es| - 1]);
    }
  }

  /** The theme calls for a block include no callback. */
  lemma ShowBlockHasNoCallbacks(b: ContentBlock, showUI: bool)
    ensures TextCallbacks(ShowBlock(b, showUI)) == [] && ToolUseCallbacks(ShowBlock(b, showUI)) == []
  {
    NoCallbacks(ShowBlock(b, showUI));
  }

  /** The callbacks one block makes: its text to `onText`, its tool name to `onToolUse`. */
  lemma BlockEventCallbacks(b: ContentBlock, hooks: Hooks)
    ensures TextCallbacks(BlockEvents(b, hooks)) == if hooks.onText then BlockText(b) else []
    ensures ToolUseCallbacks(BlockEvents(b, hooks)) == if hooks.onToolUse then BlockToolName(b) else []
  {
    CallbacksAppend(OnBlockEvents(b, hooks), ShowBlock(b, hooks.showUI));
    ShowBlockHasNoCallbacks(b, hooks.showUI);
    var e := OnBlockEvents(b, hooks);
    if e != [] {
      assert e[..0] == [];
    }
  }

  lemma {:induction false} BlockCallbacks(bs: seq<ContentBlock>, hooks: Hooks)
    ensures TextCallbacks(BlocksTrace(bs, hooks)) == if hooks.onText then BlockTexts(bs) else []
    ensures ToolUseCallbacks(BlocksTrace(bs, hooks)) == if hooks.onToolUse then BlockToolNames(bs) else []
  {
    if bs != [] {
      var init, b := bs[..|bs| - 1], bs[|bs| - 1];
      BlockCallbacks(init, hooks);
      BlockEventCallbacks(b, hooks);
      CallbacksAppend(BlocksTrace(init, hooks), BlockEvents(b, hooks));
      var none: seq<string> := [];
      assert none + none == none;
    }
  }

  lemma MessageCallbacks(m: Message, hooks: Hooks)
    ensures TextCallbacks(MessageTrace(m, hooks)) == if hooks.onText then MessageTexts(m) else []
    ensures ToolUseCallbacks(MessageTrace(m, hooks)) == if hooks.onToolUse then MessageToolNames(m) else []
  {
    if m.Assistant? {
      BlockCallbacks(m.content, hooks);
      var thinking := ThinkingEvents(m.stopReason, hooks.showUI);
      CallbacksAppend(BlocksTrace(m.content, hooks), thinking);
      if thinking != [] {
        assert thinking[..0] == [];
      }
      var none: seq<string> := [];
      assert BlockTexts(m.content) + none == BlockTexts(m.content);
      assert BlockToolNames(m.content) + none == BlockToolNames(m.content);
    }
  }

  /** `onText` receives the raw text of every non-blank text block of the stream, in order,
      and `onToolUse` the name of every named tool-use block, in order; neither is called
      for anything else. */
  lemma {:induction false} StreamCallbacks(ms: seq<Message>, hooks: Hooks)
    ensures TextCallbacks(StreamTrace(ms, hooks)) == if hooks.onText then StreamTexts(ms) else []
    ensures ToolUseCallbacks(StreamTrace(ms, hooks)) == if hooks.onToolUse then StreamToolNames(ms) else []
  {
    if ms != [] {
      var init, m := ms[..|ms| - 1], ms[|ms| - 1];
      StreamCallbacks(init, hooks);
      MessageCallbacks(m, hooks);
      CallbacksAppend(StreamTrace(init, hooks), MessageTrace(m, hooks));
      var none: seq<string> := [];
      assert none + none == none;
    }
  }

  /** With `showUI` false a run calls the theme not at all: its trace holds callbacks only. */
  lemma {:induction false} QuietWithoutUI(ms: seq<Message>, hooks: Hooks)
    requires !hooks.showUI
    ensures forall i :: 0 <= i < |StreamTrace(ms, hooks)| ==> IsCallback(StreamTrace(ms, hooks)[i])
  {
    if ms != [] {
      QuietWithoutUI(ms[..|ms| - 1], hooks);
      var m := ms[|ms| - 1];
      if m.Assistant? {
        QuietBlocks(m.content, hooks);
      }
    }
  }

  lemma {:induction false} QuietBlocks(bs: seq<ContentBlock>, hooks: Hooks)
    requires !hooks.showUI
    ensures forall i :: 0 <= i < |BlocksTrace(bs, hooks)| ==> IsCallback(BlocksTrace(bs, hooks)[i])
  {
    if bs != [] {
      QuietBlocks(bs[..|bs| - 1], hooks);
    }
  }

  /** The result does not depend on the callbacks or on `showUI`: only the trace does. */
  lemma ResultIgnoresHooks(a: ExecutionOptions, b: ExecutionOptions, query: Query, duration: real)
    requires a.config == b.config && a.prompt == b.prompt
    ensures Executed(query(a.config, a.prompt), duration) == Executed(query(b.config, b.prompt), duration)
  {
  }
}
