/** The timeline task (`timelineTask`, `buildTimelinePrompt`): the date context is merged
    into the piped context, the prompt is built, and the agent runs with the read-only tools
    plus `Bash`. The loaded base prompt (the prompt file with the directory substituted), the
    date line, the SDK and the clock are parameters. */
module TimelineTask {
  import opened Wrappers
  import opened JsStrings
  import opened ToolCounts
  import opened PromptBuilder
  import opened Agent
  import Tools

  datatype TimelineOptions = TimelineOptions(
    context: Option<string>, directory: string, message: Option<string>, showUI: Option<bool>)

  datatype TimelineResult = TimelineResult(
    analysis: string, duration: real, messageCount: nat, toolUseCounts: Counts, totalToolUseCount: nat)

  /** `context ? `${dateContext}\n\n${context}` : dateContext`. */
  function FullContext(dateContext: string, context: Option<string>): (r: string)
    ensures !IsGiven(context) ==> r == dateContext
    ensures IsGiven(context) ==>
      StartsWith(r, dateContext + "\n\n") && EndsWith(r, context.value) &&
      |r| == |dateContext| + 2 + |context.value|
  {
    if IsGiven(context) then
      var r := dateContext + "\n\n" + context.value;
      assert r[..|dateContext + "\n\n"|] == dateContext + "\n\n";
      assert r[|r| - |context.value|..] == context.value;
      r
    else dateContext
  }

  /** `buildTimelinePrompt`: the merged context always goes in as the context, the message
      unchanged. */
  function BuildTimelinePrompt(basePrompt: string, dateContext: string, message: Option<string>,
                               context: Option<string>): (r: string)
    ensures StartsWith(r, basePrompt)
    ensures FullContext(dateContext, context) != "" ==>
      EndsWith(r, ContextSection(FullContext(dateContext, context)))
    ensures FullContext(dateContext, context) == "" ==> r == BuildPrompt(basePrompt, message, None)
  {
    var fullContext := FullContext(dateContext, context);
    var prompt := BuildPrompt(basePrompt, message, Some(fullContext));
    if fullContext != "" then
      ContextBlockEndsPrompt(basePrompt, message, fullContext);
      prompt
    else prompt
  }

  /** `[...READ_ONLY_TOOLS, 'Bash']`. */
  const TimelineTools: seq<string> := Tools.ReadOnlyTools + ["Bash"]

  /** The agent configuration: the tools above and no system prompt. */
  const TimelineConfig: AgentConfig := AgentConfig(TimelineTools, None)

  /** The options handed to `executeAgent`: no callbacks, `showUI` defaulting to true. */
  function TimelineExecution(options: TimelineOptions, prompt: string): (e: ExecutionOptions)
    ensures e.config.allowedTools == ["Read", "Grep", "Glob", "ListDir", "Bash"]
    ensures e.config.systemPrompt.None?
    ensures HooksOf(e).showUI <==> options.showUI != Some(false)
  {
    ExecutionOptions(TimelineConfig, prompt, false, false, Some(options.showUI.GetOr(true)))
  }

  /** `timelineTask`: run the agent on the timeline prompt and rename its `text` to
      `analysis`. */
  function Timeline(options: TimelineOptions, loadBase: string -> string, dateContext: string,
                    query: Query, duration: real): (r: TimelineResult)
    ensures var prompt := BuildTimelinePrompt(loadBase(options.directory), dateContext, options.message, options.context);
      var stream := query(TimelineConfig, prompt);
      r.analysis == Trim(Lines(StreamTexts(stream))) &&
      r.duration == duration &&
      r.messageCount == AssistantCount(stream) &&
      r.toolUseCounts == Tally(StreamToolNames(stream)) &&
      r.totalToolUseCount == |StreamToolNames(stream)|
  {
    var prompt := BuildTimelinePrompt(loadBase(options.directory), dateContext, options.message, options.context);
    var execution := TimelineExecution(options, prompt);
    var result := Executed(query(execution.config, execution.prompt), duration);
    TimelineResult(result.text, result.duration, result.messageCount, result.toolUseCounts,
                   result.totalToolUseCount)
  }

  /** The timeline tools are read-only but for `Bash`: the timeline task can never write a file
      through `Edit` or `Write`. */
  lemma TimelineToolsCannotWrite()
    ensures forall t :: t in TimelineTools ==> !Tools.IsWriteTool(t)
    ensures forall t :: t in TimelineTools ==> t in Tools.AvailableTools
  {
    Tools.ReadOnlyToolsAreNotGated();
    Tools.GroupsAreSubsets();
  }

  /** Whether the terminal output is shown has no effect on the result. */
  lemma TimelineIgnoresShowUI(options: TimelineOptions, showUI: Option<bool>, loadBase: string -> string,
                              dateContext: string, query: Query, duration: real)
    ensures Timeline(options, loadBase, dateContext, query, duration) ==
      Timeline(options.(showUI := showUI), loadBase, dateContext, query, duration)
  {
  }

  /** A given message reaches the prompt unchanged, right after the banner opening. */
  lemma MessageReachesPrompt(basePrompt: string, dateContext: string, message: string,
                             context: Option<string>)
    requires message != ""
    ensures var r := BuildTimelinePrompt(basePrompt, dateContext, Some(message), context);
      var at := |basePrompt| + |MessageOpen|;
      at + |message| <= |r| && r[at..at + |message|] == message
  {
    var fullContext := FullContext(dateContext, context);
    assert BuildTimelinePrompt(basePrompt, dateContext, Some(message), context) ==
      BuildPrompt(basePrompt, Some(message), Some(fullContext));
    MessageFollowsOpen(basePrompt, message, Some(fullContext));
  }

  /** An absent and an empty context give the same prompt: the date line alone. */
  lemma EmptyContextIsDateOnly(basePrompt: string, dateContext: string, message: Option<string>)
    ensures BuildTimelinePrompt(basePrompt, dateContext, message, Some("")) ==
      BuildTimelinePrompt(basePrompt, dateContext, message, None) ==
      BuildPrompt(basePrompt, message, Some(dateContext))
  {
  }
}
