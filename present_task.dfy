/** The present task (`presentTask`, `buildPresentPrompt`): the date line and the content
    become the context, and the agent runs with no tools at all; its text is the HTML. The
    loaded base prompt, the date line, the SDK and the clock are parameters. */
module PresentTask {
  import opened Wrappers
  import opened JsStrings
  import opened ToolCounts
  import opened PromptBuilder
  import opened Agent
  import TaskConfigurations

  /** `PresentTaskConfig`: an optional theme. */
  datatype PresentTaskConfig = PresentTaskConfig(theme: Option<TaskConfigurations.PresentTheme>)

  datatype PresentOptions = PresentOptions(
    content: string, message: Option<string>, showUI: Option<bool>, taskConfig: Option<PresentTaskConfig>)

  datatype PresentResult = PresentResult(
    duration: real, html: string, messageCount: nat, toolUseCounts: Counts, totalToolUseCount: nat)

  /** `${dateContext}\n\n${content}`: never empty, so the context section is always there. */
  function PresentContext(dateContext: string, content: string): (r: string)
    ensures r != "" && StartsWith(r, dateContext + "\n\n") && EndsWith(r, content)
    ensures |r| == |dateContext| + 2 + |content|
  {
    var r := dateContext + "\n\n" + content;
    assert r[..|dateContext + "\n\n"|] == dateContext + "\n\n";
    assert r[|r| - |content|..] == content;
    r
  }

  /** `buildPresentPrompt`. The `taskConfiguration` option is built when one is given, but the prompt
      builder has no use for it: only the base prompt, the context and the message count. */
  function BuildPresentPrompt(basePrompt: string, dateContext: string, content: string,
                              message: Option<string>, taskConfig: Option<PresentTaskConfig>): (r: string)
    ensures StartsWith(r, basePrompt)
    ensures EndsWith(r, ContextSection(PresentContext(dateContext, content)))
  {
    var fullContext := PresentContext(dateContext, content);
    var taskConfiguration :=
      if taskConfig.Some? then Some(TaskConfigurations.BuildPresentConfig(taskConfig.value.theme)) else None;
    ContextBlockEndsPrompt(basePrompt, message, fullContext);
    BuildPrompt(basePrompt, message, Some(fullContext))
  }

  /** No tools, and no system prompt. */
  const PresentConfig: AgentConfig := AgentConfig([], None)

  /** The options handed to `executeAgent`: no callbacks, `showUI` defaulting to true. */
  function PresentExecution(options: PresentOptions, prompt: string): (e: ExecutionOptions)
    ensures e.config.allowedTools == [] && e.config.systemPrompt.None?
    ensures HooksOf(e).showUI <==> options.showUI != Some(false)
  {
    ExecutionOptions(PresentConfig, prompt, false, false, Some(options.showUI.GetOr(true)))
  }

  /** `presentTask`: run the agent on the present prompt and rename its `text` to `html`. */
  function Present(options: PresentOptions, basePrompt: string, dateContext: string,
                   query: Query, duration: real): (r: PresentResult)
    ensures var prompt := BuildPresentPrompt(basePrompt, dateContext, options.content, options.message, options.taskConfig);
      var stream := query(PresentConfig, prompt);
      r.html == Trim(Lines(StreamTexts(stream))) &&
      r.duration == duration &&
      r.messageCount == AssistantCount(stream) &&
      r.toolUseCounts == Tally(StreamToolNames(stream)) &&
      r.totalToolUseCount == |StreamToolNames(stream)|
  {
    var prompt := BuildPresentPrompt(basePrompt, dateContext, options.content, options.message, options.taskConfig);
    var execution := PresentExecution(options, prompt);
    var result := Executed(query(execution.config, execution.prompt), duration);
    PresentResult(result.duration, result.text, result.messageCount, result.toolUseCounts,
                  result.totalToolUseCount)
  }

  /** The requested theme never reaches the prompt, and so never reaches the agent. */
  lemma ThemeNeverReachesPrompt(options: PresentOptions, taskConfig: Option<PresentTaskConfig>,
                                basePrompt: string, dateContext: string, query: Query, duration: real)
    ensures Present(options, basePrompt, dateContext, query, duration) ==
      Present(options.(taskConfig := taskConfig), basePrompt, dateContext, query, duration)
  {
  }

  /** The content reaches the prompt verbatim, between the fences, after the date line. */
  lemma ContentVerbatim(basePrompt: string, dateContext: string, content: string,
                        message: Option<string>, taskConfig: Option<PresentTaskConfig>)
    ensures EndsWith(BuildPresentPrompt(basePrompt, dateContext, content, message, taskConfig),
                     FencedBlock(PresentContext(dateContext, content)) + ContextTrailer)
  {
    ContextVerbatim(basePrompt, message, PresentContext(dateContext, content));
  }
}
