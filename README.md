# A verified model of the agent CLI's core

The repository is a command-line tool that runs an AI agent over a directory or over piped
content. It has three tasks: `study`, `timeline` and `present`. This project models in
Dafny the logic around the agent. The agent SDK, the terminal and the file system are left
out or appear as parameters.

- **Running the agent** (`executeAgent`, `processAssistantMessage`): the SDK's message
  stream is a given sequence of messages. `Agent.ExecuteAgent` reads it with a loop. The
  loop counts assistant messages, tallies named tool-use blocks in an insertion-ordered
  record, collects non-blank text and totals the record. Each result is proved equal to a
  definition given by what the stream contains. The callback calls and theme calls are an
  event trace that the method returns.
- **Prompts** (`buildPrompt`, `buildStudyPrompt`): a base prompt, an optional user-request
  banner, then an optional fenced context block, in that order.
- **The write-path gate** (`createFileAccessValidator`): the matcher chosen for a
  directory, a file or a pattern, and the allow/deny decision for each tool call.
- **Tool groups and task parameters** (`tools.ts`, `task-configurations.ts`).
- **The tool-efficiency scorer** of the evals: the tool-call count parsed from the output,
  then the grading ladder.
- **The default theme's logic**: how a tool call's input is summarised, the order of the
  tool-usage table, the header underline, how message lines are classified, and the
  nullable spinner field as a class.
- **The theme manager**: a class with a nullable current theme.
- **The `present` and `timeline` commands**: their pre-flight checks, how each assembles
  its input, and the agent tasks they call. Those tasks appear as parameters of the commands.

Each source file has its own Dafny module:

| module | file |
|---|---|
| `Agent` | `agent.dfy` |
| `PromptBuilder` | `prompt_builder.dfy` |
| `ToolValidators` | `tool_validators.dfy` |
| `Tools` | `tools.dfy` |
| `TaskConfigurations` | `task_configurations.dfy` |
| `ToolEfficiency` | `tool_efficiency.dfy` |
| `ThemeDefault` | `theme_default.dfy` |
| `Themes` | `theme_manager.dfy` |
| `PresentCommand` | `present_command.dfy` |
| `TimelineCommand` | `timeline_command.dfy` |
| `PresentTask` | `present_task.dfy` |
| `TimelineTask` | `timeline_task.dfy` |

Shared modules:

- `Wrappers`: `Option` and `Result`.
- `JsStrings`: the parts of JavaScript string semantics the code relies on (`trim`,
  `startsWith`, `includes`, `split`, `join`, truthiness, number to string).
- `ToolCounts`: the `Record<string, number>` of per-tool counts, with keys in insertion
  order. This is the order JavaScript gives to string keys that are not integer-like; see
  "Left out".
- `ExistingOutput`: the output-file check that both commands share.

## Model

| member | source | states |
|---|---|---|
| Agent.ExecuteAgent | src/services/agent.ts:75-138 | The result is the stream's meaning: messageCount is the number of assistant messages; toolUseCounts is the tally of named tool-use blocks; text is the trimmed concatenation of `text + "\n"` over non-blank text blocks, in stream and block order; the total is the sum of the counts. The trace is the sequence of callback and theme calls. |
| Agent.ProcessAssistantMessage | src/services/agent.ts:166-186 | Every block goes through `onBlock` once, in order. The counts are the old ones extended by the message's tool names; the text gains the message's lines. The events are each block's callbacks followed by its theme calls. |
| Agent.OnBlockCallback | src/services/agent.ts:99-114 | One block: a non-blank text block appends `text + "\n"` and calls `onText`; a named tool-use block raises its count and calls `onToolUse`; anything else changes nothing. |
| Agent.ReadMessage | src/services/agent.ts:93-125 | An assistant message is counted and its blocks processed, with the thinking indicator when it stops for `tool_use` while the UI is shown; a result message or any other message changes nothing. |
| Agent.TotalOf | src/services/agent.ts:129 | The reduce loop computes the sum of the record's values. |
| Agent.Executed | src/services/agent.ts:128-137 | The result record: duration as given, the assistant count, the trimmed text, the tally, and a total that equals both the sum of the tally and the number of named tool-use blocks. |
| Agent.AfterStreamMeaning | src/services/agent.ts:93-126 | Folding the loop step over a stream adds the number of assistant messages, tallies the stream's tool names and appends its text lines. |
| Agent.ToolUseCountsMeaning | src/services/agent.ts:105-108 | Each tool's count is its number of named tool-use blocks; the keys are exactly the tools used, in order of first use; every present count is at least 1; with no named tool use the record is empty and the total 0. |
| Agent.NonAssistantChangesNothing | src/services/agent.ts:122-125 | Result messages and other non-assistant messages change neither the accumulator nor the trace. |
| Agent.NamedToolUseCounts | src/services/agent.ts:105-108 | A named tool-use block raises that tool's count by exactly one, creating it at 1 as the last key, and changes no other count, the message count or the text. |
| Agent.UncountedBlocksChangeNothing | src/services/agent.ts:100-108 | A tool-use block without a name (absent or empty), and a text block whose text is absent or blank, leave the accumulator unchanged. |
| Agent.AnalysisTextAppends | src/services/agent.ts:100-101 | A text block with non-blank trimmed text appends its raw text and a newline. |
| Agent.StreamCallbacks | src/services/agent.ts:102-112 | `onText` receives the raw text of every non-blank text block in order, and `onToolUse` the name of every named tool-use block in order; neither receives anything else, and an absent callback receives nothing. |
| Agent.QuietWithoutUI | src/services/agent.ts:119 | With `showUI` false the trace holds callback calls only: no theme call at all. |
| Agent.HooksOf | src/services/agent.ts:78 | `showUI` is false only when given as false; omitted means true. |
| Agent.ResultIgnoresHooks | src/services/agent.ts:78-91 | The result depends only on the configuration and the prompt given to the SDK, not on the callbacks or `showUI`. |
| ToolCounts.TallyCounts | src/services/agent.ts:107 | A tally is well-formed, holds each name's number of occurrences, has as keys the names in first-use order with counts of at least 1, and its counts add up to the number of names. |
| ToolCounts.TallySum | src/services/agent.ts:129 | The values of a tally add up to the number of names tallied. |
| PromptBuilder.BuildPrompt | src/services/prompt-builder.ts:35-67 | The base prompt is a prefix of the result; with neither message nor context the result is the base prompt exactly. |
| PromptBuilder.EmptyIsAbsent | src/services/prompt-builder.ts:40 | An empty message and an empty context give the same prompt as absent ones. |
| PromptBuilder.MessageVerbatim | src/services/prompt-builder.ts:40-50 | A given message appears unchanged right after the base prompt and the banner opening, and is followed by the banner's close. |
| PromptBuilder.BannerFollowsBase | src/services/prompt-builder.ts:40-50 | The whole banner section follows the base prompt directly. |
| PromptBuilder.BannerBeforeContext | src/services/prompt-builder.ts:40-64 | With both given, the prompt is the prompt with the message alone followed directly by the context section: the banner comes first. |
| PromptBuilder.ContextVerbatim | src/services/prompt-builder.ts:53-64 | A given context ends the prompt inside its fences, followed only by the closing instruction, unescaped. |
| PromptBuilder.FencedBlockParts | src/services/prompt-builder.ts:59-61 | The fenced block is the opening fence line, the context unchanged, and a closing fence on its own line. |
| PromptBuilder.ContextBlockEndsPrompt | src/services/prompt-builder.ts:53-64 | A given context's section is the end of the prompt. |
| PromptBuilder.NoContextNoBlock | src/services/prompt-builder.ts:53-66 | Without a context nothing follows the banner: with a message the prompt is exactly as long as the base prompt plus the banner and ends with the banner; without one it is the base prompt itself. |
| PromptBuilder.StudyBasePrompt | src/services/prompt-builder.ts:83-87 | The study base prompt starts with `Study the directory at path: ` and the directory verbatim. |
| PromptBuilder.BuildStudyPrompt | src/services/prompt-builder.ts:77-91 | The study prompt starts with the lead and the directory, and with neither message nor context it is the study base prompt. |
| ToolValidators.CreateFileAccessValidator | src/config/tool-validators.ts:46-77 | An existing directory gives the directory rule and its message; any other path, including one that does not exist yet, gives the exact-file rule and its message; a regular expression gives its own test and message. |
| ToolValidators.CanUseTool | src/config/tool-validators.ts:79-105 | A tool other than `Edit`/`Write` is allowed with its input unchanged. `Edit`/`Write` without a truthy `file_path` is denied with a message naming the tool. With a string path, the tool is allowed with its input unchanged exactly when the matcher admits the resolved path, and is otherwise denied with the rule's message and the resolved path. |
| ToolValidators.DirectoryRuleExactly | src/config/tool-validators.ts:66 | The directory rule admits a path exactly when it is the directory or the directory followed by `/`. |
| ToolValidators.DirectoryAdmitsDescendants | src/config/tool-validators.ts:66 | The directory and anything below it are admitted. |
| ToolValidators.DirectoryRefusesSiblings | src/config/tool-validators.ts:66 | A path that extends the directory's name with anything but `/` is refused (`/a/src2` for `/a/src`). |
| ToolValidators.DirectoryRefusesUnrelated | src/config/tool-validators.ts:66 | A path that does not start with the directory's name is refused. |
| ToolValidators.FileRuleExactly | src/config/tool-validators.ts:70 | The file rule admits exactly the file's path: neither a prefix nor an extension of it. |
| ToolValidators.WriteToolAllowedIffMatches | src/config/tool-validators.ts:95-104 | For `Edit`/`Write` with a non-empty string path: allowed iff the matcher admits the resolved path, with the input unchanged; otherwise the denial names that path. |
| ToolValidators.DirectoryGateExample | src/config/tool-validators.ts:64-67 | A gate on the directory `/a/src` lets `Edit` write `/a/src/sub/file.txt` and refuses `/a/src2/file.txt`. |
| ToolValidators.ReadOnlyToolsAlwaysAllowed | src/config/tool-validators.ts:81-83 | Every read-only tool is allowed with its input unchanged, whatever the gate was built for. |
| Tools.AvailableToolsDistinct | src/config/tools.ts:10-18 | The vocabulary has 7 distinct names. |
| Tools.GroupsAreSubsets | src/config/tools.ts:28-38 | Each group draws its members from the vocabulary. |
| Tools.GroupsPartitionAvailableTools | src/config/tools.ts:10-38 | The three groups are pairwise disjoint and together make up the vocabulary. |
| Tools.ReadOnlyToolsAreNotGated | src/config/tools.ts:28-33 | No read-only tool is `Edit` or `Write`; both modification tools are. |
| Tools.AllToolsIsAvailableTools | src/config/tools.ts:43 | `ALL_TOOLS` is the vocabulary in the same order. |
| TaskConfigurations.EffortConfig | src/config/task-configurations.ts:27-46 | Every effort entry is named `effort` and its value is its own key. |
| TaskConfigurations.ThemeConfig | src/config/task-configurations.ts:88-99 | Every theme entry is named `theme` and its value is its own key. |
| TaskConfigurations.EffortConfigInjective | src/config/task-configurations.ts:27-46 | Distinct effort levels have distinct entries. |
| TaskConfigurations.BuildStudyConfig | src/config/task-configurations.ts:56-64 | The result is empty exactly when no effort is given, and otherwise the effort's entry alone; it never has more than one element. |
| TaskConfigurations.BuildTimelineConfig | src/config/task-configurations.ts:74-82 | The same as the study builder: empty exactly without an effort, otherwise that effort's entry alone. |
| TaskConfigurations.TimelineConfigIsStudyConfig | src/config/task-configurations.ts:74-82 | The timeline builder and the study builder agree on every input. |
| TaskConfigurations.BuildPresentConfig | src/config/task-configurations.ts:105-113 | Empty exactly without a theme, otherwise that theme's entry alone. |
| ToolEfficiency.FirstMatchFrom | evals/scorers/tool-efficiency.ts:31 | The leftmost position at or after the start where the marker `Tool calls: ` is followed by a digit, and no such position before it; none when there is no such position at all. |
| ToolEfficiency.DigitRunLength | evals/scorers/tool-efficiency.ts:31 | The digit run is maximal: every character in it is a digit, and the next one is not (or the output ends). |
| ToolEfficiency.ToolCountRoundTrip | evals/scorers/tool-efficiency.ts:30-34 | Writing a count after the marker reads the same count back, whatever follows as long as it does not continue the numeral. |
| ToolEfficiency.NoMarkerNoCount | evals/scorers/tool-efficiency.ts:30-34 | An output without the marker counts 0 tool calls. |
| ToolEfficiency.MaxToolCalls | evals/scorers/tool-efficiency.ts:27 | The maximum is never 0: both a missing maximum and 0 mean 20. |
| ToolEfficiency.MissingTools | evals/scorers/tool-efficiency.ts:54-56 | A tool is missing exactly when it is expected and not mentioned in the output, ignoring case. |
| ToolEfficiency.MissingToolsInOrder | evals/scorers/tool-efficiency.ts:54-56 | The missing tools keep the order in which they were expected. |
| ToolEfficiency.ScoreToolEfficiency | evals/scorers/tool-efficiency.ts:24-72 | A pass means a score of 1 and nothing else does; the score is one of 0, 0.3, 0.5 and 1. |
| ToolEfficiency.ScoreLadder | evals/scorers/tool-efficiency.ts:37-71 | The score is 0 exactly at no tool calls; 0.3 exactly for some calls above the maximum; 0.5 exactly when within bounds with a missing tool. Each rung gives its own reason text. |
| ToolEfficiency.PassExactly | evals/scorers/tool-efficiency.ts:37-71 | Pass holds exactly when some tools were used, no more than the maximum, and every expected tool is mentioned. |
| ToolEfficiency.EmptyExpectedNeverMissing | evals/scorers/tool-efficiency.ts:26 | With no expected tools (missing, empty list, no vars) the missing-tools rung is never taken. |
| ToolEfficiency.DefaultMaximumExample | evals/scorers/tool-efficiency.ts:27 | With no maximum given, 20 calls pass and 21 calls score 0.3. |
| ThemeDefault.FormatToolInput | src/lib/theme/default.ts:234-276 | Per tool: Bash's cut command, the first truthy of the Glob, ListDir and Read keys in their order, Grep's quoted pattern; empty for any other tool. |
| ThemeDefault.BashSummary | src/lib/theme/default.ts:238-247 | A truthy string command up to 60 characters is shown unchanged, a longer one as its first 60 characters and `...`; the result is never longer than 63; anything else gives the empty string. |
| ThemeDefault.LongCommandsKeepTheirStart | src/lib/theme/default.ts:242-243 | A command longer than 60 becomes exactly 63 characters: its first 60 and `...`. |
| ThemeDefault.FirstTruthyIndex | src/lib/theme/default.ts:251 | The first key whose value is truthy, with every earlier one falsy. |
| ThemeDefault.FirstTruthy | src/lib/theme/default.ts:249-270 | The string form of the first truthy value among the keys, or empty when none is truthy. |
| ThemeDefault.ReadPrefersPath | src/lib/theme/default.ts:266-270 | Read shows `path` before `file_path`, skips an empty `path`, and shows nothing for a null one. |
| ThemeDefault.GrepSummary | src/lib/theme/default.ts:255-258 | The pattern in double quotes, followed by ` in <path>` only when a path is present. With a path, the result starts with the quoted pattern, ends with ` in <path>` and is exactly as long as the two together, so it is the two pieces and nothing else. |
| ThemeDefault.ToolUseLine | src/lib/theme/default.ts:210-213 | The tool's name, then `: ` and the summary only when the summary is non-empty. |
| ThemeDefault.HeaderUnderline | src/lib/theme/default.ts:111 | The underline is `─` repeated min(length, 50) times. |
| ThemeDefault.ClassifyLine | src/lib/theme/default.ts:36-47 | The trimmed line is checked in order: a heading when it starts with `#`; a list item when it starts with `-` or `*` and is no heading; blank exactly when it is empty. |
| ThemeDefault.RenderLine | src/lib/theme/default.ts:36-47 | A heading is printed after an empty line, a list item indented by two spaces, other text unchanged; only a blank line prints empty. |
| ThemeDefault.BlankLineIsAllWhitespace | src/lib/theme/default.ts:43 | A line is blank exactly when every character is ECMAScript whitespace. |
| ThemeDefault.AssistantMessage | src/lib/theme/default.ts:33-49 | The loop prints the text's lines split at `\n`, each rendered, in order. |
| ThemeDefault.RenderLinesPointwise | src/lib/theme/default.ts:35-36 | Output line i is input line i rendered: nothing is dropped, merged or reordered. |
| ThemeDefault.SortByCountDesc | src/lib/theme/default.ts:65 | The rows are sorted by count, largest first, and are a permutation of the entries. |
| ThemeDefault.InsertByCount | src/lib/theme/default.ts:65 | Inserting into sorted rows keeps them sorted and adds exactly the new entry. |
| ThemeDefault.DisplayToolStats | src/lib/theme/default.ts:61-73 | Nothing is shown exactly when the record is empty; otherwise the rows are the record's entries reordered by count, largest first. |
| ThemeDefault.SortExample | src/lib/theme/default.ts:65 | (Read, 1), (Grep, 3) comes out as (Grep, 3), (Read, 1). |
| ThemeDefault.DefaultTheme.StartSpinner | src/lib/theme/default.ts:132-138 | The field holds a fresh spinner with the given text, whatever it held before. |
| ThemeDefault.DefaultTheme.StopSpinner | src/lib/theme/default.ts:143-153 | The field is null afterwards. A running spinner succeeds with a non-empty message or just stops without one. With no spinner nothing happens. |
| ThemeDefault.DefaultTheme.FailSpinner | src/lib/theme/default.ts:92-97 | The field is null afterwards; a running spinner fails with the message; with no spinner nothing happens. |
| ThemeDefault.DefaultTheme.UpdateSpinner | src/lib/theme/default.ts:218-222 | The field keeps its spinner; a running one shows the new text; with none nothing happens. |
| ThemeDefault.DefaultTheme.GetSpinner | src/lib/theme/default.ts:102-104 | Returns the field, changing nothing. |
| ThemeDefault.StopTwice | src/lib/theme/default.ts:143-153 | Stopping a second time finds no spinner and does nothing. |
| Themes.ThemeManager.GetTheme | src/lib/theme/manager.ts:16-22 | Fails with the "No theme set" message exactly when no theme is set, otherwise returns the current theme; changes nothing. |
| Themes.ThemeManager.HasTheme | src/lib/theme/manager.ts:27-29 | True exactly when a theme is set; changes nothing. |
| Themes.ThemeManager.SetTheme | src/lib/theme/manager.ts:34-36 | The current theme becomes the given one, replacing any other. |
| Themes.CurrentTheme | src/lib/theme/manager.ts:43-45 | `theme()` answers exactly what `getTheme` answers. |
| Themes.LastWriteWins | src/lib/theme/manager.ts:34-36 | On a fresh manager `getTheme` fails; after two `setTheme` calls a theme is set and `getTheme` returns the second. |
| ExistingOutput.CheckAsWritten | src/commands/present.ts:70-84 | As written: the check fails, with the `--update` message, exactly when the file is missing and `--update` is set; otherwise it goes on with the file's contents if there are any. |
| ExistingOutput.CheckIntended | src/commands/present.ts:70-84 | As intended: the check fails exactly when the file's existence differs from `--update`: "already exists" without `--update`, the `--update` message without a file. |
| ExistingOutput.AsWrittenDiffersOnlyOnExistingFile | src/commands/present.ts:71-84 | The two checks differ exactly for an existing file without `--update`, which the written check lets through with its contents. |
| ExistingOutput.AlreadyExistsIsSwallowed | src/commands/timeline.ts:52-66 | For an existing `slides.html` without `--update`, the written check goes on with the contents and the intended one stops. |
| PresentCommand.ReadInputs | src/commands/present.ts:87-97 | The file loop gives one piece per file in flag order, or the error naming the first file that cannot be read. |
| PresentCommand.ReadPiecesMeaning | src/commands/present.ts:88-97 | Reading succeeds exactly when every file exists under its resolved path. Piece i is then `# File: <path i>` as given, followed by that file's contents. |
| PresentCommand.ReadPiecesFirstFailure | src/commands/present.ts:93-95 | The failure names the first file that cannot be read. |
| PresentCommand.AssemblePieces | src/commands/present.ts:99-107 | The pieces after `push` and `unshift`: the existing presentation, the files, the piped input. |
| PresentCommand.PiecesOrder | src/commands/present.ts:88-107 | The existing presentation (if non-empty) is first, the files follow in flag order, the piped input (if non-empty) is last, and nothing else is there. |
| PresentCommand.Run | src/commands/present.ts:57-150 | The run is `OutcomeAsWritten`, what the source does: the extension check, the try/catch output-file check whose "already exists" error is swallowed, the file reads, the no-input check, the present task on the joined pieces and the write of its HTML. |
| PresentCommand.ExtensionCheckedFirst | src/commands/present.ts:62-64 | An output not ending in `.html` is refused before anything else, whatever the files, stdin and output-file check. |
| PresentCommand.UpdateNeedsExistingFile | src/commands/present.ts:79-83 | `--update` without an existing output file is refused with the `--update` message, as written and as intended. |
| PresentCommand.ExistingFileWithoutUpdateProceeds | src/commands/present.ts:71-84 | As written, an existing non-empty output file without `--update` does not stop the run, and the run overwrites that file with the new HTML. |
| PresentCommand.ExistingFileWithoutUpdateRefused | src/commands/present.ts:74-78 | As intended, the same run stops with the "already exists" message. |
| PresentCommand.AsWrittenAgreesElsewhere | src/commands/present.ts:70-84 | In every other case the run as written and the run as intended are the same. |
| PresentCommand.MissingInputFileAborts | src/commands/present.ts:93-95 | Under either output-file check, a missing input file stops the run with the message naming the first such file. |
| PresentCommand.NoInputExactly | src/commands/present.ts:110-112 | Under either output-file check, past the file checks the no-input error is raised exactly when there is no piece, or only one while updating. |
| PresentCommand.EmptyExistingFileNeedsTwoInputs | src/commands/present.ts:105-112 | Updating an empty output file with one input file and no piped input is refused for want of input, as written and as intended. |
| PresentCommand.SuccessWritesHtml | src/commands/present.ts:114-150 | Under either output-file check, a successful run writes the present task's HTML to the resolved output path, the same key the check read, and changes no other file. That task receives the pieces joined by `\n\n---\n\n`. |
| TimelineCommand.AssembleContext | src/commands/timeline.ts:71-89 | The parts pushed in turn and joined, or nothing without parts. |
| TimelineCommand.ContextStringMeaning | src/commands/timeline.ts:72-89 | The context is missing exactly when neither the existing file nor stdin has anything. Otherwise it is the existing part, the piped part, or both in that order around the separator. |
| TimelineCommand.TaskOptions | src/commands/timeline.ts:106-112 | The timeline task always shows its output, gets the directory and the context, and never gets the output path. |
| TimelineCommand.Run | src/commands/timeline.ts:43-119 | The run is `OutcomeAsWritten`, what the source does: the try/catch output-file check whose "already exists" error is swallowed, the context, the timeline task, and the check that the output file exists afterwards. |
| TimelineCommand.UpdateNeedsExistingFile | src/commands/timeline.ts:61-65 | `--update` without an existing output file is refused before the timeline task, as written and as intended. |
| TimelineCommand.ExistingFileWithoutUpdateProceeds | src/commands/timeline.ts:52-66 | As written, an existing output file without `--update` goes into the context and the run succeeds. |
| TimelineCommand.ExistingFileWithoutUpdateRefused | src/commands/timeline.ts:56-60 | As intended, the same run stops with the "already exists" message. |
| TimelineCommand.AsWrittenAgreesElsewhere | src/commands/timeline.ts:52-66 | In every other case the run as written and the run as intended are the same. |
| TimelineCommand.UpdateCarriesExistingFile | src/commands/timeline.ts:75-79 | Updating an existing non-empty file runs the timeline task with the file's contents in the context. The same holds for the run as written. |
| TimelineCommand.AgentMustCreateOutput | src/commands/timeline.ts:114-119 | A new output file that the agent did not create fails the run after the timeline task. The same holds for the run as written. |
| TimelineCommand.OutputPathNotPassedToTask | src/commands/timeline.ts:106-112 | Two runs that differ only in a new output path, both created by the agent, give the same result. The same holds for the run as written. |
| TimelineTask.FullContext | src/tasks/timeline.ts:62 | The date line alone without a context (absent or empty). Otherwise the date line, an empty line and the context: it starts with the date line and `\n\n`, ends with the context and is exactly as long as the three pieces. |
| TimelineTask.BuildTimelinePrompt | src/tasks/timeline.ts:51-70 | The prompt starts with the base prompt and ends with the context section of the merged context. |
| TimelineTask.MessageReachesPrompt | src/tasks/timeline.ts:65-69 | A given message reaches the prompt unchanged after the banner opening. |
| TimelineTask.EmptyContextIsDateOnly | src/tasks/timeline.ts:62 | An empty and an absent context give the same prompt, with the date line as the whole context. |
| TimelineTask.TimelineExecution | src/tasks/timeline.ts:78-93 | The agent gets exactly Read, Grep, Glob, ListDir and Bash, in that order, and no system prompt. `showUI` is true unless given as false. |
| TimelineTask.TimelineToolsCannotWrite | src/tasks/timeline.ts:85 | No timeline tool is `Edit` or `Write`, and every one is in the vocabulary. |
| TimelineTask.Timeline | src/tasks/timeline.ts:77-102 | `analysis` is the agent's text for the timeline prompt's stream; duration, message count, tool counts and total are carried over unchanged. |
| TimelineTask.TimelineIgnoresShowUI | src/tasks/timeline.ts:78-93 | Whether the output is shown does not change the result. |
| PresentTask.PresentContext | src/tasks/present.ts:63 | The context is never empty. It is the date line, an empty line, then the content: it starts with the date line and `\n\n`, ends with the content and is exactly as long as the three pieces. |
| PresentTask.BuildPresentPrompt | src/tasks/present.ts:52-75 | The prompt starts with the base prompt and ends with the context section of the date line and the content. |
| PresentTask.ContentVerbatim | src/tasks/present.ts:63-74 | The content reaches the prompt unchanged between the fences, after the date line. |
| PresentTask.ThemeNeverReachesPrompt | src/tasks/present.ts:66-74 | The `taskConfiguration` option has no effect on the result: the requested theme never reaches the prompt. |
| PresentTask.PresentExecution | src/tasks/present.ts:83-98 | No tools and no system prompt; `showUI` is true unless given as false. |
| PresentTask.Present | src/tasks/present.ts:82-107 | `html` is the agent's text for the present prompt's stream; the other four figures are carried over unchanged. |

## Left out

- The agent SDK: `query` is a parameter, a function from the configuration and the prompt
  to the message stream. The stream is a finite sequence; asynchrony is not modelled.
- The clock: `duration` is a parameter. The `toFixed(2)` rounding and the seconds
  arithmetic are floating point and are not modelled.
- Terminal rendering: colours, `ora` spinners, boxes, tables and `console.log` output are
  not modelled. The theme's tool-use line, rendered message lines, table rows and spinner
  state keep only the text and state the code computes.
- Themes.ThemeManager: the manager's `currentTheme` is a static field in the source. The
  model makes it the field of one manager object, and `theme()` takes that object as an
  argument.
- String lengths count Unicode code points, while JavaScript counts UTF-16 units. The
  60-character cut of Bash commands and the 50-character header underline differ from the
  source for characters outside the Basic Multilingual Plane.
- ToolEfficiency.MissingTools: its mention test lower-cases ASCII letters only, while `toLowerCase` also folds
  other scripts.
- ToolCounts.TallyCounts: tool names are assumed not to be integer-like (`"0"`, `"42"`) and not to
  be names of `Object.prototype` properties (`constructor`, `toString`, `__proto__`). A
  JavaScript object lists integer-like keys first, in ascending order. `counts[name] || 0`
  reads an inherited property for such a name, so its count becomes a string or is never
  stored. The first-use key order of `Agent.ToolUseCountsMeaning`, `Agent.NamedToolUseCounts`
  and `ToolCounts.TallyCounts` holds only under this assumption.
- Numbers: tool counts are unbounded naturals. `parseInt` on a very long numeral loses
  precision in JavaScript; the model reads it exactly. The `maxToolCalls` variable is an
  integer; non-integer maxima are not modelled.
- Regular expressions: the validator's pattern is an abstract test and its printed form.
  The scorer's `/Tool calls: (\d+)/` is modelled exactly as the leftmost match and a greedy
  digit run.
- The file system: `readFile`, `writeFile`, `mkdir` and `access` act on a snapshot map from
  path to contents. In `present` every path is looked up under `resolve` of it, as Node resolves
  a relative path against the working directory. `timeline` reads and checks the output under
  the spelling given, which is the one key it uses. Two spellings that `resolve` does not
  identify (symbolic links, say) are two files. Files the agent creates during the timeline task are a parameter set.
  `path.resolve` and `lstatSync` are parameters. A file read counts as failed exactly when
  the path is not in the map, so permission errors are not distinguished.
- Prompt files: the loaded prompt file (`loadPromptFromFile`) and the date line are
  parameters. The system prompts read at module initialisation are not modelled.
- Piped input: stdin is an optional string. Its timeout-based reading is not modelled.
- The HTTP server and browser launch of `present --serve` are not modelled; the run only
  reports whether it would serve.
- The commands take their task as a parameter. `PresentTask.Present` and
  `TimelineTask.Timeline` model those tasks given the prompt file, date line, SDK and
  clock.
- Not modelled:
  - the `study` task and command;
  - the eval provider: it calls helpers and reads result fields that the agent module does
    not define, so there is no consistent behaviour to model;
  - the demo and UI helper code;
  - the date and format utilities (clock and locale);
  - the sample fixtures of the evals.
- The theme interface declares `resetToolStats` and an argument-less `displayToolStats`
  that the default theme does not match. This is a type-level mismatch with no behaviour
  to model.

## Findings

| source | as written | input that shows it | evidently intended | confidence | as-written member | corrected member |
|---|---|---|---|---|---|---|
| src/commands/present.ts:71-84 | the "already exists" error is raised inside the `try`. The bare `catch` catches it and rethrows only when `--update` is set. | an existing `slides.html`, no `--update`, one input file: the run goes on and overwrites the file | refuse an existing output file without `--update` with the "already exists" message | not executed | ExistingOutput.CheckAsWritten | ExistingOutput.CheckIntended |
| src/commands/timeline.ts:52-66 | the same `try`/`catch`. The existing file's contents go into the agent's context as if `--update` had been given. | an existing output file, no `--update`: the run proceeds and succeeds | refuse with the "already exists" message before the timeline task runs | not executed | TimelineCommand.OutcomeAsWritten | TimelineCommand.Outcome |

For each row, both halves are proved:
- As written: `ExistingOutput.AlreadyExistsIsSwallowed`,
  `PresentCommand.ExistingFileWithoutUpdateProceeds` and
  `TimelineCommand.ExistingFileWithoutUpdateProceeds`.
- As intended: `ExistingOutput.AsWrittenDiffersOnlyOnExistingFile`,
  `PresentCommand.ExistingFileWithoutUpdateRefused` and
  `TimelineCommand.ExistingFileWithoutUpdateRefused`.

`PresentCommand.Run` and `TimelineCommand.Run` do what the source does: they use the written check and are proved equal to `OutcomeAsWritten`. `Outcome` is the corrected run, with the intended check. The `AsWrittenAgreesElsewhere` lemmas show that the two runs agree on every other input. The other lemmas about the commands hold for both runs: they are stated over `OutcomeWith` for any check, or for both runs.
