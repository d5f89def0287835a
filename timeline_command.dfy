/** The `timeline` command's `run`: the output-file check, the context assembled from the
    existing output and the piped input, the timeline task, and the check that the agent created the
    output file. The file system is a snapshot (path to contents); the paths the agent
    creates while it runs, stdin and the timeline task are parameters. Terminal output is not
    modelled. */
module TimelineCommand {
  import opened Wrappers
  import opened JsStrings
  import opened PromptBuilder
  import opened ExistingOutput
  import opened TimelineTask

  datatype TimelineFlags = TimelineFlags(directory: string, message: Option<string>, output: string, update: bool)

  /** What the run depends on besides its flags. `task` stands for `timelineTask`, which
      `TimelineTask.Timeline` models; `created` holds the paths the agent's tools create. */
  datatype Environment = Environment(
    files: map<string, string>, stdin: Option<string>, task: TimelineOptions -> TimelineResult,
    created: set<string>)

  const AgentFailedMessage: string := "Agent failed to create the output file. Please check the logs."
  const Separator: string := "\n\n---\n\n"

  function ExistsMessage(output: string): string {
    "Output file already exists: " + output +
    "\nUse --update or -u flag to update the existing file with new findings."
  }

  function ExistingPart(existing: string): string {
    "EXISTING OUTPUT FILE CONTENT (you are updating this file with new findings):\n\n" + existing
  }

  function StdinPart(stdin: string): string {
    "PIPED INPUT:\n\n" + stdin
  }

  /** `contextParts`: the existing output first, the piped input second, each only when
      non-empty. */
  function ContextParts(existing: Option<string>, stdin: Option<string>): seq<string> {
    (if IsGiven(existing) then [ExistingPart(existing.value)] else []) +
    (if IsGiven(stdin) then [StdinPart(stdin.value)] else [])
  }

  /** `contextString`: undefined without parts, the joined parts otherwise. */
  function ContextString(parts: seq<string>): Option<string> {
    if |parts| > 0 then Some(Join(parts, Separator)) else None
  }

  /** The options handed to the timeline task: an empty message dropped and the terminal output always
      shown. The resolved output path is passed too, but the timeline task's options have no field for
      it, so it is dropped here. */
  function TaskOptions(flags: TimelineFlags, context: Option<string>): (o: TimelineOptions)
    ensures o.showUI == Some(true) && o.directory == flags.directory && o.context == context
  {
    TimelineOptions(context, flags.directory, if IsGiven(flags.message) then flags.message else None, Some(true))
  }

  /** `fs.access(output)` after the timeline task: the file was there before, or the agent made it. */
  predicate Accessible(env: Environment, path: string) {
    path in env.files || path in env.created
  }

  /** The run, given the outcome of the output-file check. */
  function OutcomeWith(flags: TimelineFlags, env: Environment, check: Result<Option<string>, string>)
    : Result<TimelineResult, string>
  {
    if check.Err? then Err(check.error)
    else
      var context := ContextString(ContextParts(check.value, env.stdin));
      var result := env.task(TaskOptions(flags, context));
      if !Accessible(env, flags.output) then Err(AgentFailedMessage) else Ok(result)
  }

  /** The output-file check as intended: an existing file needs `--update`, and `--update`
      needs an existing file. */
  function TimelineCheck(flags: TimelineFlags, env: Environment): Result<Option<string>, string> {
    CheckIntended(env.files, flags.output, flags.update, ExistsMessage(flags.output))
  }

  /** The run, with the intended output-file check. */
  function Outcome(flags: TimelineFlags, env: Environment): Result<TimelineResult, string> {
    OutcomeWith(flags, env, TimelineCheck(flags, env))
  }

  /** The run as the source performs it, with the check whose "already exists" error the
      bare `catch` swallows. */
  function OutcomeAsWritten(flags: TimelineFlags, env: Environment): Result<TimelineResult, string> {
    OutcomeWith(flags, env, CheckAsWritten(env.files, flags.output, flags.update, ExistsMessage(flags.output)))
  }

  /** The parts pushed in turn, then joined when there is any. */
  method AssembleContext(existingContent: Option<string>, stdinInput: Option<string>)
    returns (contextString: Option<string>)
    ensures contextString == ContextString(ContextParts(existingContent, stdinInput))
  {
    contextString := None;
    var contextParts: seq<string> := [];
    if IsGiven(existingContent) {
      contextParts := contextParts + [ExistingPart(existingContent.value)];
    }
    if IsGiven(stdinInput) {
      contextParts := contextParts + [StdinPart(stdinInput.value)];
    }
    if |contextParts| > 0 {
      contextString := Some(Join(contextParts, Separator));
    }
  }

  /** `run`, as the source performs it: the output-file check is the one whose "already
      exists" error the bare `catch` swallows. */
  method Run(flags: TimelineFlags, env: Environment) returns (r: Result<TimelineResult, string>)
    ensures r == OutcomeAsWritten(flags, env)
  {
    var check := CheckAsWritten(env.files, flags.output, flags.update, ExistsMessage(flags.output));
    if check.Err? {
      return Err(check.error);
    }
    var contextString := AssembleContext(check.value, env.stdin);
    var result := env.task(TaskOptions(flags, contextString));
    if !Accessible(env, flags.output) {
      return Err(AgentFailedMessage);
    }
    r := Ok(result);
  }

  // ---------------------------------------------------------------------------------------
  // What the run promises

  /** The context is missing exactly when neither source has anything; otherwise it is the
      existing output, the piped input, or both in that order around the separator. */
  lemma ContextStringMeaning(existing: Option<string>, stdin: Option<string>)
    ensures ContextString(ContextParts(existing, stdin)).None? <==> !IsGiven(existing) && !IsGiven(stdin)
    ensures IsGiven(existing) && !IsGiven(stdin) ==>
      ContextString(ContextParts(existing, stdin)) == Some(ExistingPart(existing.value))
    ensures !IsGiven(existing) && IsGiven(stdin) ==>
      ContextString(ContextParts(existing, stdin)) == Some(StdinPart(stdin.value))
    ensures IsGiven(existing) && IsGiven(stdin) ==>
      ContextString(ContextParts(existing, stdin)) ==
        Some(ExistingPart(existing.value) + Separator + StdinPart(stdin.value))
  {
    if IsGiven(existing) && IsGiven(stdin) {
      var parts := [ExistingPart(existing.value), StdinPart(stdin.value)];
      assert ContextParts(existing, stdin) == parts;
      assert parts[1..] == [StdinPart(stdin.value)];
      assert Join(parts[1..], Separator) == StdinPart(stdin.value);
    }
  }

  /** `--update` without an output file to update is refused before the timeline task runs, as
      written and as intended. */
  lemma UpdateNeedsExistingFile(flags: TimelineFlags, env: Environment)
    requires flags.update && flags.output !in env.files
    ensures Outcome(flags, env) == Err(NoFileForUpdateMessage)
    ensures OutcomeAsWritten(flags, env) == Err(NoFileForUpdateMessage)
  {
  }

  /** As written, an existing output file without `--update` is not refused: its contents go
      into the context, and since the file exists the final check passes too. */
  lemma ExistingFileWithoutUpdateProceeds(flags: TimelineFlags, env: Environment)
    requires !flags.update && flags.output in env.files
    ensures OutcomeAsWritten(flags, env) ==
      Ok(env.task(TaskOptions(flags, ContextString(ContextParts(Some(env.files[flags.output]), env.stdin)))))
  {
  }

  /** With the intended check, the same run stops with the "already exists" error before the
      task runs. */
  lemma ExistingFileWithoutUpdateRefused(flags: TimelineFlags, env: Environment)
    requires !flags.update && flags.output in env.files
    ensures Outcome(flags, env) == Err(ExistsMessage(flags.output))
  {
  }

  /** Everywhere else the run as written and the run as intended agree. */
  lemma AsWrittenAgreesElsewhere(flags: TimelineFlags, env: Environment)
    requires !(flags.output in env.files && !flags.update)
    ensures OutcomeAsWritten(flags, env) == Outcome(flags, env)
  {
    AsWrittenDiffersOnlyOnExistingFile(env.files, flags.output, flags.update, ExistsMessage(flags.output));
  }

  /** With `--update` on an existing file, its contents go into the context and the timeline task
      runs. */
  lemma UpdateCarriesExistingFile(flags: TimelineFlags, env: Environment)
    requires flags.update && flags.output in env.files && env.files[flags.output] != ""
    requires Accessible(env, flags.output)
    ensures Outcome(flags, env) ==
      Ok(env.task(TaskOptions(flags, ContextString(ContextParts(Some(env.files[flags.output]), env.stdin)))))
    ensures OutcomeAsWritten(flags, env) == Outcome(flags, env)
  {
  }

  /** A new output file the agent did not create fails the run after the timeline task. */
  lemma AgentMustCreateOutput(flags: TimelineFlags, env: Environment)
    requires !flags.update && flags.output !in env.files && flags.output !in env.created
    ensures Outcome(flags, env) == Err(AgentFailedMessage)
    ensures OutcomeAsWritten(flags, env) == Err(AgentFailedMessage)
  {
  }

  /** The output path does not reach the timeline task: two runs that differ only in a new output
      path, both created by the agent, give the same result. */
  lemma OutputPathNotPassedToTask(flags: TimelineFlags, env: Environment, other: string)
    requires !flags.update
    requires flags.output !in env.files && other !in env.files
    requires flags.output in env.created && other in env.created
    ensures Outcome(flags, env) == Outcome(flags.(output := other), env)
    ensures Outcome(flags, env).Ok?
    ensures OutcomeAsWritten(flags, env) == Outcome(flags, env)
  {
  }
}
