/** The `present` command's `run`: the pre-flight ladder (extension, output file, inputs),
    the assembly of the input pieces, the present task, and the write of the HTML. The file system
    is a snapshot (resolved path to contents) that reads consult and the final write updates:
    Node resolves a relative path against the working directory as `resolve` does, so every
    access goes through `resolve`; stdin
    is an optional string; path resolution and the present task are parameters. Terminal output and
    the HTTP server are not modelled. */
module PresentCommand {
  import opened Wrappers
  import opened JsStrings
  import opened PromptBuilder
  import opened ExistingOutput
  import opened PresentTask
  import TaskConfigurations

  datatype PresentFlags = PresentFlags(
    files: seq<string>, message: Option<string>, output: string, serve: bool,
    theme: TaskConfigurations.PresentTheme, update: bool)

  /** What the run depends on besides its flags. `task` stands for `presentTask`, which
      `PresentTask.Present` models given the prompt file, the date line, the SDK and the
      clock; keeping it a parameter keeps the command's proofs apart from the agent's. */
  datatype Environment = Environment(
    files: map<string, string>, stdin: Option<string>, resolve: string -> string,
    task: PresentOptions -> PresentResult)

  /** What a successful run leaves behind: where it wrote, the file system after the write,
      the present task's result, and whether it goes on to serve the file. */
  datatype PresentRun = PresentRun(
    outputPath: string, files: map<string, string>, result: PresentResult, serve: bool)

  const ExtensionMessage: string := "Output file must have .html extension"
  const NoInputMessage: string := "No input provided. Specify files with -f."
  const Separator: string := "\n\n---\n\n"

  function ExistsMessage(output: string): string {
    "Output file already exists: " + output +
    "\nUse --update or -u flag to update the existing presentation with new content."
  }

  function FailedReadMessage(path: string): string {
    "Failed to read file: " + path
  }

  function FilePiece(path: string, content: string): string {
    "# File: " + path + "\n\n" + content
  }

  function StdinPiece(stdin: string): string {
    "# Piped Input\n\n" + stdin
  }

  function ExistingPiece(existing: string): string {
    "# Existing Presentation (you are updating this with new content)\n\n" + existing
  }

  /** Reading the input files in flag order: one piece per file, or the error for the first
      file that cannot be read. Each file is looked up under its resolved path; its piece
      names it as given. */
  function ReadPieces(files: map<string, string>, resolve: string -> string, paths: seq<string>)
    : (r: Result<seq<string>, string>)
    ensures r.Ok? ==> |r.value| == |paths|
  {
    if paths == [] then Ok([])
    else
      match ReadPieces(files, resolve, paths[..|paths| - 1])
      case Err(e) => Err(e)
      case Ok(pieces) =>
        var path := paths[|paths| - 1];
        if resolve(path) in files then Ok(pieces + [FilePiece(path, files[resolve(path)])])
        else Err(FailedReadMessage(path))
  }

  /** Reading succeeds exactly when every file exists, and gives each file's piece in place. */
  lemma {:induction false} ReadPiecesMeaning(files: map<string, string>, resolve: string -> string,
                                             paths: seq<string>)
    ensures ReadPieces(files, resolve, paths).Ok? <==> forall i :: 0 <= i < |paths| ==> resolve(paths[i]) in files
    ensures ReadPieces(files, resolve, paths).Ok? ==> forall i :: 0 <= i < |paths| ==>
      ReadPieces(files, resolve, paths).value[i] == FilePiece(paths[i], files[resolve(paths[i])])
  {
    if paths != [] {
      var init := paths[..|paths| - 1];
      ReadPiecesMeaning(files, resolve, init);
      assert forall i :: 0 <= i < |init| ==> init[i] == paths[i];
    }
  }

  /** A read failure names the first file that cannot be read. */
  lemma {:induction false} ReadPiecesFirstFailure(files: map<string, string>, resolve: string -> string,
                                                  paths: seq<string>, i: nat)
    requires i < |paths| && resolve(paths[i]) !in files
    requires forall j :: 0 <= j < i ==> resolve(paths[j]) in files
    ensures ReadPieces(files, resolve, paths) == Err(FailedReadMessage(paths[i]))
  {
    var init := paths[..|paths| - 1];
    if i < |paths| - 1 {
      ReadPiecesFirstFailure(files, resolve, init, i);
    } else {
      ReadPiecesMeaning(files, resolve, init);
    }
  }

  /** A prefix that reads successfully, extended by one readable file. */
  lemma ReadPiecesSnoc(files: map<string, string>, resolve: string -> string, paths: seq<string>, i: nat,
                       pieces: seq<string>)
    requires i < |paths| && resolve(paths[i]) in files
    requires ReadPieces(files, resolve, paths[..i]) == Ok(pieces)
    ensures ReadPieces(files, resolve, paths[..i + 1]) ==
      Ok(pieces + [FilePiece(paths[i], files[resolve(paths[i])])])
  {
    assert paths[..i + 1][..i] == paths[..i];
  }

  /** The pieces in the order the command ends up with: the existing presentation (when its
      contents are non-empty), the files, then the piped input (when non-empty). */
  function Pieces(existing: Option<string>, fileParts: seq<string>, stdin: Option<string>): seq<string> {
    (if IsGiven(existing) then [ExistingPiece(existing.value)] else []) +
    fileParts +
    (if IsGiven(stdin) then [StdinPiece(stdin.value)] else [])
  }

  /** The no-input rule: no piece at all, or, when updating, only one. */
  predicate NoInput(pieces: seq<string>, update: bool) {
    |pieces| == 0 || (update && |pieces| == 1)
  }

  /** The options handed to the present task: the joined content, an empty message dropped, no
      terminal output, and the theme flag. */
  function TaskOptions(flags: PresentFlags, content: string): PresentOptions {
    PresentOptions(content, if IsGiven(flags.message) then flags.message else None, Some(false),
                   Some(PresentTaskConfig(Some(flags.theme))))
  }

  /** The run, given the outcome of the output-file check. */
  function OutcomeWith(flags: PresentFlags, env: Environment, check: Result<Option<string>, string>)
    : Result<PresentRun, string>
  {
    if !EndsWith(flags.output, ".html") then Err(ExtensionMessage)
    else if check.Err? then Err(check.error)
    else
      var read := ReadPieces(env.files, env.resolve, flags.files);
      if read.Err? then Err(read.error)
      else
        var pieces := Pieces(check.value, read.value, env.stdin);
        if NoInput(pieces, flags.update) then Err(NoInputMessage)
        else
          var result := env.task(TaskOptions(flags, Join(pieces, Separator)));
          var path := env.resolve(flags.output);
          Ok(PresentRun(path, env.files[path := result.html], result, flags.serve))
  }

  /** The output-file check as intended: an existing file needs `--update`, and `--update`
      needs an existing file. */
  function PresentCheck(flags: PresentFlags, env: Environment): Result<Option<string>, string> {
    CheckIntended(env.files, env.resolve(flags.output), flags.update, ExistsMessage(flags.output))
  }

  /** The run, with the intended output-file check. */
  function Outcome(flags: PresentFlags, env: Environment): Result<PresentRun, string> {
    OutcomeWith(flags, env, PresentCheck(flags, env))
  }

  /** The output-file check as the source performs it: the "already exists" error is
      swallowed by the bare `catch`. */
  function PresentCheckAsWritten(flags: PresentFlags, env: Environment): Result<Option<string>, string> {
    CheckAsWritten(env.files, env.resolve(flags.output), flags.update, ExistsMessage(flags.output))
  }

  /** The run as the source performs it. */
  function OutcomeAsWritten(flags: PresentFlags, env: Environment): Result<PresentRun, string> {
    OutcomeWith(flags, env, PresentCheckAsWritten(flags, env))
  }

  /** The `for` loop over the input files: each file's piece pushed in turn, or the first
      read failure. */
  method ReadInputs(files: map<string, string>, resolve: string -> string, paths: seq<string>)
    returns (r: Result<seq<string>, string>)
    ensures r == ReadPieces(files, resolve, paths)
  {
    var fileContents: seq<string> := [];
    for i := 0 to |paths|
      invariant ReadPieces(files, resolve, paths[..i]) == Ok(fileContents)
      invariant forall j :: 0 <= j < i ==> resolve(paths[j]) in files
    {
      var filePath := paths[i];
      if resolve(filePath) !in files {
        ReadPiecesFirstFailure(files, resolve, paths, i);
        return Err(FailedReadMessage(filePath));
      }
      ReadPiecesSnoc(files, resolve, paths, i, fileContents);
      fileContents := fileContents + [FilePiece(filePath, files[resolve(filePath)])];
    }
    assert paths[..|paths|] == paths;
    r := Ok(fileContents);
  }

  /** The piped input pushed after the files, then the existing presentation unshifted
      before them. */
  method AssemblePieces(existingContent: Option<string>, fileParts: seq<string>, stdinContent: Option<string>)
    returns (fileContents: seq<string>)
    ensures fileContents == Pieces(existingContent, fileParts, stdinContent)
  {
    fileContents := fileParts;
    if IsGiven(stdinContent) {
      fileContents := fileContents + [StdinPiece(stdinContent.value)];
    }
    if IsGiven(existingContent) {
      fileContents := [ExistingPiece(existingContent.value)] + fileContents;
    }
  }

  /** `run`, as the source performs it: the output-file check is the one whose "already
      exists" error the bare `catch` swallows. */
  method Run(flags: PresentFlags, env: Environment) returns (r: Result<PresentRun, string>)
    ensures r == OutcomeAsWritten(flags, env)
  {
    if !EndsWith(flags.output, ".html") {
      return Err(ExtensionMessage);
    }
    var fullOutputPath := env.resolve(flags.output);
    var check := CheckAsWritten(env.files, fullOutputPath, flags.update, ExistsMessage(flags.output));
    if check.Err? {
      return Err(check.error);
    }
    var existingContent := check.value;
    var read := ReadInputs(env.files, env.resolve, flags.files);
    if read.Err? {
      return Err(read.error);
    }
    var fileContents := AssemblePieces(existingContent, read.value, env.stdin);
    if |fileContents| == 0 || (flags.update && |fileContents| == 1) {
      return Err(NoInputMessage);
    }
    var content := Join(fileContents, Separator);
    var result := env.task(TaskOptions(flags, content));
    r := Ok(PresentRun(fullOutputPath, env.files[fullOutputPath := result.html], result, flags.serve));
  }

  // ---------------------------------------------------------------------------------------
  // What the run promises. Lemmas over `OutcomeWith` hold for either output-file check.

  /** A wrong extension stops the run before anything is read: the answer does not depend on
      the file system or on stdin. */
  lemma ExtensionCheckedFirst(flags: PresentFlags, env: Environment, check: Result<Option<string>, string>)
    requires !EndsWith(flags.output, ".html")
    ensures OutcomeWith(flags, env, check) == Err(ExtensionMessage)
  {
  }

  /** `--update` without an output file to update is refused, as written and as intended. */
  lemma UpdateNeedsExistingFile(flags: PresentFlags, env: Environment)
    requires EndsWith(flags.output, ".html") && flags.update && env.resolve(flags.output) !in env.files
    ensures Outcome(flags, env) == Err(NoFileForUpdateMessage)
    ensures OutcomeAsWritten(flags, env) == Err(NoFileForUpdateMessage)
  {
  }

  /** As written, an existing output file without `--update` is not refused: its contents
      become the first piece, and the run goes on to overwrite the file. */
  lemma ExistingFileWithoutUpdateProceeds(flags: PresentFlags, env: Environment)
    requires EndsWith(flags.output, ".html") && !flags.update && env.resolve(flags.output) in env.files
    requires env.files[env.resolve(flags.output)] != "" && ReadPieces(env.files, env.resolve, flags.files).Ok?
    ensures OutcomeAsWritten(flags, env).Ok?
    ensures OutcomeAsWritten(flags, env).value.files[env.resolve(flags.output)] ==
      OutcomeAsWritten(flags, env).value.result.html
  {
  }

  /** With the intended check, the same run stops with the "already exists" error. */
  lemma ExistingFileWithoutUpdateRefused(flags: PresentFlags, env: Environment)
    requires EndsWith(flags.output, ".html") && !flags.update && env.resolve(flags.output) in env.files
    ensures Outcome(flags, env) == Err(ExistsMessage(flags.output))
  {
  }

  /** Everywhere else the run as written and the run as intended agree. */
  lemma AsWrittenAgreesElsewhere(flags: PresentFlags, env: Environment)
    requires !(env.resolve(flags.output) in env.files && !flags.update)
    ensures OutcomeAsWritten(flags, env) == Outcome(flags, env)
  {
    AsWrittenDiffersOnlyOnExistingFile(env.files, env.resolve(flags.output), flags.update, ExistsMessage(flags.output));
  }

  /** A missing input file stops the run, naming the first such file. */
  lemma MissingInputFileAborts(flags: PresentFlags, env: Environment, check: Result<Option<string>, string>,
                               i: nat)
    requires EndsWith(flags.output, ".html") && check.Ok?
    requires i < |flags.files| && env.resolve(flags.files[i]) !in env.files
    requires forall j :: 0 <= j < i ==> env.resolve(flags.files[j]) in env.files
    ensures OutcomeWith(flags, env, check) == Err(FailedReadMessage(flags.files[i]))
  {
    ReadPiecesFirstFailure(env.files, env.resolve, flags.files, i);
  }

  /** Past the file checks, the run is refused for want of input exactly when there is no
      piece, or only one while updating. */
  lemma NoInputExactly(flags: PresentFlags, env: Environment, check: Result<Option<string>, string>)
    requires EndsWith(flags.output, ".html") && check.Ok?
    requires ReadPieces(env.files, env.resolve, flags.files).Ok?
    ensures OutcomeWith(flags, env, check) == Err(NoInputMessage) <==>
      NoInput(Pieces(check.value, ReadPieces(env.files, env.resolve, flags.files).value, env.stdin), flags.update)
  {
  }

  /** When updating an output file that is empty, one input file is not enough: the empty
      contents add no piece, and the single file's piece is taken for the existing one. */
  lemma EmptyExistingFileNeedsTwoInputs(flags: PresentFlags, env: Environment)
    requires EndsWith(flags.output, ".html") && flags.update
    requires env.resolve(flags.output) in env.files && env.files[env.resolve(flags.output)] == ""
    requires |flags.files| == 1 && env.resolve(flags.files[0]) in env.files && !IsGiven(env.stdin)
    ensures OutcomeAsWritten(flags, env) == Err(NoInputMessage)
    ensures Outcome(flags, env) == Err(NoInputMessage)
  {
    ReadPiecesMeaning(env.files, env.resolve, flags.files);
  }

  /** The pieces keep their sources' order: the existing presentation first, the files in
      flag order, the piped input last. */
  lemma PiecesOrder(existing: Option<string>, fileParts: seq<string>, stdin: Option<string>)
    ensures var pieces := Pieces(existing, fileParts, stdin);
      var k := if IsGiven(existing) then 1 else 0;
      |pieces| == k + |fileParts| + (if IsGiven(stdin) then 1 else 0) &&
      (IsGiven(existing) ==> pieces[0] == ExistingPiece(existing.value)) &&
      pieces[k..k + |fileParts|] == fileParts &&
      (IsGiven(stdin) ==> pieces[|pieces| - 1] == StdinPiece(stdin.value))
  {
  }

  /** A successful run writes the present task's HTML to the resolved output path, the same
      key the output-file check read, and touches no other file; the content the present task
      receives is the pieces joined by the separator. */
  lemma SuccessWritesHtml(flags: PresentFlags, env: Environment, check: Result<Option<string>, string>)
    requires OutcomeWith(flags, env, check).Ok?
    ensures var run := OutcomeWith(flags, env, check).value;
      run.outputPath == env.resolve(flags.output) &&
      run.outputPath in run.files && run.files[run.outputPath] == run.result.html &&
      (forall p :: p in env.files && p != run.outputPath ==> p in run.files && run.files[p] == env.files[p]) &&
      run.result == env.task(TaskOptions(flags,
        Join(Pieces(check.value, ReadPieces(env.files, env.resolve, flags.files).value, env.stdin), Separator)))
  {
  }
}
