/** The output-file check both commands make before they run (the `try`/`catch` around
    `fs.readFile(output)` in `present` and `timeline`). As written, the "already exists"
    error raised inside the `try` is caught by the bare `catch`, which rethrows only when
    `--update` is set; so that error never reaches the user, and an existing file is simply
    read and used. The intended check, which refuses an existing file without `--update`, is
    given beside it. The file system is a snapshot: path to contents. */
module ExistingOutput {
  import opened Wrappers

  const NoFileForUpdateMessage: string := "Cannot use --update flag: output file does not exist yet."

  /** What the `try` block throws, if anything. */
  datatype Thrown = Nothing | ReadFailed | CommandError(message: string)

  /** The check as written: the existing contents (if the file could be read), or the error
      that escapes the `catch`. `existsMessage` is the error the `try` block raises. */
  function CheckAsWritten(files: map<string, string>, output: string, update: bool,
                          existsMessage: string): (r: Result<Option<string>, string>)
    ensures r.Err? <==> output !in files && update
    ensures r.Err? ==> r.error == NoFileForUpdateMessage
    ensures r.Ok? ==> r.value == if output in files then Some(files[output]) else None
  {
    // try: the contents are assigned before the error is raised
    var existingContent := if output in files then Some(files[output]) else None;
    var thrown := if output !in files then ReadFailed else if !update then CommandError(existsMessage) else Nothing;
    // catch (anything): rethrows only with --update
    if thrown.Nothing? then Ok(existingContent)
    else if update then Err(NoFileForUpdateMessage)
    else Ok(existingContent)
  }

  /** The check as intended: an existing file needs `--update`, and `--update` needs an
      existing file. */
  function CheckIntended(files: map<string, string>, output: string, update: bool,
                         existsMessage: string): (r: Result<Option<string>, string>)
    ensures r.Err? <==> (output in files) != update
    ensures output in files && !update ==> r == Err(existsMessage)
    ensures output !in files && update ==> r == Err(NoFileForUpdateMessage)
    ensures r.Ok? ==> r.value == if update then Some(files[output]) else None
  {
    if output in files then
      if !update then Err(existsMessage) else Ok(Some(files[output]))
    else if update then Err(NoFileForUpdateMessage)
    else Ok(None)
  }

  /** The two agree except on an existing file without `--update`, which the written check
      lets through with its contents. */
  lemma AsWrittenDiffersOnlyOnExistingFile(files: map<string, string>, output: string, update: bool,
                                           existsMessage: string)
    ensures (CheckAsWritten(files, output, update, existsMessage) !=
             CheckIntended(files, output, update, existsMessage)) <==> output in files && !update
    ensures output in files && !update ==>
      CheckAsWritten(files, output, update, existsMessage) == Ok(Some(files[output])) &&
      CheckIntended(files, output, update, existsMessage) == Err(existsMessage)
  {
  }

  /** An existing `slides.html` without `--update`: the written check goes on with its
      contents, the intended one stops. */
  lemma AlreadyExistsIsSwallowed()
    ensures var files := map["slides.html" := "<html></html>"];
      CheckAsWritten(files, "slides.html", false, "exists") == Ok(Some("<html></html>")) &&
      CheckIntended(files, "slides.html", false, "exists") == Err("exists")
  {
  }
}
