/** The write-path gate (`createFileAccessValidator`): a decision, taken before every tool
    call, that lets any tool through except `Edit` and `Write`, and lets those through only
    for a path the gate was built for. Path resolution, the file-type lookup and the regular
    expression are parameters of the model. */
module ToolValidators {
  import opened Wrappers
  import opened JsStrings
  import Tools

  /** What `lstatSync` says about the resolved path; it throws for a path that does not exist. */
  datatype Stat = Missing | Exists(isDirectory: bool)

  /** The argument of the gate's constructor: a path (file or directory) or a regular
      expression, given by its test and its printed form. */
  datatype AccessPattern =
    | PathPattern(path: string)
    | RegExpPattern(test: string -> bool, source: string)

  /** How the gate recognises an allowed resolved path. */
  datatype Matcher =
    | DirectoryMatcher(dir: string)
    | FileMatcher(file: string)
    | PatternMatcher(test: string -> bool)

  datatype Validator = Validator(matcher: Matcher, errorMessage: string)

  /** The SDK's permission answer; `Throws` is the rejected promise `path.resolve` causes
      when `file_path` is a truthy value that is not a string. */
  datatype Decision = Allow(updatedInput: JsRecord) | Deny(message: string) | Throws

  predicate Matches(m: Matcher, path: string) {
    match m
    case DirectoryMatcher(dir) => StartsWith(path, dir + "/") || path == dir
    case FileMatcher(file) => path == file
    case PatternMatcher(test) => test(path)
  }

  /** Matcher and message selection: an existing directory gives the directory rule, any other
      path (a file, or nothing yet) the exact-file rule, a regular expression its own test. */
  function CreateFileAccessValidator(pattern: AccessPattern, resolve: string -> string,
                                     lstat: string -> Stat): (v: Validator)
    ensures pattern.PathPattern? && lstat(resolve(pattern.path)) == Exists(true) ==>
      v.matcher.DirectoryMatcher? && v.matcher.dir == resolve(pattern.path) &&
      v.errorMessage == "Access denied: You can only edit files in " + resolve(pattern.path)
    ensures pattern.PathPattern? && lstat(resolve(pattern.path)) != Exists(true) ==>
      v.matcher.FileMatcher? && v.matcher.file == resolve(pattern.path) &&
      v.errorMessage == "Access denied: You can only edit the file at " + resolve(pattern.path)
    ensures pattern.RegExpPattern? ==>
      v.matcher.PatternMatcher? && v.matcher.test == pattern.test &&
      v.errorMessage == "Access denied: File path does not match allowed pattern " + pattern.source
  {
    match pattern
    case PathPattern(path) =>
      var absolutePath := resolve(path);
      var isDirectory := match lstat(absolutePath) case Exists(d) => d case Missing => false;
      if isDirectory then
        Validator(DirectoryMatcher(absolutePath), "Access denied: You can only edit files in " + absolutePath)
      else
        Validator(FileMatcher(absolutePath), "Access denied: You can only edit the file at " + absolutePath)
    case RegExpPattern(test, source) =>
      Validator(PatternMatcher(test), "Access denied: File path does not match allowed pattern " + source)
  }

  function MissingPathMessage(toolName: string): string {
    "Error: " + toolName + " tool requires a file_path parameter"
  }

  /** The gate itself (the closure `createFileAccessValidator` returns). */
  function CanUseTool(v: Validator, toolName: string, input: JsRecord, resolve: string -> string)
    : (d: Decision)
    ensures !Tools.IsWriteTool(toolName) ==> d == Allow(input)
    ensures Tools.IsWriteTool(toolName) && !TruthyAt(input, "file_path") ==>
      d == Deny(MissingPathMessage(toolName))
    ensures Tools.IsWriteTool(toolName) && TruthyAt(input, "file_path") && !input["file_path"].Str? ==>
      d == Throws
    ensures Tools.IsWriteTool(toolName) && TruthyAt(input, "file_path") && input["file_path"].Str? ==>
      var requested := resolve(input["file_path"].s);
      d == if Matches(v.matcher, requested) then Allow(input)
           else Deny(v.errorMessage + ". Attempted to access: " + requested)
  {
    if !Tools.IsWriteTool(toolName) then Allow(input)
    else if !TruthyAt(input, "file_path") then Deny(MissingPathMessage(toolName))
    else match input["file_path"]
      case Str(inputFilePath) =>
        var requestedPath := resolve(inputFilePath);
        if !Matches(v.matcher, requestedPath) then
          Deny(v.errorMessage + ". Attempted to access: " + requestedPath)
        else
          Allow(input)
      case _ => Throws
  }

  /** The directory rule admits the directory and everything below it ... */
  lemma DirectoryAdmitsDescendants(dir: string, rest: string)
    ensures Matches(DirectoryMatcher(dir), dir)
    ensures Matches(DirectoryMatcher(dir), dir + "/" + rest)
  {
    var p := dir + "/" + rest;
    assert p[..|dir + "/"|] == dir + "/";
  }

  /** ... and no textual sibling: a path that extends the directory's name with anything but
      a `/` is refused (`/a/src2` for `/a/src`). */
  lemma DirectoryRefusesSiblings(dir: string, path: string)
    requires StartsWith(path, dir) && |path| > |dir| && path[|dir|] != '/'
    ensures !Matches(DirectoryMatcher(dir), path)
  {
  }

  /** A path outside the directory's name altogether is refused too. */
  lemma DirectoryRefusesUnrelated(dir: string, path: string)
    requires !StartsWith(path, dir)
    ensures !Matches(DirectoryMatcher(dir), path)
  {
  }

  /** The directory rule, both ways: admitted exactly when the path is the directory, or the
      directory followed by `/`. */
  lemma {:induction false} DirectoryRuleExactly(dir: string, path: string)
    ensures Matches(DirectoryMatcher(dir), path) <==>
      path == dir || (StartsWith(path, dir) && |path| > |dir| && path[|dir|] == '/')
  {
    if StartsWith(path, dir) && |path| > |dir| && path[|dir|] == '/' {
      assert path[..|dir| + 1] == path[..|dir|] + [path[|dir|]];
    }
    if StartsWith(path, dir + "/") {
      assert path[..|dir|] == (path[..|dir| + 1])[..|dir|];
      assert path[|dir|] == (dir + "/")[|dir|];
    }
  }

  /** The file rule admits the exact path only: no prefix of it and no extension of it. */
  lemma FileRuleExactly(file: string, path: string)
    ensures Matches(FileMatcher(file), path) <==> path == file
    ensures StartsWith(file, path) && path != file ==> !Matches(FileMatcher(file), path)
    ensures StartsWith(path, file) && path != file ==> !Matches(FileMatcher(file), path)
  {
  }

  /** For a write tool with a string path, the gate allows exactly what its matcher admits at
      the resolved path, and otherwise names that path in the refusal. */
  lemma {:induction false} WriteToolAllowedIffMatches(v: Validator, toolName: string, input: JsRecord,
                                                     resolve: string -> string)
    requires Tools.IsWriteTool(toolName)
    requires "file_path" in input && input["file_path"].Str? && input["file_path"].s != ""
    ensures CanUseTool(v, toolName, input, resolve).Allow? <==>
      Matches(v.matcher, resolve(input["file_path"].s))
    ensures CanUseTool(v, toolName, input, resolve).Allow? ==>
      CanUseTool(v, toolName, input, resolve).updatedInput == input
    ensures !CanUseTool(v, toolName, input, resolve).Allow? ==>
      CanUseTool(v, toolName, input, resolve) ==
        Deny(v.errorMessage + ". Attempted to access: " + resolve(input["file_path"].s))
  {
    assert TruthyAt(input, "file_path");
  }

  /** A gate built from an existing directory lets `Edit` write below it but not into a
      sibling whose name extends the directory's. */
  lemma DirectoryGateExample(resolve: string -> string, lstat: string -> Stat)
    requires resolve("/a/src") == "/a/src" && lstat("/a/src") == Exists(true)
    requires resolve("/a/src/sub/file.txt") == "/a/src/sub/file.txt"
    requires resolve("/a/src2/file.txt") == "/a/src2/file.txt"
    ensures var v := CreateFileAccessValidator(PathPattern("/a/src"), resolve, lstat);
      CanUseTool(v, "Edit", map["file_path" := Str("/a/src/sub/file.txt")], resolve).Allow? &&
      CanUseTool(v, "Edit", map["file_path" := Str("/a/src2/file.txt")], resolve).Deny?
  {
    var v := CreateFileAccessValidator(PathPattern("/a/src"), resolve, lstat);
    DirectoryAdmitsDescendants("/a/src", "sub/file.txt");
    assert "/a/src" + "/" + "sub/file.txt" == "/a/src/sub/file.txt";
    DirectoryRefusesSiblings("/a/src", "/a/src2/file.txt");
    assert TruthyAt(map["file_path" := Str("/a/src/sub/file.txt")], "file_path");
    assert TruthyAt(map["file_path" := Str("/a/src2/file.txt")], "file_path");
  }

  /** Read-only tools are never gated, whatever the gate was built for. */
  lemma ReadOnlyToolsAlwaysAllowed(v: Validator, toolName: string, input: JsRecord,
                                   resolve: string -> string)
    requires toolName in Tools.ReadOnlyTools
    ensures CanUseTool(v, toolName, input, resolve) == Allow(input)
  {
    Tools.ReadOnlyToolsAreNotGated();
  }
}
