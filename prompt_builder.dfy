/** Prompt assembly (`buildPrompt`, `buildStudyPrompt`): a base prompt, then an optional
    user-request banner, then an optional fenced context block, in that order. An empty
    string counts as absent, and nothing inside a section is escaped. */
module PromptBuilder {
  import opened Wrappers
  import opened JsStrings

  /** An optional string that is present and non-empty (truthy). */
  predicate IsGiven(o: Option<string>) {
    o.Some? && o.value != ""
  }

  /** The banner rule: 80 heavy horizontal box-drawing characters (U+2501). */
  const Rule: string := Repeat('\U{2501}', 80)

  /** The banner text before the message (the warning sign is U+26A0 U+FE0F). */
  const MessageOpen: string :=
    "\n\n" + Rule + "\n\U{26A0}\U{FE0F}  PAY ATTENTION TO THIS REQUEST BY USER:\n\n"

  /** The banner text after the message. */
  const MessageClose: string :=
    "\n\nThis is a specific request from the user that should be prioritized in your analysis.\n" + Rule

  const Fence: string := "```"

  /** The context heading. */
  const ContextHeading: string :=
    "\n\nADDITIONAL CONTEXT:\nThe user has provided the following context from an external program (piped input):\n\n"

  /** The closing instruction after the fenced block. */
  const ContextTrailer: string :=
    "\n\nPlease consider this context in your analysis. This might be git diffs, command output, notes, or any other relevant information that should inform your understanding."

  function MessageSection(message: string): string {
    MessageOpen + message + MessageClose
  }

  /** The context between two fence lines, unescaped. */
  function FencedBlock(context: string): string {
    Fence + "\n" + context + "\n" + Fence
  }

  function ContextSection(context: string): string {
    ContextHeading + (FencedBlock(context) + ContextTrailer)
  }

  /** `buildPrompt`. */
  function BuildPrompt(basePrompt: string, message: Option<string>, context: Option<string>)
    : (r: string)
    ensures StartsWith(r, basePrompt)
    ensures !IsGiven(message) && !IsGiven(context) ==> r == basePrompt
  {
    var prompt := basePrompt;
    var prompt := if IsGiven(message) then prompt + MessageSection(message.value) else prompt;
    if IsGiven(context) then prompt + ContextSection(context.value) else prompt
  }

  /** An empty message or context is the same as none. */
  lemma EmptyIsAbsent(basePrompt: string, message: Option<string>, context: Option<string>)
    ensures BuildPrompt(basePrompt, Some(""), context) == BuildPrompt(basePrompt, None, context)
    ensures BuildPrompt(basePrompt, message, Some("")) == BuildPrompt(basePrompt, message, None)
  {
  }

  /** A given message appears verbatim right after the base prompt and the banner opening,
      and is followed by the banner's close. */
  lemma MessageVerbatim(basePrompt: string, message: string, context: Option<string>)
    requires message != ""
    ensures var r := BuildPrompt(basePrompt, Some(message), context);
      var at := |basePrompt| + |MessageOpen|;
      at + |message| + |MessageClose| <= |r| &&
      r[|basePrompt|..at] == MessageOpen &&
      r[at..at + |message|] == message &&
      r[at + |message|..at + |message| + |MessageClose|] == MessageClose
  {
    OpenFollowsBase(basePrompt, message, context);
    MessageFollowsOpen(basePrompt, message, context);
    CloseFollowsMessage(basePrompt, message, context);
  }

  /** The prompt with a given message, as the three parts of the banner between the base
      prompt and the rest. */
  lemma MessagePromptParts(basePrompt: string, message: string, context: Option<string>)
    requires message != ""
    ensures BuildPrompt(basePrompt, Some(message), context) ==
      basePrompt + (MessageOpen + message + MessageClose) + (if IsGiven(context) then ContextSection(context.value) else "")
  {
  }

  lemma OpenFollowsBase(basePrompt: string, message: string, context: Option<string>)
    requires message != ""
    ensures var r := BuildPrompt(basePrompt, Some(message), context);
      |basePrompt| + |MessageOpen| <= |r| && r[|basePrompt|..|basePrompt| + |MessageOpen|] == MessageOpen
  {
    MessagePromptParts(basePrompt, message, context);
    FramedPiece(basePrompt, MessageOpen, message, MessageClose,
                if IsGiven(context) then ContextSection(context.value) else "");
  }

  lemma MessageFollowsOpen(basePrompt: string, message: string, context: Option<string>)
    requires message != ""
    ensures var r := BuildPrompt(basePrompt, Some(message), context);
      var at := |basePrompt| + |MessageOpen|;
      at + |message| <= |r| && r[at..at + |message|] == message
  {
    MessagePromptParts(basePrompt, message, context);
    FramedPiece(basePrompt, MessageOpen, message, MessageClose,
                if IsGiven(context) then ContextSection(context.value) else "");
  }

  lemma CloseFollowsMessage(basePrompt: string, message: string, context: Option<string>)
    requires message != ""
    ensures var r := BuildPrompt(basePrompt, Some(message), context);
      var at := |basePrompt| + |MessageOpen| + |message|;
      at + |MessageClose| <= |r| && r[at..at + |MessageClose|] == MessageClose
  {
    MessagePromptParts(basePrompt, message, context);
    FramedPiece(basePrompt, MessageOpen, message, MessageClose,
                if IsGiven(context) then ContextSection(context.value) else "");
  }

  /** Where each part of a framed piece sits in `base + (open + piece + close) + rest`. */
  lemma FramedPiece(base: string, open: string, piece: string, close: string, rest: string)
    ensures var r := base + (open + piece + close) + rest;
      var at := |base| + |open|;
      at + |piece| + |close| <= |r| &&
      r[|base|..at] == open &&
      r[at..at + |piece|] == piece &&
      r[at + |piece|..at + |piece| + |close|] == close
  {
    var r := base + (open + piece + close) + rest;
    var at := |base| + |open|;
    assert r[|base|..at] == open by {
      forall j | 0 <= j < |open| ensures r[|base| + j] == open[j] {}
    }
    assert r[at..at + |piece|] == piece by {
      forall j | 0 <= j < |piece| ensures r[at + j] == piece[j] {}
    }
    assert r[at + |piece|..at + |piece| + |close|] == close by {
      forall j | 0 <= j < |close| ensures r[at + |piece| + j] == close[j] {}
    }
  }

  /** A given message's banner follows the base prompt directly. */
  lemma BannerFollowsBase(basePrompt: string, message: string, context: Option<string>)
    requires message != ""
    ensures var r := BuildPrompt(basePrompt, Some(message), context);
      |basePrompt| + |MessageSection(message)| <= |r| &&
      r[|basePrompt|..|basePrompt| + |MessageSection(message)|] == MessageSection(message)
  {
    var rest := if IsGiven(context) then ContextSection(context.value) else "";
    assert BuildPrompt(basePrompt, Some(message), context) == basePrompt + MessageSection(message) + rest;
    MiddleOfConcat(basePrompt, MessageSection(message), rest);
  }

  /** A given context is the last thing in the prompt but the closing text, between the
      fences, unchanged. */
  lemma ContextVerbatim(basePrompt: string, message: Option<string>, context: string)
    requires context != ""
    ensures var r := BuildPrompt(basePrompt, message, Some(context));
      EndsWith(r, FencedBlock(context) + ContextTrailer)
  {
    ContextBlockEndsPrompt(basePrompt, message, context);
    SuffixOfSuffix(BuildPrompt(basePrompt, message, Some(context)), ContextSection(context),
                   ContextHeading, FencedBlock(context) + ContextTrailer);
  }

  /** The fenced block is the opening fence line, the context unchanged, and the closing
      fence on a line of its own. */
  lemma FencedBlockParts(context: string)
    ensures FencedBlock(context)[..|Fence| + 1] == Fence + "\n"
    ensures FencedBlock(context)[|Fence| + 1..|Fence| + 1 + |context|] == context
    ensures FencedBlock(context)[|Fence| + 1 + |context|..] == "\n" + Fence
  {
    MiddleOfConcat(Fence + "\n", context, "\n" + Fence);
    assert FencedBlock(context) == (Fence + "\n") + context + ("\n" + Fence);
  }

  /** A given context's block is the end of the prompt. */
  lemma ContextBlockEndsPrompt(basePrompt: string, message: Option<string>, context: string)
    requires context != ""
    ensures EndsWith(BuildPrompt(basePrompt, message, Some(context)), ContextSection(context))
  {
    var head := if IsGiven(message) then basePrompt + MessageSection(message.value) else basePrompt;
    assert BuildPrompt(basePrompt, message, Some(context)) == head + ContextSection(context);
    MiddleOfConcat(head, ContextSection(context), "");
  }

  /** The end of the end of a string is an end of it. */
  lemma SuffixOfSuffix(s: string, suffix: string, front: string, back: string)
    requires EndsWith(s, suffix) && suffix == front + back
    ensures EndsWith(s, back)
  {
    assert s[|s| - |back|..] == suffix[|front|..];
  }

  /** Where the middle piece of a three-piece concatenation sits. */
  lemma MiddleOfConcat(a: string, b: string, c: string)
    ensures |a + b + c| == |a| + |b| + |c|
    ensures (a + b + c)[|a|..|a| + |b|] == b
    ensures (a + b + c)[..|a|] == a
    ensures (a + b + c)[|a| + |b|..] == c
  {
  }

  /** A slice of a piece found at offset `i` of `s` is the slice of `s` shifted by `i`. */
  lemma SliceOfSlice(s: string, i: nat, piece: string, k: nat, l: nat)
    requires i + |piece| <= |s| && s[i..i + |piece|] == piece
    requires k <= l <= |piece|
    ensures s[i + k..i + l] == piece[k..l]
  {
    forall j | 0 <= j < l - k ensures s[i + k..i + l][j] == piece[k..l][j] {
      assert s[i + k + j] == s[i..i + |piece|][k + j];
    }
  }

  /** With both given, the banner comes first and the context block follows it directly. */
  lemma BannerBeforeContext(basePrompt: string, message: string, context: string)
    requires message != "" && context != ""
    ensures var r := BuildPrompt(basePrompt, Some(message), Some(context));
      var split := |basePrompt| + |MessageSection(message)|;
      split <= |r| &&
      r[..split] == BuildPrompt(basePrompt, Some(message), None) &&
      r[split..] == ContextSection(context)
  {
  }

  /** Without a context there is no context block: the prompt is the base prompt followed by
      nothing but the banner, or is the base prompt itself. */
  lemma NoContextNoBlock(basePrompt: string, message: Option<string>)
    ensures var r := BuildPrompt(basePrompt, message, None);
      (IsGiven(message) ==> EndsWith(r, MessageSection(message.value)) &&
                            |r| == |basePrompt| + |MessageSection(message.value)|) &&
      (!IsGiven(message) ==> r == basePrompt)
  {
    if IsGiven(message) {
      var r := BuildPrompt(basePrompt, message, None);
      assert r == basePrompt + MessageSection(message.value);
      assert r[|r| - |MessageSection(message.value)|..] == MessageSection(message.value);
    }
  }

  const StudyLead: string := "Study the directory at path: "

  const StudyTail: string :=
    "\n\nDevelop a thorough understanding of this directory and its contents. Explore recursively and look at parent directories if needed for context.\n\nProvide a comprehensive analysis that explains what this codebase is, how it works, and any important insights about its structure, dependencies, architecture, and functionality."

  /** The study base prompt names the directory verbatim. */
  function StudyBasePrompt(directory: string): (r: string)
    ensures StartsWith(r, StudyLead + directory)
  {
    StudyLead + directory + StudyTail
  }

  /** `buildStudyPrompt`: the general builder on the study base prompt. */
  function BuildStudyPrompt(directory: string, message: Option<string>, context: Option<string>)
    : (r: string)
    ensures StartsWith(r, StudyLead + directory)
    ensures !IsGiven(message) && !IsGiven(context) ==> r == StudyBasePrompt(directory)
  {
    var r := BuildPrompt(StudyBasePrompt(directory), message, context);
    PrefixOfPrefix(r, StudyBasePrompt(directory), StudyLead + directory);
    r
  }

  /** The start of the start of a string is a start of it. */
  lemma PrefixOfPrefix(s: string, p: string, q: string)
    requires StartsWith(s, p) && StartsWith(p, q)
    ensures StartsWith(s, q)
  {
    assert s[..|q|] == p[..|q|];
  }
}
