/** The tool vocabulary of the agent SDK and the tool groups each task hands to it. */
module Tools {

  /** Every tool the SDK offers, in declaration order. */
  const AvailableTools: seq<string> := ["Read", "Write", "Grep", "Glob", "ListDir", "Bash", "Edit"]

  /** Tools that only inspect the file system. */
  const ReadOnlyTools: seq<string> := ["Read", "Grep", "Glob", "ListDir"]

  /** Tools that change files. */
  const FileModificationTools: seq<string> := ["Write", "Edit"]

  /** Tools that run commands. */
  const ExecutionTools: seq<string> := ["Bash"]

  /** A copy of the whole vocabulary (`[...AVAILABLE_TOOLS]`). */
  const AllTools: seq<string> := AvailableTools[..]

  predicate Distinct(s: seq<string>) {
    forall i, j :: 0 <= i < j < |s| ==> s[i] != s[j]
  }

  /** The tools a write-path gate inspects; every other tool is let through. */
  predicate IsWriteTool(name: string) {
    name == "Edit" || name == "Write"
  }

  lemma AvailableToolsDistinct()
    ensures |AvailableTools| == 7 && Distinct(AvailableTools)
  {
  }

  /** Each group draws its members from the vocabulary. */
  lemma GroupsAreSubsets()
    ensures forall t :: t in ReadOnlyTools ==> t in AvailableTools
    ensures forall t :: t in FileModificationTools ==> t in AvailableTools
    ensures forall t :: t in ExecutionTools ==> t in AvailableTools
  {
  }

  function Members(s: seq<string>): set<string> {
    set t | t in s
  }

  /** The groups partition the vocabulary: pairwise disjoint, and together they are all of it. */
  lemma GroupsPartitionAvailableTools()
    ensures Members(ReadOnlyTools) !! Members(FileModificationTools)
    ensures Members(ReadOnlyTools) !! Members(ExecutionTools)
    ensures Members(FileModificationTools) !! Members(ExecutionTools)
    ensures Members(ReadOnlyTools) + Members(FileModificationTools) + Members(ExecutionTools)
              == Members(AvailableTools)
  {
  }

  /** No read-only tool is one the write-path gate inspects, so a gate never denies them. */
  lemma ReadOnlyToolsAreNotGated()
    ensures forall t :: t in ReadOnlyTools ==> !IsWriteTool(t)
    ensures forall t :: t in FileModificationTools ==> IsWriteTool(t)
  {
  }

  lemma AllToolsIsAvailableTools()
    ensures AllTools == AvailableTools
  {
  }
}
