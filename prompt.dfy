/**
 * The prompt the streaming agent hands to the model: fixed instructions, the
 * user's question, the MCP agent's answer when there is one, and the state
 * read from PostgreSQL.
 */
module Prompt {

  /** The six instruction sentences, concatenated without separators as Python joins adjacent literals. */
  const SystemPrompt :=
    "You are a Helpful Infrastructure Agent. "
    + "Answer Terraform questions clearly and provide examples where useful. "
    + "Use Terraform MCP server responses as the authoritative source only when applicable. "
    + "If the MCP responds that it cannot access Terraform state files, ignore that response and use the Terraform state from PostgreSQL to answer the question. "
    + "Report versions and recommendations exactly as MCP returns them when available. "
    + "Always clearly indicate the provider versions or configuration as returned by MCP."

  const QuestionHeader := "User Question:\n"
  const McpHeader := "Terraform MCP Context:\n"
  const McpTrailer := " - prioritize this information.\n\n"
  const StateHeader := "Current Terraform State (from PostgreSQL):\n"
  const SectionEnd := "\n\n"

  function QuestionSection(instructions: string, message: string): string
  {
    instructions + QuestionHeader + message + SectionEnd
  }

  function McpSection(context: string): string
  {
    McpHeader + context + McpTrailer
  }

  function StateSection(state: string): string
  {
    StateHeader + state + SectionEnd
  }

  /** `full_prompt` over given instructions (the agent's are `SystemPrompt`); the MCP section only when the context is non-empty. */
  function Compose(instructions: string, message: string, context: string, state: string): string
  {
    QuestionSection(instructions, message) + (if context != "" then McpSection(context) else "") + StateSection(state)
  }

  /** Where each of five consecutive pieces sits in their concatenation. */
  lemma Pieces(a: string, b: string, c: string, d: string, e: string)
    ensures var p := a + b + c + d + e;
      && |p| == |a| + |b| + |c| + |d| + |e|
      && p[..|a|] == a
      && p[|a|..|a| + |b|] == b
      && p[|a| + |b|..|a| + |b| + |c|] == c
      && p[|a| + |b| + |c|..][..|d|] == d
      && p[|p| - |e|..] == e
  {
    var p := a + b + c + d + e;
    assert p == (a + b) + (c + d + e);
    assert p == a + (b + c + d + e);
    assert p == (a + b) + c + (d + e);
    assert p[|a| + |b| + |c|..] == d + e;
    assert p == (a + b + c + d) + e;
  }

  /**
   * The prompt carries the question, the MCP context and the state verbatim
   * at fixed places: the question right after the instructions, the context
   * (with its "prioritize" trailer) right after the question only when it is
   * non-empty, and the state always at the end.
   */
  lemma Layout(instructions: string, message: string, context: string, state: string)
    ensures var p := Compose(instructions, message, context, state);
      var q := |instructions| + |QuestionHeader|;
      var m := if context != "" then |McpSection(context)| else 0;
      && |p| == q + |message| + |SectionEnd| + m + |StateSection(state)|
      && p[..|instructions|] == instructions
      && p[|instructions|..q] == QuestionHeader
      && p[q..q + |message|] == message
      && p[q + |message|..q + |message| + |SectionEnd|] == SectionEnd
      && (context != "" ==> p[q + |message| + |SectionEnd|..][..m] == McpHeader + context + McpTrailer)
      && p[|p| - |StateSection(state)|..] == StateHeader + state + SectionEnd
  {
    var middle := if context != "" then McpSection(context) else "";
    Pieces(instructions + QuestionHeader, message, SectionEnd, middle, StateSection(state));
    Pieces(instructions, QuestionHeader, message, SectionEnd + middle, StateSection(state));
    assert Compose(instructions, message, context, state) ==
      (instructions + QuestionHeader) + message + SectionEnd + middle + StateSection(state);
  }
}
