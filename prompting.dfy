/**
 * The extraction prompt (internal/eval/prompt.go): a fixed instruction
 * text followed by the source. The instruction is split into pieces only
 * so that the phrases a reader looks for can be named.
 */
module Prompting {
  import opened Text

  const PromptHead: string :=
    "You are evaluating key-insight extraction quality.\n\n"
    + "Task:\n"
    + "1) Produce a short TL;DR.\n"
    + "2) Extract key insights from the source without losing critical meaning.\n"
    + "3) Provide direct evidence quotes copied verbatim from the source.\n\n"
    + "Rules:\n"
    + "- "

  /** The instruction that the answer be bare JSON. */
  const JsonOnly: string := "Return JSON only"

  const PromptMiddle: string :=
    ".\n"
    + "- Do not include markdown fences.\n"
    + "- Keep claims faithful to the source.\n"
    + "- Include the most important concepts and caveats.\n\n"
    + "Return schema:\n"
    + "{\n"
    + "  \"tldr\": \"string\",\n"
    + "  "

  /** The schema field that carries the insights. */
  const KeyInsightsField: string := "\"key_insights\""

  const PromptTail: string :=
    ": [\"string\"],\n"
    + "  \"evidence_quotes\": [\"string\"]\n"
    + "}\n\n"
    + "Source:\n"

  /** Everything of the prompt before the source text. */
  const PromptPrefix: string := PromptHead + JsonOnly + PromptMiddle + KeyInsightsField + PromptTail

  /** BuildPrompt: the instruction text, then the source verbatim. */
  function BuildPrompt(source: string): (r: string)
    ensures |r| == |PromptPrefix| + |source|
    ensures HasPrefix(r, PromptPrefix)
    ensures HasSuffix(r, source)
  {
    hide PromptPrefix;
    var r := PromptPrefix + source;
    assert r[..|PromptPrefix|] == PromptPrefix;
    assert r[|r| - |source|..] == source;
    r
  }

  /** Different sources give different prompts. */
  lemma BuildPromptInjective(s: string, t: string)
    requires BuildPrompt(s) == BuildPrompt(t)
    ensures s == t
  {
    hide PromptPrefix;
    assert s == BuildPrompt(s)[|PromptPrefix|..];
    assert t == BuildPrompt(t)[|PromptPrefix|..];
  }

  /** The prompt asks for bare JSON, whatever the source. */
  lemma PromptAsksForJsonOnly(source: string)
    ensures Contains(BuildPrompt(source), JsonOnly)
  {
    hide PromptHead, JsonOnly, PromptMiddle, KeyInsightsField, PromptTail;
    var rest := PromptMiddle + KeyInsightsField + PromptTail + source;
    assert BuildPrompt(source) == PromptHead + JsonOnly + rest;
    ContainsMiddle(PromptHead, JsonOnly, rest);
  }

  /** The prompt names the "key_insights" field, whatever the source. */
  lemma PromptNamesKeyInsights(source: string)
    ensures Contains(BuildPrompt(source), KeyInsightsField)
  {
    hide PromptHead, JsonOnly, PromptMiddle, KeyInsightsField, PromptTail;
    var front := PromptHead + JsonOnly + PromptMiddle;
    assert BuildPrompt(source) == front + KeyInsightsField + (PromptTail + source);
    ContainsMiddle(front, KeyInsightsField, PromptTail + source);
  }
}
