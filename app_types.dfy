/**
 * The API client's shared records (internal/app/types.go): chat messages
 * and options, token usage, the model list entry, the API error, and the
 * model alias table with its resolver. Go's `*float64` and `*int` option
 * fields are `Option`s; `time.Duration` values are integer nanoseconds.
 */
module AppTypes {
  import opened Wrappers
  import opened Text

  /** One chat message; the role is "system", "user" or "assistant". */
  datatype Message = Message(role: string, content: string)

  /** Per-request chat options; `None` is Go's nil pointer. */
  datatype ChatOptions = ChatOptions(
    model: string,
    temperature: Option<real>,
    maxTokens: Option<int>,
    topP: Option<real>,
    filePath: string,
    context: seq<Message>)

  /** Go's zero `ChatOptions{}`. */
  const NoOptions := ChatOptions("", None, None, None, "", [])

  datatype Usage = Usage(promptTokens: int, completionTokens: int, totalTokens: int)

  const ZeroUsage := Usage(0, 0, 0)

  /** An assembled streaming reply: its text, its usage, and the time to its first token. */
  datatype StreamResult = StreamResult(content: string, usage: Usage, ttfMs: int)

  const ZeroStream := StreamResult("", ZeroUsage, 0)

  /** One entry of the model list. */
  datatype Model = Model(id: string, object: string, created: int, ownedBy: string)

  /** Retry settings; backoffs are nanoseconds. */
  datatype RetryConfig = RetryConfig(maxAttempts: int, initialBackoff: int, maxBackoff: int)

  /** The body of a /chat/completions request. */
  datatype ChatRequest = ChatRequest(
    model: string,
    messages: seq<Message>,
    temperature: real,
    maxTokens: int,
    topP: real,
    stream: bool,
    includeUsage: Option<bool>)

  /** A non-200 answer of the API. */
  datatype APIError = APIError(statusCode: int, body: string)

  const ApiErrorHead := "API error: "

  /** APIError.Error: "API error: <status> - <body>". */
  function ErrorText(e: APIError): (s: string)
    ensures HasPrefix(s, ApiErrorHead + Itoa(e.statusCode) + " - ")
    ensures HasSuffix(s, " - " + e.body)
    ensures |s| == |ApiErrorHead| + |Itoa(e.statusCode)| + 3 + |e.body|
  {
    var s := ApiErrorHead + Itoa(e.statusCode) + " - " + e.body;
    assert s == (ApiErrorHead + Itoa(e.statusCode)) + (" - " + e.body);
    s
  }

  // -------------------------------------------------------------- aliases

  /** The short names of the model alias table. */
  const AliasNames: set<string> := {"gptoss", "gpt", "kimi", "qwen", "glm", "zai", "deepseek", "ds"}

  /** The full model IDs the aliases stand for. */
  const AliasTargets: set<string> := {
    "hf:openai/gpt-oss-120b",
    "hf:moonshotai/Kimi-K2-Thinking",
    "hf:Qwen/Qwen3-VL-235B-A22B-Instruct",
    "hf:zai-org/GLM-4.7",
    "hf:deepseek-ai/DeepSeek-V3.2"}

  /** The read-only alias table: short name to full model ID. */
  const AliasTable: map<string, string> := map[
    "gptoss" := "hf:openai/gpt-oss-120b",
    "gpt" := "hf:openai/gpt-oss-120b",
    "kimi" := "hf:moonshotai/Kimi-K2-Thinking",
    "qwen" := "hf:Qwen/Qwen3-VL-235B-A22B-Instruct",
    "glm" := "hf:zai-org/GLM-4.7",
    "zai" := "hf:zai-org/GLM-4.7",
    "deepseek" := "hf:deepseek-ai/DeepSeek-V3.2",
    "ds" := "hf:deepseek-ai/DeepSeek-V3.2"]

  /** The table's keys are the alias names and its values the alias targets. */
  lemma AliasTableShape()
    ensures AliasTable.Keys == AliasNames
    ensures AliasTable.Values == AliasTargets
  {
    forall t | t in AliasTargets
      ensures t in AliasTable.Values
    {
      var a :| a in ["gptoss", "kimi", "qwen", "glm", "deepseek"] && AliasTable[a] == t;
    }
  }

  /** No full model ID is itself a short name: every target is longer than every name. */
  lemma NoTargetIsAlias()
    ensures forall a :: a in AliasTable ==> AliasTable[a] !in AliasTable
  {
    AliasTableShape();
    hide AliasTable;
    assert forall n :: n in AliasNames ==> |n| <= 8;
    assert forall t :: t in AliasTargets ==> |t| >= 18;
    forall a | a in AliasTable
      ensures AliasTable[a] !in AliasTable
    {
      assert AliasTable[a] in AliasTable.Values;
    }
  }

  /** ModelAliases: a copy of the table; changing the copy cannot reach the resolver. */
  function ModelAliases(): (m: map<string, string>)
    ensures m.Keys == AliasNames
    ensures forall a :: a in m ==> ResolveModel(a) == m[a]
  {
    AliasTableShape();
    AliasTable
  }

  /** ResolveModel: the full ID for an alias, anything else unchanged. */
  function ResolveModel(model: string): (r: string)
    ensures model in AliasNames ==> r in AliasTargets && r == AliasTable[model]
    ensures model !in AliasNames ==> r == model
  {
    AliasTableShape();
    if model in AliasTable then AliasTable[model] else model
  }

  /** Resolving a resolved name changes nothing. */
  lemma ResolveModelIdempotent(model: string)
    ensures ResolveModel(ResolveModel(model)) == ResolveModel(model)
  {
    hide ResolveModel;
    AliasTableShape();
    NoTargetIsAlias();
  }

  /** DefaultChatOptions: temperature 0.6, at most 8192 tokens, top_p 0.9, no model, file or context. */
  function DefaultChatOptions(): (o: ChatOptions)
    ensures o.temperature == Some(0.6) && o.maxTokens == Some(8192) && o.topP == Some(0.9)
    ensures o.model == "" && o.filePath == "" && o.context == []
  {
    ChatOptions("", Some(0.6), Some(8192), Some(0.9), "", [])
  }
}
