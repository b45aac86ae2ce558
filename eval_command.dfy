/**
 * The decisions of the `eval` command (cmd/eval.go): the format and
 * case-limit checks, model selection, file-name sanitising, the error
 * counts, the manual-leaderboard rule and its template, and the per-case
 * loop of one model's run. Files are `FileState` values, the streaming
 * chat call is the parameter `stream`, JSON decoding the parameter
 * `decode`, and clocks and time formatting are parameters as well.
 */
module EvalCommand {
  import opened Wrappers
  import opened Text
  import opened EvalTypes
  import opened Parsing
  import opened Prompting
  import opened Reporting
  import opened AppTypes

  // ------------------------------------------------------ runEval checks

  /**
   * runEval's format check: "md" selects human output and "json" machine
   * output; anything else is refused. `quote` is Go's `%q`.
   */
  function CheckFormat(format: string, quote: string -> string): (r: Result<bool>)
    ensures r.Ok? <==> format == "md" || format == "json"
    ensures r.Ok? ==> (r.value <==> format == "md")
    ensures r.Err? ==> HasPrefix(r.error, "invalid --format ") && HasSuffix(r.error, " (expected md or json)")
  {
    if format != "md" && format != "json" then
      var msg := "invalid --format " + quote(format) + " (expected md or json)";
      assert msg == "invalid --format " + (quote(format) + " (expected md or json)");
      Err(msg)
    else Ok(format == "md")
  }

  /** The --limit flag: the first `limit` cases when 0 < limit < the case count, otherwise all of them. */
  function LimitCases(cases: seq<Case>, limit: int): (r: seq<Case>)
    ensures r <= cases
    ensures |r| == (if 0 < limit < |cases| then limit else |cases|)
  {
    if limit > 0 && limit < |cases| then cases[..limit] else cases
  }

  /** Applying the limit twice is applying it once. */
  lemma LimitIdempotent(cases: seq<Case>, limit: int)
    ensures LimitCases(LimitCases(cases, limit), limit) == LimitCases(cases, limit)
  {
  }

  // ------------------------------------------------------- selectModels

  /** Model IDs the eval never runs. */
  const Denylist: set<string> := {
    "hf:deepseek-ai/DeepSeek-R1-0528",
    "hf:deepseek-ai/DeepSeek-V3",
    "hf:deepseek-ai/DeepSeek-V3-0324",
    "hf:MiniMaxAI/MiniMax-M2",
    "hf:Qwen/Qwen3-235B-A22B-Thinking-2507",
    "hf:zai-org/GLM-4.6",
    "hf:moonshotai/Kimi-K2-Instruct-0905",
    "hf:meta-llama/Llama-3.3-70B-Instruct"}

  /** The trimmed, non-empty entries of the --models list. */
  ghost function AllowList(csv: string): set<string> {
    AllowOf(Split(csv, ','))
  }

  /** The trimmed, non-empty entries among `parts`. */
  ghost function AllowOf(parts: seq<string>): set<string> {
    set p | p in parts && Trim(p) != "" :: Trim(p)
  }

  lemma AllowOfNext(parts: seq<string>, i: int)
    requires 0 <= i <= |parts|
    ensures AllowOf(parts[..0]) == {}
    ensures AllowOf(parts[..|parts|]) == AllowOf(parts)
    ensures i < |parts| && Trim(parts[i]) != "" ==> AllowOf(parts[..i + 1]) == AllowOf(parts[..i]) + {Trim(parts[i])}
    ensures i < |parts| && Trim(parts[i]) == "" ==> AllowOf(parts[..i + 1]) == AllowOf(parts[..i])
  {
    assert parts[..0] == [];
    assert parts[..|parts|] == parts;
    if i < |parts| {
      assert parts[..i + 1] == parts[..i] + [parts[i]];
    }
  }

  /** Whether a model is run: not denied, and listed unless the list is blank. */
  ghost predicate Keep(m: Model, csv: string) {
    m.id !in Denylist && (Trim(csv) == "" || m.id in AllowList(csv))
  }

  /** The kept models, in their listed order. */
  ghost function Selected(models: seq<Model>, csv: string): seq<Model>
    decreases |models|
  {
    if |models| == 0 then []
    else Selected(models[..|models| - 1], csv)
         + (if Keep(models[|models| - 1], csv) then [models[|models| - 1]] else [])
  }

  lemma SelectedNext(models: seq<Model>, csv: string, i: int)
    requires 0 <= i <= |models|
    ensures Selected(models[..0], csv) == []
    ensures i < |models| ==>
      Selected(models[..i + 1], csv) == Selected(models[..i], csv) + (if Keep(models[i], csv) then [models[i]] else [])
  {
    if i < |models| {
      assert models[..i + 1][..i] == models[..i];
    }
  }

  /** Exactly the kept models are selected; in particular no denied model ever is. */
  lemma {:induction false} SelectedMembers(models: seq<Model>, csv: string)
    ensures forall m :: m in Selected(models, csv) <==> m in models && Keep(m, csv)
    ensures |Selected(models, csv)| <= |models|
    ensures forall m :: m in Selected(models, csv) ==> m.id !in Denylist
    decreases |models|
  {
    if |models| > 0 {
      var n := |models| - 1;
      SelectedMembers(models[..n], csv);
      assert models == models[..n] + [models[n]];
    }
  }

  /** `a` is `b` with some elements left out, the rest kept in order. */
  ghost predicate Subsequence<T>(a: seq<T>, b: seq<T>)
    decreases |b|
  {
    a == [] || (b != [] && ((a[|a| - 1] == b[|b| - 1] && Subsequence(a[..|a| - 1], b[..|b| - 1]))
                            || Subsequence(a, b[..|b| - 1])))
  }

  /** The selection keeps the listed order. */
  lemma {:induction false} SelectedInOrder(models: seq<Model>, csv: string)
    ensures Subsequence(Selected(models, csv), models)
    decreases |models|
  {
    if |models| > 0 {
      var n := |models| - 1;
      SelectedInOrder(models[..n], csv);
      var s := Selected(models[..n], csv);
      assert models[..n] == models[..|models| - 1];
      if Keep(models[n], csv) {
        var t := s + [models[n]];
        assert t[..|t| - 1] == s && t[|t| - 1] == models[|models| - 1];
        assert Subsequence(t, models);
        assert Selected(models, csv) == t;
      } else {
        assert Selected(models, csv) == s;
        assert Subsequence(s, models);
      }
    }
  }

  /** With a blank --models list, every model that is not denied is selected. */
  lemma BlankListKeepsAllowed(models: seq<Model>, csv: string, m: Model)
    requires Trim(csv) == "" && m in models && m.id !in Denylist
    ensures m in Selected(models, csv)
  {
    SelectedMembers(models, csv);
  }

  /** The allow-list of a --models value. */
  method BuildAllowList(csv: string) returns (allow: set<string>)
    ensures allow == AllowList(csv)
  {
    allow := CollectEntries(Split(csv, ','));
  }

  /** The trimmed, non-empty entries of a split list, gathered one by one. */
  method CollectEntries(parts: seq<string>) returns (allow: set<string>)
    ensures allow == AllowOf(parts)
  {
    allow := {};
    AllowOfNext(parts, 0);
    hide AllowOf, Trim;
    for i := 0 to |parts|
      invariant allow == AllowOf(parts[..i])
    {
      AllowOfNext(parts, i);
      var m := Trim(parts[i]);
      if m != "" {
        allow := allow + {m};
      }
    }
  }

  /** selectModels: the models that are not denied and, for a non-blank list, listed. */
  method SelectModels(models: seq<Model>, csv: string) returns (selected: seq<Model>)
    ensures selected == Selected(models, csv)
  {
    hide Selected, Denylist;
    selected := [];
    SelectedNext(models, csv, 0);
    if Trim(csv) == "" {
      var i := 0;
      while i < |models|
        invariant 0 <= i <= |models|
        invariant selected == Selected(models[..i], csv)
      {
        SelectedNext(models, csv, i);
        if models[i].id !in Denylist {
          selected := selected + [models[i]];
        }
        i := i + 1;
      }
      assert models[..i] == models;
      return;
    }
    var allow := BuildAllowList(csv);
    var i := 0;
    while i < |models|
      invariant 0 <= i <= |models|
      invariant selected == Selected(models[..i], csv)
    {
      SelectedNext(models, csv, i);
      if models[i].id !in Denylist && models[i].id in allow {
        selected := selected + [models[i]];
      }
      i := i + 1;
    }
    assert models[..i] == models;
  }

  // --------------------------------------------------- sanitizeFilePart

  /** The characters a file part may keep: [A-Za-z0-9._-]. */
  predicate FileChar(c: char) {
    ('a' <= c <= 'z') || ('A' <= c <= 'Z') || ('0' <= c <= '9') || c == '.' || c == '_' || c == '-'
  }

  /** Both path separators become '_'. */
  function ReplaceSeparators(s: string): (r: string)
    ensures |r| == |s|
    ensures forall i :: 0 <= i < |s| ==> r[i] == (if s[i] == '/' || s[i] == ':' then '_' else s[i])
  {
    seq(|s|, i requires 0 <= i < |s| => if s[i] == '/' || s[i] == ':' then '_' else s[i])
  }

  /** The text after a leading run of characters outside the file set. */
  function DropBad(s: string): (r: string)
    ensures |r| <= |s|
    ensures r == [] || FileChar(r[0])
  {
    if s != [] && !FileChar(s[0]) then DropBad(s[1..]) else s
  }

  /** Every maximal run of characters outside the file set becomes one '_'. */
  function CollapseBad(s: string): (r: string)
    ensures forall i :: 0 <= i < |r| ==> FileChar(r[i])
    ensures r == [] ==> s == []
    decreases |s|
  {
    if s == [] then []
    else if FileChar(s[0]) then [s[0]] + CollapseBad(s[1..])
    else "_" + CollapseBad(DropBad(s[1..]))
  }

  /** strings.Trim(s, "_"). */
  function TrimUnderscores(s: string): (r: string)
    ensures |r| <= |s|
    ensures r == [] || (r[0] != '_' && r[|r| - 1] != '_')
    ensures forall i :: 0 <= i < |r| ==> r[i] in s
    decreases |s|
  {
    if s != [] && s[0] == '_' then TrimUnderscores(s[1..])
    else if s != [] && s[|s| - 1] == '_' then TrimUnderscores(s[..|s| - 1])
    else s
  }

  /** The fallback name. */
  const Unknown := "unknown"

  /** Every part, the fallback included, is non-empty, uses only file characters, and has no '_' at either end. */
  predicate FilePart(r: string) {
    r != [] && (forall i :: 0 <= i < |r| ==> FileChar(r[i])) && r[0] != '_' && r[|r| - 1] != '_'
  }

  lemma UnknownIsFilePart()
    ensures FilePart(Unknown)
  {
    assert forall i :: 0 <= i < |Unknown| ==> 'a' <= Unknown[i] <= 'z';
  }

  /**
   * sanitizeFilePart: never empty, only [A-Za-z0-9._-], no '_' at either
   * end; a blank input, or one with nothing usable, is "unknown".
   */
  function SanitizeFilePart(s: string): (r: string)
    ensures FilePart(r)
    ensures Trim(s) == "" ==> r == Unknown
  {
    UnknownIsFilePart();
    var t := Trim(s);
    if t == "" then Unknown
    else
      var u := TrimUnderscores(CollapseBad(ReplaceSeparators(t)));
      if u == "" then Unknown else u
  }

  lemma {:induction false} CollapseKeepsGood(s: string)
    requires forall i :: 0 <= i < |s| ==> FileChar(s[i])
    ensures CollapseBad(s) == s
    decreases |s|
  {
    if s != [] {
      CollapseKeepsGood(s[1..]);
    }
  }

  /** A finished part passes through every step unchanged. */
  lemma FilePartFixed(r: string)
    requires FilePart(r)
    ensures Trim(r) == r
    ensures TrimUnderscores(CollapseBad(ReplaceSeparators(r))) == r
  {
    TrimNoSpace(r);
    assert ReplaceSeparators(r) == r;
    CollapseKeepsGood(r);
  }

  /** Sanitising a sanitised part changes nothing. */
  lemma SanitizeIdempotent(s: string)
    ensures SanitizeFilePart(SanitizeFilePart(s)) == SanitizeFilePart(s)
  {
    var r := SanitizeFilePart(s);
    FilePartFixed(r);
    hide Trim, TrimUnderscores, CollapseBad, ReplaceSeparators, FilePart;
  }

  // ------------------------------------------------------- error counts

  /** modelCaseStats: the same counts as the report's caseStats. */
  method ModelCaseStats(res: ModelResult) returns (parsed: nat, errors: nat)
    ensures errors == ErrorCount(res.cases)
    ensures parsed + errors == |res.cases|
  {
    parsed, errors := CaseStats(res.cases);
  }

  /** The failed cases of all models. */
  function TotalErrors(models: seq<ModelResult>): nat
    decreases |models|
  {
    if |models| == 0 then 0
    else TotalErrors(models[..|models| - 1]) + ErrorCount(models[|models| - 1].cases)
  }

  /** The cases of all models. */
  function TotalCases(models: seq<ModelResult>): nat
    decreases |models|
  {
    if |models| == 0 then 0
    else TotalCases(models[..|models| - 1]) + |models[|models| - 1].cases|
  }

  /** There are never more errors than cases. */
  lemma {:induction false} TotalErrorsBound(models: seq<ModelResult>)
    ensures TotalErrors(models) <= TotalCases(models)
    decreases |models|
  {
    if |models| > 0 {
      TotalErrorsBound(models[..|models| - 1]);
    }
  }

  /** countCaseErrors: the failed cases summed over every model of the report. */
  method CountCaseErrors(report: Report) returns (count: nat)
    ensures count == TotalErrors(report.models)
    ensures count <= TotalCases(report.models)
  {
    var models := report.models;
    count := 0;
    var i := 0;
    CountNext(models, 0, [], 0);
    hide TotalErrors, ErrorCount, Failed;
    while i < |models|
      invariant 0 <= i <= |models|
      invariant count == TotalErrors(models[..i])
    {
      var cases := models[i].cases;
      var j := 0;
      while j < |cases|
        invariant 0 <= j <= |cases|
        invariant count == TotalErrors(models[..i]) + ErrorCount(cases[..j])
      {
        CountNext(models, i, cases, j);
        if Trim(cases[j].error) != "" {
          count := count + 1;
        }
        j := j + 1;
      }
      CountNext(models, i, cases, j);
      i := i + 1;
    }
    assert models[..i] == models;
    TotalErrorsBound(models);
  }

  /** How the two counts of countCaseErrors advance. */
  lemma CountNext(models: seq<ModelResult>, i: int, cases: seq<CaseResult>, j: int)
    requires 0 <= i <= |models| && 0 <= j <= |cases|
    ensures TotalErrors(models[..0]) == 0 && ErrorCount(cases[..0]) == 0
    ensures j < |cases| ==>
      ErrorCount(cases[..j + 1]) == ErrorCount(cases[..j]) + (if Trim(cases[j].error) != "" then 1 else 0)
    ensures i < |models| && cases == models[i].cases && j == |cases| ==>
      TotalErrors(models[..i + 1]) == TotalErrors(models[..i]) + ErrorCount(cases[..j])
  {
    hide Trim;
    if j < |cases| {
      assert cases[..j + 1][..j] == cases[..j];
    }
    if i < |models| {
      assert models[..i + 1][..i] == models[..i];
      assert cases[..|cases|] == cases;
    }
    assert cases[..0] == [] && models[..0] == [];
  }

  // ------------------------------------------------- manual leaderboard

  /** What the leaderboard path holds. */
  datatype FileState = Absent | Directory | Unreadable | Existing(text: string)

  const ManualMarker := "# syn eval manual leaderboard"
  const GeneratedMarker := "# syn eval leaderboard"

  /**
   * shouldKeepExisting: nothing there (or a directory) may be written; an
   * unreadable file is kept; a readable one is kept when it is a manual
   * leaderboard or not a generated one.
   */
  function ShouldKeepExisting(f: FileState): (keep: bool)
    ensures f.Absent? || f.Directory? ==> !keep
    ensures f.Unreadable? ==> keep
    ensures f.Existing? ==> (keep <==> Contains(f.text, ManualMarker) || !Contains(f.text, GeneratedMarker))
  {
    match f
    case Absent => false
    case Directory => false
    case Unreadable => true
    case Existing(text) => Contains(text, ManualMarker) || !Contains(text, GeneratedMarker)
  }

  /** One template row: empty rank and notes around the model ID. */
  function LeaderboardRow(m: ModelResult): string {
    "|  | `" + m.modelId + "` |  |\n"
  }

  function LeaderboardRows(models: seq<ModelResult>): string
    decreases |models|
  {
    if |models| == 0 then ""
    else LeaderboardRows(models[..|models| - 1]) + LeaderboardRow(models[|models| - 1])
  }

  /** The lines above the rows; `rfc3339` formats the generation time. */
  function LeaderboardHead(report: Report, responsesPath: string, rfc3339: int -> string): string {
    ManualMarker + "\n\n"
    + "Update ranks manually after reviewing model outputs.\n\n"
    + "- generated_at: " + rfc3339(report.generatedAt) + "\n"
    + "- dataset: `" + report.datasetPath + "`\n"
    + "- responses_path: `" + responsesPath + "`\n\n"
    + "| Rank | Model | Notes |\n"
    + "|---:|---|---|\n"
  }

  function LeaderboardContent(report: Report, responsesPath: string, rfc3339: int -> string): string {
    LeaderboardHead(report, responsesPath, rfc3339) + LeaderboardRows(report.models)
  }

  lemma LeaderboardRowsNext(models: seq<ModelResult>, i: int)
    requires 0 <= i <= |models|
    ensures LeaderboardRows(models[..0]) == ""
    ensures i < |models| ==> LeaderboardRows(models[..i + 1]) == LeaderboardRows(models[..i]) + LeaderboardRow(models[i])
  {
    hide LeaderboardRow;
    if i < |models| {
      assert models[..i + 1][..i] == models[..i];
    }
  }

  lemma LeaderboardRowsOne(m: ModelResult)
    ensures LeaderboardRows([m]) == LeaderboardRow(m)
  {
    hide LeaderboardRow;
    assert [m][..0] == [];
  }

  /** buildLeaderboardContent: the head, then one row per model in report order. */
  method BuildLeaderboardContent(report: Report, responsesPath: string, rfc3339: int -> string) returns (content: string)
    ensures content == LeaderboardContent(report, responsesPath, rfc3339)
  {
    hide LeaderboardHead, LeaderboardRow, LeaderboardRows;
    ghost var head := LeaderboardHead(report, responsesPath, rfc3339);
    content := LeaderboardHead(report, responsesPath, rfc3339);
    LeaderboardRowsNext(report.models, 0);
    var i := 0;
    while i < |report.models|
      invariant 0 <= i <= |report.models|
      invariant content == head + LeaderboardRows(report.models[..i])
    {
      LeaderboardRowsNext(report.models, i);
      content := content + LeaderboardRow(report.models[i]);
      i := i + 1;
    }
    assert report.models[..i] == report.models;
  }

  lemma {:induction false} LeaderboardRowsConcat(a: seq<ModelResult>, b: seq<ModelResult>)
    ensures LeaderboardRows(a + b) == LeaderboardRows(a) + LeaderboardRows(b)
    decreases |b|
  {
    hide LeaderboardRow;
    if |b| > 0 {
      var n := |b| - 1;
      assert (a + b)[..|a + b| - 1] == a + b[..n];
      assert (a + b)[|a + b| - 1] == b[n];
      LeaderboardRowsConcat(a, b[..n]);
    } else {
      assert a + b == a;
    }
  }

  /** The template opens with the manual marker. */
  lemma LeaderboardStartsWithMarker(report: Report, responsesPath: string, rfc3339: int -> string)
    ensures HasPrefix(LeaderboardContent(report, responsesPath, rfc3339), ManualMarker)
  {
    hide LeaderboardRows;
    var content := LeaderboardContent(report, responsesPath, rfc3339);
    assert content[..|ManualMarker|] == ManualMarker;
  }

  /** The template lists every model of the report. */
  lemma LeaderboardListsModels(report: Report, responsesPath: string, rfc3339: int -> string, k: int)
    requires 0 <= k < |report.models|
    ensures Contains(LeaderboardContent(report, responsesPath, rfc3339), LeaderboardRow(report.models[k]))
  {
    hide LeaderboardRow, LeaderboardRows, LeaderboardHead;
    var models := report.models;
    var head := LeaderboardHead(report, responsesPath, rfc3339);
    assert models == models[..k] + ([models[k]] + models[k + 1..]);
    LeaderboardRowsConcat(models[..k], [models[k]] + models[k + 1..]);
    LeaderboardRowsConcat([models[k]], models[k + 1..]);
    LeaderboardRowsOne(models[k]);
    ContainsMiddle(head + LeaderboardRows(models[..k]), LeaderboardRow(models[k]), LeaderboardRows(models[k + 1..]));
    assert LeaderboardContent(report, responsesPath, rfc3339)
      == head + LeaderboardRows(models[..k]) + LeaderboardRow(models[k]) + LeaderboardRows(models[k + 1..]);
  }

  /** A written template is kept by every later run, whatever that run's report. */
  lemma TemplateIsKept(report: Report, responsesPath: string, rfc3339: int -> string)
    ensures ShouldKeepExisting(Existing(LeaderboardContent(report, responsesPath, rfc3339)))
  {
    LeaderboardStartsWithMarker(report, responsesPath, rfc3339);
    hide LeaderboardContent;
    assert IsAt(LeaderboardContent(report, responsesPath, rfc3339), ManualMarker, 0);
  }

  /**
   * ensureManualLeaderboard: keeps a file it should not overwrite;
   * otherwise creates the directory and writes the template. `mkdirError`
   * and `writeError` are what the filesystem answers.
   */
  method EnsureManualLeaderboard(report: Report, responsesPath: string, rfc3339: int -> string,
                                 file: FileState, mkdirError: Option<string>, writeError: Option<string>)
    returns (created: Result<bool>, after: FileState)
    ensures ShouldKeepExisting(file) ==> created == Ok(false) && after == file
    ensures !ShouldKeepExisting(file) && mkdirError.Some? ==>
      created == Err("failed to prepare leaderboard dir: " + mkdirError.value) && after == file
    ensures !ShouldKeepExisting(file) && mkdirError.None? && writeError.Some? ==>
      created == Err("failed to write manual leaderboard: " + writeError.value) && after == file
    ensures !ShouldKeepExisting(file) && mkdirError.None? && writeError.None? ==>
      created == Ok(true) && after == Existing(LeaderboardContent(report, responsesPath, rfc3339))
  {
    hide LeaderboardContent, ShouldKeepExisting;
    if ShouldKeepExisting(file) {
      return Ok(false), file;
    }
    if mkdirError.Some? {
      return Err("failed to prepare leaderboard dir: " + mkdirError.value), file;
    }
    var content := BuildLeaderboardContent(report, responsesPath, rfc3339);
    if writeError.Some? {
      return Err("failed to write manual leaderboard: " + writeError.value), file;
    }
    return Ok(true), Existing(content);
  }

  // ---------------------------------------------------------- evalModel

  /** What the streaming chat call returned for one case: the result (zero when the call failed) and its error. */
  datatype Reply = Reply(result: StreamResult, error: Option<string>)

  /** The options every eval call uses: the model under test and top_p 1. */
  function EvalOptions(modelId: string): (o: ChatOptions)
    ensures o.model == modelId && o.topP == Some(1.0)
    ensures o.temperature.None? && o.maxTokens.None? && o.context == [] && o.filePath == ""
  {
    NoOptions.(model := modelId, topP := Some(1.0))
  }

  /** The replies to the cases' prompts; `stream(k, prompt, opts)` answers the k-th call. */
  function Replies(modelId: string, cases: seq<Case>, stream: (nat, string, ChatOptions) -> Reply): (rs: seq<Reply>)
    ensures |rs| == |cases|
    ensures forall k :: 0 <= k < |cases| ==> rs[k] == stream(k, BuildPrompt(cases[k].source), EvalOptions(modelId))
  {
    hide PromptPrefix;
    seq(|cases|, k requires 0 <= k < |cases| => stream(k, BuildPrompt(cases[k].source), EvalOptions(modelId)))
  }

  /**
   * The result of one case: the reply's text and first-token time; a
   * chat error, else a parse error, in `error`; the parsed output only
   * when both succeeded; the score always zero.
   */
  function CaseResultOf(c: Case, reply: Reply, decode: string -> Result<Payload>): (r: CaseResult)
    ensures r.caseId == c.id && r.rawOutput == reply.result.content && r.ttfMs == reply.result.ttfMs
    ensures r.score == ZeroScore
    ensures reply.error.Some? ==> r.error == reply.error.value && r.parsed == ZeroParsed
    ensures reply.error.None? && decode(Clean(reply.result.content)).Err? ==>
      HasPrefix(r.error, "invalid JSON output: ") && r.parsed == ZeroParsed
    ensures reply.error.None? && decode(Clean(reply.result.content)).Ok? ==>
      r.error == "" && r.parsed == Normalized(decode(Clean(reply.result.content)).value)
  {
    var base := CaseResult(c.id, reply.result.content, ZeroParsed, ZeroScore, reply.result.ttfMs, "");
    if reply.error.Some? then base.(error := reply.error.value)
    else
      var p := decode(Clean(reply.result.content));
      if p.Err? then
        var msg := "invalid JSON output: " + p.error;
        assert msg[..|"invalid JSON output: "|] == "invalid JSON output: ";
        base.(error := msg)
      else base.(parsed := Normalized(p.value))
  }

  /** Completion tokens over all replies, failed ones included. */
  function TokenTotal(replies: seq<Reply>): int
    decreases |replies|
  {
    if |replies| == 0 then 0
    else TokenTotal(replies[..|replies| - 1]) + replies[|replies| - 1].result.usage.completionTokens
  }

  /** Whether a reply's first-token time enters the mean: the call succeeded and the time is positive. */
  predicate Timed(r: Reply) {
    r.error.None? && r.result.ttfMs > 0
  }

  function TtfTotal(replies: seq<Reply>): int
    decreases |replies|
  {
    if |replies| == 0 then 0
    else TtfTotal(replies[..|replies| - 1]) + (if Timed(replies[|replies| - 1]) then replies[|replies| - 1].result.ttfMs else 0)
  }

  function TtfCount(replies: seq<Reply>): nat
    decreases |replies|
  {
    if |replies| == 0 then 0
    else TtfCount(replies[..|replies| - 1]) + (if Timed(replies[|replies| - 1]) then 1 else 0)
  }

  /** The timed replies are at most all of them, each adds at least one millisecond, and none means a zero total. */
  lemma {:induction false} TtfCounts(replies: seq<Reply>)
    ensures TtfCount(replies) <= |replies|
    ensures TtfTotal(replies) >= TtfCount(replies)
    ensures TtfCount(replies) == 0 ==> TtfTotal(replies) == 0
    decreases |replies|
  {
    if |replies| > 0 {
      TtfCounts(replies[..|replies| - 1]);
    }
  }

  /** The mean first-token time: integer division of the total by the count, or 0 with nothing timed. */
  function AvgTtf(replies: seq<Reply>): (avg: int)
    ensures TtfCount(replies) == 0 ==> avg == 0
    ensures TtfCount(replies) > 0 ==> 1 <= avg && avg * TtfCount(replies) <= TtfTotal(replies) < (avg + 1) * TtfCount(replies)
  {
    TtfCounts(replies);
    if TtfCount(replies) > 0 then TtfTotal(replies) / TtfCount(replies) else 0
  }

  /** The case results of a run, one per case in order. */
  function CaseResults(cases: seq<Case>, replies: seq<Reply>, decode: string -> Result<Payload>): (rs: seq<CaseResult>)
    requires |replies| == |cases|
    ensures |rs| == |cases|
    ensures forall k :: 0 <= k < |cases| ==> rs[k] == CaseResultOf(cases[k], replies[k], decode)
  {
    seq(|cases|, k requires 0 <= k < |cases| => CaseResultOf(cases[k], replies[k], decode))
  }

  /** A run in which every call succeeded and every output decoded has no errors. */
  lemma CleanRunHasNoErrors(cases: seq<Case>, replies: seq<Reply>, decode: string -> Result<Payload>)
    requires |replies| == |cases|
    requires forall k :: 0 <= k < |cases| ==> replies[k].error.None? && decode(Clean(replies[k].result.content)).Ok?
    ensures ErrorCount(CaseResults(cases, replies, decode)) == 0
  {
    NoErrorsAllParsed(CaseResults(cases, replies, decode));
  }

  /** A case whose call failed with a non-blank message counts as an error in the report. */
  lemma FailedCallIsError(c: Case, reply: Reply, decode: string -> Result<Payload>)
    requires reply.error.Some? && Trim(reply.error.value) != ""
    ensures Failed(CaseResultOf(c, reply, decode))
  {
  }

  /** The body of evalModel's loop for one case: its result, and whether its first-token time counts. */
  method EvalCase(c: Case, reply: Reply, decode: string -> Result<Payload>) returns (r: CaseResult, timed: bool)
    ensures r == CaseResultOf(c, reply, decode)
    ensures timed == Timed(reply)
  {
    timed := false;
    r := CaseResult(c.id, reply.result.content, ZeroParsed, ZeroScore, reply.result.ttfMs, "");
    if reply.error.Some? {
      r := r.(error := reply.error.value);
      return;
    }
    if reply.result.ttfMs > 0 {
      timed := true;
    }
    var parsed := ParseOutput(reply.result.content, decode);
    if parsed.Err? {
      r := r.(error := parsed.error);
    } else {
      r := r.(parsed := parsed.value);
    }
    CaseResultOfIs(c, reply, decode, r);
  }

  /** evalModel's loop over the cases: the results, the token total, and the first-token total and count. */
  method RunCases(modelId: string, cases: seq<Case>, stream: (nat, string, ChatOptions) -> Reply,
                  decode: string -> Result<Payload>)
    returns (results: seq<CaseResult>, totalTokens: int, totalTtf: int, ttfCount: nat)
    ensures results == CaseResults(cases, Replies(modelId, cases, stream), decode)
    ensures totalTokens == TokenTotal(Replies(modelId, cases, stream))
    ensures totalTtf == TtfTotal(Replies(modelId, cases, stream))
    ensures ttfCount == TtfCount(Replies(modelId, cases, stream))
  {
    ghost var replies := Replies(modelId, cases, stream);
    ReplySumsStart(replies);
    hide CaseResultOf, TokenTotal, TtfTotal, TtfCount, Timed, BuildPrompt, EvalOptions, Replies, CaseResults, PromptPrefix;
    results := [];
    totalTokens, totalTtf, ttfCount := 0, 0, 0;
    var i := 0;
    while i < |cases|
      invariant 0 <= i <= |cases|
      invariant |results| == i
      invariant forall k :: 0 <= k < i ==> results[k] == CaseResultOf(cases[k], replies[k], decode)
      invariant totalTokens == TokenTotal(replies[..i])
      invariant totalTtf == TtfTotal(replies[..i]) && ttfCount == TtfCount(replies[..i])
    {
      var reply := stream(i, BuildPrompt(cases[i].source), EvalOptions(modelId));
      ReplySumsNext(replies, i);
      totalTokens := totalTokens + reply.result.usage.completionTokens;
      var caseResult, timed := EvalCase(cases[i], reply, decode);
      if timed {
        totalTtf := totalTtf + reply.result.ttfMs;
        ttfCount := ttfCount + 1;
      }
      results := results + [caseResult];
      i := i + 1;
    }
  }

  /**
   * evalModel: one call per case with the case's prompt; one result per
   * case in order; the summary stays zero; tokens summed over every call;
   * the mean first-token time over the timed calls; tokens per second
   * once any time has elapsed. `elapsedMs` is the clock's reading.
   */
  method EvalModel(modelId: string, cases: seq<Case>, stream: (nat, string, ChatOptions) -> Reply,
                   decode: string -> Result<Payload>, elapsedMs: int)
    returns (res: ModelResult)
    ensures res.modelId == modelId && res.summary == ZeroSummary && res.elapsedMs == elapsedMs
    ensures res.cases == CaseResults(cases, Replies(modelId, cases, stream), decode)
    ensures res.completionTokens == TokenTotal(Replies(modelId, cases, stream))
    ensures res.avgTtfMs == AvgTtf(Replies(modelId, cases, stream))
    ensures res.tokensPerSec
      == (if elapsedMs > 0 then res.completionTokens as real / (elapsedMs as real / 1000.0) else 0.0)
  {
    hide Replies, CaseResults, TokenTotal, TtfTotal, TtfCount, AvgTtf, PromptPrefix;
    var results, totalTokens, totalTtf, ttfCount := RunCases(modelId, cases, stream, decode);
    var tokensPerSec := 0.0;
    if elapsedMs > 0 {
      tokensPerSec := totalTokens as real / (elapsedMs as real / 1000.0);
    }
    var avg := 0;
    if ttfCount > 0 {
      avg := totalTtf / ttfCount;
    }
    AvgTtfIs(Replies(modelId, cases, stream), avg);
    res := ModelResult(modelId, results, ZeroSummary, elapsedMs, totalTokens, tokensPerSec, avg);
  }

  lemma AvgTtfIs(replies: seq<Reply>, avg: int)
    requires avg == (if TtfCount(replies) > 0 then TtfTotal(replies) / TtfCount(replies) else 0)
    ensures avg == AvgTtf(replies)
  {
    hide TtfTotal, TtfCount;
  }

  lemma ReplySumsStart(replies: seq<Reply>)
    ensures TokenTotal(replies[..0]) == 0 && TtfTotal(replies[..0]) == 0 && TtfCount(replies[..0]) == 0
    ensures replies[..|replies|] == replies
  {
    assert replies[..0] == [];
  }

  lemma ReplySumsNext(replies: seq<Reply>, i: int)
    requires 0 <= i < |replies|
    ensures TokenTotal(replies[..i + 1]) == TokenTotal(replies[..i]) + replies[i].result.usage.completionTokens
    ensures Timed(replies[i]) ==> TtfTotal(replies[..i + 1]) == TtfTotal(replies[..i]) + replies[i].result.ttfMs
    ensures Timed(replies[i]) ==> TtfCount(replies[..i + 1]) == TtfCount(replies[..i]) + 1
    ensures !Timed(replies[i]) ==> TtfTotal(replies[..i + 1]) == TtfTotal(replies[..i])
    ensures !Timed(replies[i]) ==> TtfCount(replies[..i + 1]) == TtfCount(replies[..i])
  {
    assert replies[..i + 1][..i] == replies[..i];
  }

  /** The result the loop body assembles is the case's result. */
  lemma CaseResultOfIs(c: Case, reply: Reply, decode: string -> Result<Payload>, r: CaseResult)
    requires r.caseId == c.id && r.rawOutput == reply.result.content && r.ttfMs == reply.result.ttfMs && r.score == ZeroScore
    requires reply.error.Some? ==> r.error == reply.error.value && r.parsed == ZeroParsed
    requires reply.error.None? && decode(Clean(reply.result.content)).Err? ==>
      r.error == "invalid JSON output: " + decode(Clean(reply.result.content)).error && r.parsed == ZeroParsed
    requires reply.error.None? && decode(Clean(reply.result.content)).Ok? ==>
      r.error == "" && r.parsed == Normalized(decode(Clean(reply.result.content)).value)
    ensures r == CaseResultOf(c, reply, decode)
  {
  }
}
