# syn evaluation harness and chat client, modelled in Dafny

`syn` is a command-line client for an OpenAI-compatible chat API. This
project models two of its parts.

**The `syn eval` command and its evaluation library (`internal/eval`)**

The `syn eval` command does the following:

- It loads a dataset of `source_<id>.txt` / `gold_<id>.json` pairs.
- It sends each source to every selected model with a fixed prompt.
- It parses the model's JSON answer (fenced or not).
- It renders the markdown report and the manual leaderboard template.

The command does not score answers. Its report says scoring is disabled
(manual review), and it leaves each model summary at its zero value
(`cmd/eval.go:397`). The library also provides operations that no command
calls. The model covers them as library operations:

- Scoring an answer against the gold insights: recall, quote coverage,
  estimated contradictions and format compliance.
- Folding the case scores into a model summary.
- A JSONL run history that can be appended to, read back, filtered by
  dataset and threshold, and aggregated into a ranked leaderboard.
  The command declares the `--history`, `--leaderboard-top` and
  `--no-history` flags (`cmd/eval.go:73`, `:75-76`) but never reads them.

**The client and the interactive chat**

- Model aliases, the default options and request building.
- Deciding which errors are retryable, exponential back-off and the retry loop.
- Reading a server-sent-event stream.
- The rolling 20-message chat context and its slash commands.
- The `model list` view.

Pure logic is written as functions and lemmas. Loops are methods, each
proved against a specification function. State that the Go code mutates
is a class:

- the dataset scan's maps and sets (`Datasets.Scan`);
- the chat session's context (`ChatCommand.Session`).

**Work outside the model becomes parameters:**

- The file system, the network and the clock are parameters: a directory
  listing with each file's contents or read error, a history file's state,
  `send`/`stream` functions per request, and an `elapsedAt` clock per
  stream line.
- JSON encoding and decoding are function parameters.
- Path cleaning, float and time formatting, and quoting are function
  parameters too.

Go's `float64` is modelled as exact `real`, and Go's `int` as unbounded
`int`.

## Model

| member | source | states |
|---|---|---|
| Parsing.NormalizeLines | internal/eval/parse.go:42-51 | the loop keeps exactly the trimmed non-blank entries, in order (`NonBlank`) |
| Parsing.NonBlank | internal/eval/parse.go:42-51 | every kept entry is non-empty and already trimmed, and no more entries than the input |
| Parsing.NonBlankIdempotent | internal/eval/parse.go:42-51 | normalising an already normalised list changes nothing |
| Parsing.NonBlankFromInput | internal/eval/parse.go:42-51 | every kept entry is the trim of some input entry |
| Parsing.SliceBraces | internal/eval/parse.go:17-22 | when the text has a '{', the slice starts at a '{'; when the slice holds a '}', it ends at one |
| Parsing.Normalized | internal/eval/parse.go:35-39 | after normalisation the tldr is trimmed and both lists hold only trimmed non-blank entries |
| Parsing.ParseOutput | internal/eval/parse.go:10-40 | a decode failure of the cleaned text is reported as "invalid JSON output: …"; a success yields the normalised output |
| Parsing.CleanOfFramed | internal/eval/parse.go:11-22 | a JSON object surrounded by text without braces is extracted exactly |
| Parsing.BareObjectUnchanged | internal/eval/parse.go:11-22 | a bare object passes through cleaning unchanged |
| Parsing.FencedObjectUnwrapped | internal/eval/eval_test.go:11-20 | a ```json fenced object is unwrapped to the object itself |
| Parsing.CleanIsInfix | internal/eval/parse.go:11-22 | cleaning only ever cuts the raw text down to a piece of it |
| Parsing.BraceFreeIsRejected | internal/eval/parse.go:31-33 | text without '}' and without "null" is rejected by any decoder that, after trimming surrounding white space, accepts only an object or `null` |
| Parsing.TruncatedRejected | internal/eval/eval_test.go:27 | the test's truncated object `{"tldr":"x","key_insights":["a"]` (no closing brace) is rejected |
| Parsing.HtmlRejected | internal/eval/eval_test.go:28 | an HTML error page is rejected |
| Parsing.ProseRejected | internal/eval/eval_test.go:29 | plain prose is rejected |
| Prompting.BuildPrompt | internal/eval/prompt.go:5-29 | the prompt is the fixed instructions followed by the source, with nothing else around it |
| Prompting.BuildPromptInjective | internal/eval/prompt.go:5-29 | different sources give different prompts |
| Prompting.PromptAsksForJsonOnly | internal/eval/prompt.go:15 | every prompt asks for JSON only |
| Prompting.PromptNamesKeyInsights | internal/eval/prompt.go:24 | every prompt names the key_insights field |
| Scoring.NonWordRun | internal/eval/score.go:8 | the leading run of `[^a-z0-9\s]` characters is maximal |
| Scoring.ReplaceNonWord | internal/eval/score.go:180 | after replacement only letters, digits and `\s` characters remain |
| Scoring.NormalizeTextShape | internal/eval/score.go:178-182 | normalised text holds only lower-case letters, digits and spaces, with no space at either end |
| Scoring.NormalWordsAlnum | internal/eval/score.go:178-182 | every word of normalised text is a non-empty lower-case alphanumeric run |
| Scoring.NormalizeTextIdempotent | internal/eval/score.go:178-182 | normalising twice is normalising once |
| Scoring.NormalizedWords | internal/eval/score.go:178-182 | the words of normalised text are exactly the words the normaliser produced |
| Scoring.TokenSet | internal/eval/score.go:168-176 | the loop collects exactly the distinct normalised words of three or more characters |
| Scoring.TokenOverlap | internal/eval/score.go:149-166 | the loop computes shared tokens over the larger token count, and 0 when either side has none |
| Scoring.OverlapBounds | internal/eval/score.go:149-166 | overlap lies in [0, 1] |
| Scoring.OverlapSymmetric | internal/eval/score.go:149-166 | overlap does not depend on argument order |
| Scoring.OverlapSelf | internal/eval/score.go:149-166 | a text with tokens overlaps itself fully |
| Scoring.OverlapOfNormalized | internal/eval/score.go:149-166 | overlap is unchanged by normalising an argument first |
| Scoring.MatchesPrediction | internal/eval/score.go:98-107 | one prediction matches when it is non-blank and contains the gold, is contained in it, or overlaps at least 0.55 |
| Scoring.HasInsightMatch | internal/eval/score.go:95-110 | true exactly when some prediction matches the gold insight |
| Scoring.EmptyGoldMatchesEverything | internal/eval/score.go:95-110 | a gold insight that normalises to "" is matched by any non-blank prediction |
| Scoring.SameWordsMatch | internal/eval/score.go:95-110 | a prediction with the same normalised words matches |
| Scoring.BestIsMax | internal/eval/score.go:125-132 | the closest gold's score is at least every gold's score |
| Scoring.BestIsFirstMax | internal/eval/score.go:125-132 | strict `>` keeps the first gold with the highest score |
| Scoring.ClosestGold | internal/eval/score.go:125-132 | the inner loop finds the closest gold and whether it holds a negation |
| Scoring.ContradictsGold | internal/eval/score.go:115-135 | a prediction counts when it negates and its closest gold, at overlap ≥ 0.45, does not |
| Scoring.EstimateContradictions | internal/eval/score.go:112-138 | the loop counts exactly the contradicting predictions |
| Scoring.CantMarkerNeverMatches | internal/eval/score.go:140-147 | the " can't " marker never occurs in padded normalised text, since normalisation removes the apostrophe |
| Scoring.NoApostrophe | internal/eval/score.go:140-147 | text made only of letters, digits and spaces holds no " can't " |
| Scoring.NoNegationNoContradiction | internal/eval/score.go:119-121 | predictions without negation markers never count |
| Scoring.NoGoldNoContradiction | internal/eval/score.go:112-138 | with no gold insights nothing counts |
| Scoring.ContradictionWitness | internal/eval/score.go:125-133 | a counted contradiction has a non-negated gold of maximal overlap ≥ 0.45 |
| Scoring.MissingCount | internal/eval/score.go:51-57 | the missing count is gold minus matched, never below zero |
| Scoring.MatchedCount | internal/eval/score.go:13-18 | no more gold insights match than there are |
| Scoring.NoPredictionsNoRecall | internal/eval/score.go:13-23 | with no predicted insights no gold insight matches, so recall is 0 |
| Scoring.QuoteHits | internal/eval/score.go:25-30 | no more quotes are found than there are |
| Scoring.RatioBounds | internal/eval/score.go:20-35 | a part over its whole lies in [0, 1] |
| Scoring.ScoreCase | internal/eval/score.go:11-49 | every score field in terms of the case and output: recall, missing, contradictions, coverage, format and pass |
| Scoring.FormatPasses | internal/eval/score.go:71-81 | no more format passes than cases |
| Scoring.PassCount | internal/eval/score.go:71-81 | no more passes than cases |
| Scoring.BuildModelSummary | internal/eval/score.go:60-93 | the fold equals the summary of averages, totals and overall pass, and is zero for no cases |
| Scoring.OverallPassMeansEveryCasePassed | internal/eval/score.go:91 | an overall pass implies there were cases, every case passed, recall met the threshold and there were no contradictions |
| Scoring.SummaryRatiosBounded | internal/eval/score.go:83-90 | average recall, average coverage and format rate lie in [0, 1] |
| Scoring.SummaryExample | internal/eval/eval_test.go:149-168 | one passing and one failing case give recall 0.75, 1 contradiction, rate 0.5 and no overall pass |
| Datasets.ClassifySource | internal/eval/dataset.go:47-55 | an entry is a source file exactly when it is named `source_<id>.txt` |
| Datasets.ClassifyGold | internal/eval/dataset.go:47-55 | an entry is a gold file exactly when it is named `gold_<id>.json` |
| Datasets.Scan.LoadSourceFile | internal/eval/dataset.go:57-71 | records the suffix; a read error is returned with "read "; otherwise the case gets the trimmed source |
| Datasets.Scan.LoadGoldFile | internal/eval/dataset.go:73-93 | records the suffix; read and parse errors are returned; otherwise the case gets id, title and normalised insights |
| Datasets.Scan.ClassifyEntry | internal/eval/dataset.go:47-55 | one file's effect on the scan is one step of the specification fold |
| Datasets.IdFollowsLastFile | internal/eval/dataset.go:57-100 | the file of a pair read last sets the case id: after the gold file it is the gold id (the suffix when that is blank), after the source it is the suffix |
| Datasets.FoldSuffixes | internal/eval/dataset.go:29-37 | the recorded suffixes are exactly those of the source and gold files listed |
| Datasets.FoldKeepsCasesNormal | internal/eval/dataset.go:57-93 | every case built has a trimmed source and normalised insights |
| Datasets.FoldAbortsAfter | internal/eval/dataset.go:34-35 | the first failing file decides the error |
| Datasets.MissingKeys | internal/eval/dataset.go:119-128 | lists each key of `have` missing from `want` once, in ascending order |
| Datasets.ValidatePairing | internal/eval/dataset.go:103-116 | succeeds exactly when the source and gold suffixes coincide; otherwise names both sorted differences |
| Datasets.UnmatchedMessageSaysSo | internal/eval/dataset.go:111-115 | a pairing error mentions "unmatched files" |
| Datasets.KeptCases | internal/eval/dataset.go:138-144 | collects exactly the cases with a source and a gold insight, one per kept suffix, listed in the order of a ghost enumeration of those suffixes |
| Datasets.CollectCases | internal/eval/dataset.go:137-152 | the error is "no valid …" exactly when no case is complete; otherwise the complete cases sorted by id, as a permutation (equal multiset) of one case per kept suffix |
| Datasets.LoadDataset | internal/eval/dataset.go:19-44 | the listing error, the first file error, the exact pairing error (sorted missing-gold and missing-source suffixes), or the sorted permutation of the complete cases, in that order |
| History.Records | internal/eval/history.go:51-62 | one run record per model of the report, in report order |
| History.AppendHistory | internal/eval/history.go:42-69 | the open error; otherwise the lines encoded up to the first encode error, and that error if any |
| History.LoadHistory | internal/eval/history.go:72-100 | a missing file is empty history; open and scan errors are returned; otherwise the decoded lines |
| History.DecodeEach | internal/eval/history.go:85-92 | the loop skips blank and undecodable lines and keeps the rest in order |
| History.DecodeLinesConcat | internal/eval/history.go:85-92 | decoding a concatenation is concatenating the decodings |
| History.EncodedReadsBack | internal/eval/history.go:42-100 | records appended with a line codec read back as themselves |
| History.AppendThenLoad | internal/eval/history_test.go:10-63 | appending a report to a history of whole lines and then loading gives the old history plus the report's records |
| History.FilterHistory | internal/eval/history.go:103-123 | the loop keeps, in order, the records of the same cleaned dataset path and a threshold within 1e-9 |
| History.MatchingMembers | internal/eval/history.go:103-123 | a record is kept exactly when it is in the input and matches the run |
| History.MatchingConcat | internal/eval/history.go:103-123 | filtering distributes over concatenation |
| History.MatchingIdempotent | internal/eval/history.go:103-123 | filtering twice is filtering once |
| History.Of | internal/eval/history.go:138-157 | a model's records all carry its id |
| History.Passes | internal/eval/history.go:151-153 | no more passing runs than runs |
| History.Aggregate | internal/eval/history.go:138-157 | the map holds, for each model seen, the aggregate of exactly its records |
| History.RowsOf | internal/eval/history.go:159-172 | one row per model seen, each that model's row, none twice |
| History.BuildLeaderboard | internal/eval/history.go:126-185 | a row per model with its aggregates, no model twice, ordered by average recall, then best recall, then runs, all descending |
| History.PermutedLeaderboard | internal/eval/history.go:174-182 | sorting the rows keeps them a leaderboard of the same records |
| History.BestRecallIsMax | internal/eval/history.go:148-150 | best recall is the largest recall of the model's runs, or 0 if none is positive (the loop starts at 0 and replaces only on a strict `>`) |
| History.LastSeenIsLatest | internal/eval/history.go:154-156 | last seen is the latest generation time of the model's runs |
| History.RowForFacts | internal/eval/history.go:159-172 | a row's runs, pass rate, best recall and last seen agree with the model's records |
| History.AverageRecallBounded | internal/eval/history.go:165 | a row's average recall lies in [0, 1] |
| History.LeaderboardCountsEveryRun | internal/eval/history.go:126-185 | the rows' run counts add up to the number of records |
| History.RenderLeaderboardMarkdown | internal/eval/history.go:189-208 | the title and legend, then one block per row numbered from 1 |
| History.BlocksInRowOrder | internal/eval/history.go:193-206 | the k-th row's block appears at its place, in row order |
| History.RowBlockHeading | internal/eval/history.go:194-197 | each block starts with its rank and the model id in backticks |
| Reporting.ErrorCount | internal/eval/report.go:44-53 | no more errored cases than cases |
| Reporting.CaseStats | internal/eval/report.go:44-53 | parsed and errored cases split the cases; errored are those with an error |
| Reporting.ErrorCountIgnoresScores | internal/eval/report.go:44-53 | the counts depend only on the error fields |
| Reporting.NoErrorsAllParsed | internal/eval/report.go:44-53 | with no errors every case counts as parsed |
| Reporting.SortByRecallDesc | internal/eval/report.go:10-14 | models end ordered by descending average recall, a permutation of the input |
| Reporting.RenderMarkdown | internal/eval/report.go:17-42 | the header and table head, then one row per model in report order |
| Reporting.ReportStartsWithTitle | internal/eval/report.go:19 | every report starts with its title |
| Reporting.RowsInReportOrder | internal/eval/report.go:26-38 | the k-th model's row appears at its place |
| Reporting.MarkdownIgnoresScores | internal/eval/report.go:26-38 | the table depends only on the summaries and case errors, not on per-case scores |
| AppTypes.ErrorText | internal/app/types.go:157-159 | the message is "API error: ", the status code, " - " and the body |
| AppTypes.AliasTableShape | internal/app/types.go:162-171 | the alias table has exactly the listed names and targets |
| AppTypes.NoTargetIsAlias | internal/app/types.go:162-171 | no target is itself an alias |
| AppTypes.ModelAliases | internal/app/types.go:174-178 | the copy has the same names, and each resolves to its target |
| AppTypes.ResolveModel | internal/app/types.go:181-186 | an alias resolves to its target; any other name to itself |
| AppTypes.ResolveModelIdempotent | internal/app/types.go:181-186 | resolving twice is resolving once |
| AppTypes.DefaultChatOptions | internal/app/types.go:194-200 | temperature 0.6, 8192 tokens, top-p 0.9, and nothing else set |
| ModelCommand.ReverseOf | cmd/model.go:86-96 | each target maps to the sorted listing of exactly its aliases |
| ModelCommand.BuildReverseAliases | cmd/model.go:86-96 | the same for the built-in alias table |
| ModelCommand.AddAlias | cmd/model.go:88-90 | adding one alias keeps the grouping invariant |
| ModelCommand.SortAliases | cmd/model.go:92-94 | sorting one listing keeps the grouping and touches no other listing |
| ModelCommand.EachAliasListedOnce | cmd/model.go:86-96 | every alias is listed once, under its own target only |
| ModelCommand.SortModelsById | cmd/model.go:38-40 | models end sorted by id, a permutation of the input |
| ModelCommand.LongestId | cmd/model.go:48-53 | the width is the longest id length, 0 for no models |
| ModelCommand.Tags | cmd/model.go:57-64 | a model has tags exactly when it has aliases or is a vision model |
| ModelCommand.TagsAligned | cmd/model.go:66-71 | tags start at the same column for every id, at least two spaces after it |
| ClientHelpers.BuildMessages | internal/app/client.go:166-182 | the system prompt, then the user's content |
| ClientHelpers.BuildMessagesWithContext | internal/app/client.go:154-163 | the context unchanged, then the two base messages |
| ClientHelpers.BuildChatRequest | internal/app/client.go:401-426 | each option or its default, the resolved model, and no streaming |
| ClientHelpers.RequestModelResolved | internal/app/client.go:401-426 | a request's model is already resolved |
| ClientHelpers.IsRetryableError | internal/app/client.go:272-301 | retryable exactly when a timeout or the lower-cased message contains a listed pattern; no error is not retryable |
| ClientHelpers.RetryableIgnoresCase | internal/app/client.go:283-298 | the decision ignores letter case |
| ClientHelpers.MentionedPatternRetryable | internal/app/client.go:283-298 | a message containing any listed pattern is retryable |
| ClientHelpers.OverloadedStatusRetryable | internal/app/client.go:283-292 | API errors with status 429, 502, 503 and 504 are retried |
| ClientHelpers.Effective | internal/app/client.go:222-232 | unset limits take 1 attempt, 1 s and 30 s; set ones are kept |
| ClientHelpers.Backoff | internal/app/client.go:304-314 | the back-off is initial·2^(attempt−1), with the shift attempt−1 clamped to [0, 61] and the result capped at the maximum |
| ClientHelpers.BackoffGrows | internal/app/client.go:304-314 | back-off never shrinks as attempts go on; the first wait is twice the initial, up to the maximum |
| ClientHelpers.BackoffDoubles | internal/app/client.go:304-314 | below the cap each wait doubles the previous |
| ClientHelpers.RequestsFrom | internal/app/client.go:234-266 | no more requests than attempts |
| ClientHelpers.DoRequestWithRetry | internal/app/client.go:219-269 | the loop's outcome and request count are the retry specification's; it waits once between each two requests it sends, and its k-th wait is the back-off before attempt k+2 |
| ClientHelpers.FirstReplyWins | internal/app/client.go:256-258 | a first success returns it after one request |
| ClientHelpers.PermanentFailureStops | internal/app/client.go:263-265 | a non-retryable failure stops after one request |
| ClientHelpers.TransientFailuresExhaust | internal/app/client.go:234-268 | retryable failures use every attempt and then give up |
| ClientHelpers.Payloads | internal/app/client.go:362-369 | no more payloads than lines |
| ClientHelpers.TokenLine | internal/app/client.go:381-389 | the first-token line is a data line whose chunk has a non-empty delta |
| ClientHelpers.TokenLineFound | internal/app/client.go:381-389 | a first token is timed exactly when some payload carries a non-empty delta |
| ClientHelpers.AppendDeltas | internal/app/client.go:381-389 | the content grows by the chunk's deltas, and it is reported whether any was non-empty |
| ClientHelpers.ReadSSEStream | internal/app/client.go:353-398 | a scan error fails; otherwise the content is the deltas up to [DONE], the usage is the last one seen, and the TTFT is that of the first token line |
| ClientHelpers.ImageMimeType | internal/app/client.go:586-597 | .png, .gif and .webp map to their types in any case; everything else is JPEG |
| ClientHelpers.ImageMimeTypeIgnoresCase | internal/app/client.go:586-597 | the extension's case does not matter |
| ChatCommand.CommandOf | cmd/chat.go:168-211 | a line names a known command exactly when its lower-cased form is one of the seven names |
| ChatCommand.Window | cmd/chat.go:144-146 | past 20 messages the oldest exchange is dropped; otherwise the context is kept |
| ChatCommand.RecordKeepsWellFormed | cmd/chat.go:140-146 | recording an exchange keeps whole alternating exchanges within the window, ending with the new one |
| ChatCommand.RequestOptions | cmd/chat.go:117-123 | the session's options with the context; the file only while the context is empty |
| ChatCommand.Session.constructor | cmd/chat.go:67-72 | default options with the --file path, and an empty context |
| ChatCommand.Session.HandleChatCommand | cmd/chat.go:168-211 | every slash line is handled and names its command; only /clear empties the context |
| ChatCommand.Session.Step | cmd/chat.go:104-146 | blank lines are skipped and slash lines run a command; a failed send leaves the context unchanged, a reply is recorded |
| ChatCommand.DispatchAsWritten | cmd/chat.go:84-106 | the exit test as written: only a read error stops the REPL; end of input reads as a blank line and prompts again |
| ChatCommand.AsWrittenNeverStops | cmd/chat.go:84-106 | as written, a session whose input has ended never stops: every later read prompts again |
| ChatCommand.DispatchRead | cmd/chat.go:84-106 | the intended exit test: a read error or end of input stops; a blank line prompts again; any other line is handled trimmed |
| ChatCommand.ReadAt | cmd/chat.go:84-90 | reads yield the input's lines in order, then end of input for ever |
| ChatCommand.InputEndStopsSession | cmd/chat.go:84-106 | with the intended test, a session reads all its lines and stops at the first read past them |
| ChatCommand.Session.Turn | cmd/chat.go:80-146 | one REPL turn: a stopping read leaves the session unchanged with no outcome; a line gets exactly Step's outcome and new context |
| ChatCommand.TruncateString | cmd/chat.go:262-269 | newlines become spaces, and longer text is cut to the maximum ending in "..." |
| ChatCommand.TruncateIdempotent | cmd/chat.go:262-269 | truncating twice is truncating once |
| ChatCommand.ContextLine | cmd/chat.go:248-257 | [You] or [Syn], then at most 50 characters |
| EvalCommand.CheckFormat | cmd/eval.go:81-83 | only md and json are accepted; anything else is named in the error |
| EvalCommand.LimitCases | cmd/eval.go:91-93 | a positive limit below the count keeps that many leading cases; otherwise all are kept |
| EvalCommand.LimitIdempotent | cmd/eval.go:91-93 | limiting twice is limiting once |
| EvalCommand.CollectEntries | cmd/eval.go:437-443 | the allow set is the non-blank trimmed entries |
| EvalCommand.BuildAllowList | cmd/eval.go:437-443 | the same for the comma-separated list |
| EvalCommand.SelectModels | cmd/eval.go:420-455 | the loop keeps the models the selection keeps, in order |
| EvalCommand.SelectedMembers | cmd/eval.go:420-455 | a model is kept exactly when it is not denied and the list is blank or names it; a denied model never is |
| EvalCommand.SelectedInOrder | cmd/eval.go:445-453 | the selection is a subsequence of the listing |
| EvalCommand.BlankListKeepsAllowed | cmd/eval.go:426-435 | a blank list keeps every model that is not denied |
| EvalCommand.ReplaceSeparators | cmd/eval.go:229-230 | '/' and ':' become '_', nothing else changes |
| EvalCommand.CollapseBad | cmd/eval.go:231 | only letters, digits, '.', '_' and '-' remain |
| EvalCommand.SanitizeFilePart | cmd/eval.go:224-237 | always a non-empty safe file part that neither starts nor ends with '_'; blank input gives "unknown" |
| EvalCommand.FilePartFixed | cmd/eval.go:224-237 | a safe file part sanitises to itself |
| EvalCommand.SanitizeIdempotent | cmd/eval.go:224-237 | sanitising twice is sanitising once |
| EvalCommand.ModelCaseStats | cmd/eval.go:295-304 | parsed and errored cases split one model's cases |
| EvalCommand.CountCaseErrors | cmd/eval.go:283-293 | the count is the errored cases of all models, at most the number of cases |
| EvalCommand.ShouldKeepExisting | cmd/eval.go:324-336 | a missing file or directory is replaced; an unreadable file is kept; a file is kept if it is manual or not generated |
| EvalCommand.BuildLeaderboardContent | cmd/eval.go:338-351 | the template's head, then one row per model |
| EvalCommand.LeaderboardStartsWithMarker | cmd/eval.go:338-351 | the template carries the manual marker |
| EvalCommand.LeaderboardListsModels | cmd/eval.go:338-351 | every model of the report has its row |
| EvalCommand.TemplateIsKept | cmd/eval.go:306-336 | a written template is never overwritten by a later run |
| EvalCommand.EnsureManualLeaderboard | cmd/eval.go:306-321 | an existing file is kept; mkdir and write errors are reported; otherwise the template is written |
| EvalCommand.EvalOptions | cmd/eval.go:363-366 | only the model and top-p 1.0 are set |
| EvalCommand.Replies | cmd/eval.go:361-369 | case k is sent the prompt of its source with the evaluation options |
| EvalCommand.CaseResultOf | cmd/eval.go:374-394 | a failed call records its error; unparsable output records the parse error; otherwise the parsed output |
| EvalCommand.AvgTtf | cmd/eval.go:403-405 | average TTFT is the floor of total over count, and 0 with no timed case |
| EvalCommand.TtfCounts | cmd/eval.go:381-384 | only successful calls with a positive TTFT are counted |
| EvalCommand.CaseResults | cmd/eval.go:361-395 | one result per case, in case order |
| EvalCommand.CleanRunHasNoErrors | cmd/eval.go:374-394 | calls that succeed with parsable output leave no errored case |
| EvalCommand.FailedCallIsError | cmd/eval.go:375-379 | a failed call shows up as an errored case |
| EvalCommand.EvalCase | cmd/eval.go:362-394 | one case's result, and whether its TTFT counts |
| EvalCommand.RunCases | cmd/eval.go:357-395 | the loop's results, token total and TTFT sums are those of the replies |
| EvalCommand.EvalModel | cmd/eval.go:353-407 | the model's results, tokens, tokens per second over elapsed time, and average TTFT |

## Left out

- I/O is outside the model. Directory reads, file open, read, write and append, `os.MkdirAll`, stdin reading, terminal styling, spinners, banners and `fmt` output become parameters or are omitted. So are `printContextStyled`'s colours (only its line text is modelled), `printChatHelp` and `printWelcomeBanner`.
- JSON encoding and decoding, `filepath.Clean`, `strconv.Quote`, and float and time formatting are function parameters with no behaviour of their own.
- The network and the clock are parameters. Each attempt's result, each stream line's elapsed time and each call's reply are inputs.
- Context cancellation, both the check before each attempt and the one during the back-off wait, is merged into one `cancelled(attempt)` input.
- Back-off jitter (`rand`) is left out, so `Backoff` is the deterministic base delay.
- ClientHelpers.Backoff: the 64-bit overflow of `initialBackoff << shift` is not modelled; integers are unbounded.
- Floating point is exact `real`. Averages, ratios, tokens per second and the 1e-9 threshold comparison carry no rounding.
- Strings are sequences of characters, while Go's `len` counts UTF-8 bytes. For non-ASCII ids and text, the widths, truncation and padding may therefore differ.
- `strings.ToLower` is modelled for ASCII letters only. `strings.TrimSpace` and `strings.Fields` use Go's space set.
- Go maps iterate in random order, and `sort.Slice` is not stable. The model therefore states orders only up to these choices: cases are sorted by id, and sorted leaderboard rows are a permutation of the built ones.
- ChatCommand.Session.Step: `/exit` and `/quit` call `os.Exit` in the source; the model returns `Ran(Exit)` and leaves the process exit out. The source does not stop at end of input: a Scanner reports no error at EOF, so the exit test fails and the blank-line `continue` prompts again for ever (see "## Findings"). `Session.Turn` uses the intended test instead. Ctrl-C (`ctx.Done`) is left out with the signal handling.
- ClientHelpers.BuildMessagesWithContext: Go's `append` may write into the caller's context slice when it has spare capacity. The model builds a fresh sequence, so that aliasing is not captured.
- EvalCommand.EnsureManualLeaderboard: a write error is reported, and the file is modelled as unchanged; a partially written file is not modelled.
- EvalCommand.DropBad: only bounds its length and first character; CollapseBad carries the full character property.
- Scoring, model summaries and the run history are modelled as the library operations of `internal/eval`. The `syn eval` command does not call them: it zeroes each summary (`cmd/eval.go:397`) and never reads its history flags. The model does not claim the command scores or records runs.
- Datasets.IdFollowsLastFile: the directory listing is any sequence of entries. `os.ReadDir` returns the entries sorted by file name, so `gold_<s>.json` is always read before `source_<s>.txt`. `loadSourceFile` then sets the id to the suffix, so in the real program every loaded case's id is its suffix and a gold file's `id` field is overwritten. The model does not assume a sorted listing. It proves the id rule for both read orders instead, and does not state the sorted-listing consequence.
- The command orchestration is not modelled beyond the pieces listed above. That covers `runEval`, `fetchAndSelectModels`, `buildEvalReport`, `finalizeEvalReport`, `writeReportFile`, `writeResponseArtifacts`, `writeModelCases`, `maybeWriteLeaderboard` and `renderReport`. They sequence modelled operations with I/O and JSON output.
- The streaming client (`ChatStream`, `Chat`, HTTP request construction, headers) is left out beyond the pure helpers. Vision and embedding calls are left out too, apart from `imageMIMEType`.

## Findings

| source | as written | input that shows it | evidently intended | confidence | as-written member | corrected member |
|---|---|---|---|---|---|---|
| cmd/chat.go:84-106 | at end of input `scanner.Err()` is nil, so `result.err != nil \|\| result.text == "" && scanner.Err() != nil` is false and the empty text takes the blank-line `continue` | `syn chat < /dev/null`, or Ctrl-D at the prompt: the `you> ` prompt repeats without end | end of input ends the session, as a read error does | high, not executed | ChatCommand.AsWrittenNeverStops | ChatCommand.InputEndStopsSession |
