/**
 * The records of the evaluation engine (internal/eval/types.go). Go's
 * float64 fields are exact reals here, int64 fields unbounded ints, and
 * `time.Time` an ordered integer timestamp whose zero value is 0.
 */
module EvalTypes {

  /** One evaluation sample: a source text and its gold insights. */
  datatype Case = Case(id: string, title: string, source: string, goldInsights: seq<string>)

  /** Go's zero `Case{}`. */
  const ZeroCase := Case("", "", "", [])

  /** The normalised model output used for scoring. */
  datatype ParsedOutput = ParsedOutput(tldr: string, keyInsights: seq<string>, evidenceQuotes: seq<string>)

  const ZeroParsed := ParsedOutput("", [], [])

  /** Per-case metrics. */
  datatype Score = Score(
    recall: real,
    missingInsights: int,
    contradictions: int,
    quoteCoverage: real,
    formatCompliant: bool,
    pass: bool,
    matchedGoldCount: int)

  const ZeroScore := Score(0.0, 0, 0, 0.0, false, false, 0)

  /** One model response and its score for one case; `error` is "" when there was none. */
  datatype CaseResult = CaseResult(
    caseId: string,
    rawOutput: string,
    parsed: ParsedOutput,
    score: Score,
    ttfMs: int,
    error: string)

  /** Case-level scores folded into one model-level summary. */
  datatype ModelSummary = ModelSummary(
    averageRecall: real,
    averageCoverage: real,
    totalContradictions: int,
    formatPassRate: real,
    overallPass: bool)

  const ZeroSummary := ModelSummary(0.0, 0.0, 0, 0.0, false)

  /** All cases of one model in one run. */
  datatype ModelResult = ModelResult(
    modelId: string,
    cases: seq<CaseResult>,
    summary: ModelSummary,
    elapsedMs: int,
    completionTokens: int,
    tokensPerSec: real,
    avgTtfMs: int)

  /** One full evaluation run. */
  datatype Report = Report(
    generatedAt: int,
    datasetPath: string,
    recallThreshold: real,
    models: seq<ModelResult>)
}
