/**
 * The eval run report (internal/eval/report.go): per-model parsed and
 * error counts, the best-recall-first order, and the markdown report.
 * Number and time formatting are parameters: `stamp` is the
 * "2006-01-02 15:04:05" layout of a timestamp, `fixed2` and `fixed1` are
 * `%.2f` and `%.1f`.
 */
module Reporting {
  import opened Text
  import opened EvalTypes
  import opened Sorting

  // ---------------------------------------------------------- caseStats

  /** A case failed when its error text is not blank. */
  predicate Failed(c: CaseResult) {
    Trim(c.error) != ""
  }

  /** The number of failed cases. */
  function ErrorCount(cases: seq<CaseResult>): (n: nat)
    ensures n <= |cases|
    decreases |cases|
  {
    if |cases| == 0 then 0
    else ErrorCount(cases[..|cases| - 1]) + (if Failed(cases[|cases| - 1]) then 1 else 0)
  }

  /** caseStats: every case is either parsed or an error. */
  method CaseStats(cases: seq<CaseResult>) returns (parsed: nat, errs: nat)
    ensures errs == ErrorCount(cases)
    ensures parsed + errs == |cases|
  {
    hide Failed;
    parsed, errs := 0, 0;
    var i := 0;
    while i < |cases|
      invariant 0 <= i <= |cases|
      invariant errs == ErrorCount(cases[..i])
      invariant parsed + errs == i
    {
      assert cases[..i + 1][..i] == cases[..i];
      if Failed(cases[i]) {
        errs := errs + 1;
      } else {
        parsed := parsed + 1;
      }
      i := i + 1;
    }
    assert cases[..i] == cases;
  }

  /** The counts see only each case's error text: its output, parse and score do not matter. */
  lemma {:induction false} ErrorCountIgnoresScores(a: seq<CaseResult>, b: seq<CaseResult>)
    requires |a| == |b|
    requires forall i :: 0 <= i < |a| ==> a[i].error == b[i].error
    ensures ErrorCount(a) == ErrorCount(b)
    decreases |a|
  {
    hide Trim;
    if |a| > 0 {
      var n := |a| - 1;
      assert Failed(a[n]) == Failed(b[n]);
      assert forall i :: 0 <= i < n ==> a[..n][i] == a[i] && b[..n][i] == b[i];
      ErrorCountIgnoresScores(a[..n], b[..n]);
    }
  }

  /** With no error texts at all, every case counts as parsed. */
  lemma {:induction false} NoErrorsAllParsed(cases: seq<CaseResult>)
    requires forall i :: 0 <= i < |cases| ==> cases[i].error == ""
    ensures ErrorCount(cases) == 0
    decreases |cases|
  {
    if |cases| > 0 {
      var n := |cases| - 1;
      assert Trim(cases[n].error) == "" by {
        assert cases[n].error == "";
        TrimNoSpace("");
      }
      NoErrorsAllParsed(cases[..n]);
    }
  }

  // --------------------------------------------------- SortByRecallDesc

  /** Go's `less` is `>` on average recall, so the order is best recall first. */
  predicate RecallFirst(a: ModelResult, b: ModelResult) {
    a.summary.averageRecall >= b.summary.averageRecall
  }

  lemma RecallFirstIsTotalPreorder()
    ensures TotalPreorder(RecallFirst)
  {
  }

  /** SortByRecallDesc: a permutation of the models, average recall non-increasing. */
  method SortByRecallDesc(models: array<ModelResult>)
    modifies models
    ensures SortedBy(models[..], RecallFirst)
    ensures multiset(models[..]) == multiset(old(models[..]))
    ensures forall i :: 0 <= i < models.Length - 1 ==>
      models[i].summary.averageRecall >= models[i + 1].summary.averageRecall
  {
    RecallFirstIsTotalPreorder();
    SortBy(models, RecallFirst);
    forall i | 0 <= i < models.Length - 1
      ensures models[i].summary.averageRecall >= models[i + 1].summary.averageRecall
    {
      ghost var le := RecallFirst;
      assert le(models[..][i], models[..][i + 1]);
    }
  }

  // ----------------------------------------------------- RenderMarkdown

  const ReportTitle := "# syn eval report\n\n"
  const TableHeader := "| Model | Parsed | Errors | Elapsed (s) | Tokens | Tok/s | TTFT (ms) |\n"
                       + "|---|---:|---:|---:|---:|---:|---:|\n"

  /** The lines above the table: title, generation time, dataset, scoring note. */
  function Preamble(r: Report, stamp: int -> string): string {
    ReportTitle
    + "- Generated: " + stamp(r.generatedAt) + "\n"
    + "- Dataset: `" + r.datasetPath + "`\n"
    + "- Scoring: disabled (manual review workflow)\n\n"
  }

  /** One table row; the parsed and error columns come from the case error texts. */
  function TableRow(m: ModelResult, fixed2: real -> string, fixed1: real -> string): string {
    var errs := ErrorCount(m.cases);
    "| `" + m.modelId + "` | " + Itoa(|m.cases| - errs) + " | " + Itoa(errs)
    + " | " + fixed2(m.elapsedMs as real / 1000.0) + " | " + Itoa(m.completionTokens)
    + " | " + fixed1(m.tokensPerSec) + " | " + Itoa(m.avgTtfMs) + " |\n"
  }

  /** The table rows of `models`, in order. */
  function TableRows(models: seq<ModelResult>, fixed2: real -> string, fixed1: real -> string): string
    decreases |models|
  {
    if |models| == 0 then ""
    else TableRows(models[..|models| - 1], fixed2, fixed1) + TableRow(models[|models| - 1], fixed2, fixed1)
  }

  /** The whole report text. */
  function Markdown(r: Report, stamp: int -> string, fixed2: real -> string, fixed1: real -> string): string {
    Preamble(r, stamp) + TableHeader + TableRows(r.models, fixed2, fixed1) + "\n"
  }

  /** RenderMarkdown: the preamble, the table header, one row per model in report order, a blank line. */
  method RenderMarkdown(r: Report, stamp: int -> string, fixed2: real -> string, fixed1: real -> string)
    returns (out: string)
    ensures out == Markdown(r, stamp, fixed2, fixed1)
  {
    hide Preamble, TableHeader, TableRow, TableRows, Itoa;
    ghost var head := Preamble(r, stamp) + TableHeader;
    out := Preamble(r, stamp) + TableHeader;
    var i := 0;
    TableRowsNext(r.models, 0, fixed2, fixed1);
    while i < |r.models|
      invariant 0 <= i <= |r.models|
      invariant out == head + TableRows(r.models[..i], fixed2, fixed1)
    {
      var m := r.models[i];
      var parsed, errs := CaseStats(m.cases);
      var row := "| `" + m.modelId + "` | " + Itoa(parsed) + " | " + Itoa(errs)
        + " | " + fixed2(m.elapsedMs as real / 1000.0) + " | " + Itoa(m.completionTokens)
        + " | " + fixed1(m.tokensPerSec) + " | " + Itoa(m.avgTtfMs) + " |\n";
      RowOfStats(m, parsed, errs, fixed2, fixed1);
      TableRowsNext(r.models, i, fixed2, fixed1);
      out := out + row;
      i := i + 1;
    }
    assert r.models[..i] == r.models;
    out := out + "\n";
  }

  lemma TableRowsNext(models: seq<ModelResult>, i: int, fixed2: real -> string, fixed1: real -> string)
    requires 0 <= i <= |models|
    ensures TableRows(models[..0], fixed2, fixed1) == ""
    ensures i < |models| ==>
      TableRows(models[..i + 1], fixed2, fixed1) == TableRows(models[..i], fixed2, fixed1) + TableRow(models[i], fixed2, fixed1)
  {
    hide TableRow;
    if i < |models| {
      assert models[..i + 1][..i] == models[..i];
    }
  }

  /** The row written from caseStats' counts is the row of the model. */
  lemma RowOfStats(m: ModelResult, parsed: int, errs: int, fixed2: real -> string, fixed1: real -> string)
    requires errs == ErrorCount(m.cases) && parsed + errs == |m.cases|
    ensures TableRow(m, fixed2, fixed1)
      == "| `" + m.modelId + "` | " + Itoa(parsed) + " | " + Itoa(errs)
         + " | " + fixed2(m.elapsedMs as real / 1000.0) + " | " + Itoa(m.completionTokens)
         + " | " + fixed1(m.tokensPerSec) + " | " + Itoa(m.avgTtfMs) + " |\n"
  {
    hide Itoa, ErrorCount;
  }

  /** The report opens with its title. */
  lemma ReportStartsWithTitle(r: Report, stamp: int -> string, fixed2: real -> string, fixed1: real -> string)
    ensures HasPrefix(Markdown(r, stamp, fixed2, fixed1), "# syn eval report")
  {
    hide TableRows, TableHeader;
    var md := Markdown(r, stamp, fixed2, fixed1);
    assert md[..|ReportTitle|] == ReportTitle;
    assert md[..17] == ReportTitle[..17];
  }

  lemma {:induction false} TableRowsConcat(a: seq<ModelResult>, b: seq<ModelResult>, fixed2: real -> string, fixed1: real -> string)
    ensures TableRows(a + b, fixed2, fixed1) == TableRows(a, fixed2, fixed1) + TableRows(b, fixed2, fixed1)
    decreases |b|
  {
    hide TableRow;
    if |b| > 0 {
      var n := |b| - 1;
      assert (a + b)[..|a + b| - 1] == a + b[..n];
      assert (a + b)[|a + b| - 1] == b[n];
      TableRowsConcat(a, b[..n], fixed2, fixed1);
    } else {
      assert a + b == a;
    }
  }

  /** The row of model `k` follows the rows of the models before it and precedes those after it. */
  lemma RowsInReportOrder(models: seq<ModelResult>, k: int, fixed2: real -> string, fixed1: real -> string)
    requires 0 <= k < |models|
    ensures TableRows(models, fixed2, fixed1)
      == TableRows(models[..k], fixed2, fixed1) + TableRow(models[k], fixed2, fixed1)
         + TableRows(models[k + 1..], fixed2, fixed1)
  {
    hide TableRow, TableRows;
    assert models == models[..k] + ([models[k]] + models[k + 1..]);
    TableRowsConcat(models[..k], [models[k]] + models[k + 1..], fixed2, fixed1);
    TableRowsConcat([models[k]], models[k + 1..], fixed2, fixed1);
    TableRowsOne(models[k], fixed2, fixed1);
  }

  lemma TableRowsOne(m: ModelResult, fixed2: real -> string, fixed1: real -> string)
    ensures TableRows([m], fixed2, fixed1) == TableRow(m, fixed2, fixed1)
  {
    hide TableRow;
    assert [m][..0] == [];
  }

  /** Two models that differ only in their cases' outputs and scores render the same row. */
  predicate SameButScores(a: ModelResult, b: ModelResult) {
    && a.modelId == b.modelId && a.elapsedMs == b.elapsedMs && a.completionTokens == b.completionTokens
    && a.tokensPerSec == b.tokensPerSec && a.avgTtfMs == b.avgTtfMs
    && |a.cases| == |b.cases|
    && forall i :: 0 <= i < |a.cases| ==> a.cases[i].error == b.cases[i].error
  }

  /** The report's counts depend only on error texts, never on scores. */
  lemma {:induction false} MarkdownIgnoresScores(a: seq<ModelResult>, b: seq<ModelResult>, fixed2: real -> string, fixed1: real -> string)
    requires |a| == |b|
    requires forall i :: 0 <= i < |a| ==> SameButScores(a[i], b[i])
    ensures TableRows(a, fixed2, fixed1) == TableRows(b, fixed2, fixed1)
    decreases |a|
  {
    hide Itoa, ErrorCount;
    if |a| > 0 {
      var n := |a| - 1;
      assert SameButScores(a[n], b[n]);
      ErrorCountIgnoresScores(a[n].cases, b[n].cases);
      assert TableRow(a[n], fixed2, fixed1) == TableRow(b[n], fixed2, fixed1);
      assert forall i :: 0 <= i < n ==> a[..n][i] == a[i] && b[..n][i] == b[i];
      MarkdownIgnoresScores(a[..n], b[..n], fixed2, fixed1);
    }
  }
}
