/**
 * The run history (internal/eval/history.go): one JSON line per model
 * per run, appended to a file, read back, filtered to one dataset and
 * threshold, and aggregated into a leaderboard. The file system, the
 * JSON encoder and decoder, `filepath.Clean` and the number and time
 * formatting are parameters; timestamps are ordered integers whose zero
 * time is 0.
 */
module History {
  import opened Wrappers
  import opened Text
  import opened EvalTypes
  import opened Sorting
  import opened Fractions

  /** One model result from one eval run, as stored on one line of the history file. */
  datatype RunRecord = RunRecord(
    generatedAt: int,
    datasetPath: string,
    recallThreshold: real,
    modelId: string,
    caseCount: int,
    averageRecall: real,
    averageCoverage: real,
    contradictions: int,
    formatPassRate: real,
    overallPass: bool)

  /** Scores of one model aggregated over the history. */
  datatype LeaderboardRow = LeaderboardRow(
    modelId: string,
    runs: int,
    averageRecall: real,
    bestRecall: real,
    averageCoverage: real,
    totalContradictions: int,
    overallPassRate: real,
    lastSeen: int)

  // ------------------------------------------------------ AppendHistory

  /** The record AppendHistory writes for one model of a report. */
  function Project(report: Report, m: ModelResult): RunRecord {
    RunRecord(report.generatedAt, report.datasetPath, report.recallThreshold, m.modelId, |m.cases|,
              m.summary.averageRecall, m.summary.averageCoverage, m.summary.totalContradictions,
              m.summary.formatPassRate, m.summary.overallPass)
  }

  /** The records of a report, one per model in report order. */
  function Records(report: Report): (rs: seq<RunRecord>)
    ensures |rs| == |report.models|
    ensures forall i :: 0 <= i < |rs| ==> rs[i] == Project(report, report.models[i])
  {
    seq(|report.models|, i requires 0 <= i < |report.models| => Project(report, report.models[i]))
  }

  /** The lines the encoder writes for `recs`, up to the first record it cannot encode. */
  function Encoded(recs: seq<RunRecord>, encode: RunRecord -> Result<string>): string
    decreases |recs|
  {
    if |recs| == 0 || encode(recs[0]).Err? then ""
    else encode(recs[0]).value + "\n" + Encoded(recs[1..], encode)
  }

  /** The first encoding error among `recs`, if any. */
  function EncodeError(recs: seq<RunRecord>, encode: RunRecord -> Result<string>): Option<string>
    decreases |recs|
  {
    if |recs| == 0 then None
    else if encode(recs[0]).Err? then Some(encode(recs[0]).error)
    else EncodeError(recs[1..], encode)
  }

  /**
   * AppendHistory: `openError` is what opening the file for appending
   * failed with, if it did; `written` is the text added to the file. An encoding error
   * stops the loop, and the lines written before it stay in the file.
   */
  method AppendHistory(openError: Option<string>, report: Report, encode: RunRecord -> Result<string>)
    returns (written: string, err: Option<string>)
    ensures openError.Some? ==> written == "" && err == Some("open history file: " + openError.value)
    ensures openError.None? ==> written == Encoded(Records(report), encode)
    ensures openError.None? && EncodeError(Records(report), encode).None? ==> err == None
    ensures openError.None? && EncodeError(Records(report), encode).Some? ==>
      err == Some("append history record: " + EncodeError(Records(report), encode).value)
  {
    if openError.Some? {
      return "", Some("open history file: " + openError.value);
    }
    hide Encoded, EncodeError, Records, Project;
    var recs := Records(report);
    written := "";
    for i := 0 to |recs|
      invariant EncodeError(recs[..i], encode).None?
      invariant written + Encoded(recs[i..], encode) == Encoded(recs, encode)
      invariant EncodeError(recs[i..], encode) == EncodeError(recs, encode)
    {
      var rec := Project(report, report.models[i]);
      var line := encode(rec);
      assert rec == recs[i];
      EncodedAt(recs, i, encode);
      if line.Err? {
        return written, Some("append history record: " + line.error);
      }
      EncodeErrorSnoc(recs[..i], rec, encode);
      assert recs[..i] + [rec] == recs[..i + 1];
      Regroup(written, line.value, Encoded(recs[i + 1..], encode));
      written := written + line.value + "\n";
    }
    EncodedAt(recs, |recs|, encode);
    err := None;
  }

  /** Writing one more line moves it from the text still to come to the text written. */
  lemma Regroup(written: string, line: string, rest: string)
    ensures written + (line + "\n" + rest) == (written + line + "\n") + rest
  {
  }

  /** How Encoded and EncodeError read the suffix of `recs` that starts at `i`. */
  lemma EncodedAt(recs: seq<RunRecord>, i: int, encode: RunRecord -> Result<string>)
    requires 0 <= i <= |recs|
    ensures i == |recs| ==> Encoded(recs[i..], encode) == "" && EncodeError(recs[i..], encode) == None
    ensures i < |recs| && encode(recs[i]).Err? ==>
      Encoded(recs[i..], encode) == "" && EncodeError(recs[i..], encode) == Some(encode(recs[i]).error)
    ensures i < |recs| && encode(recs[i]).Ok? ==>
      && Encoded(recs[i..], encode) == encode(recs[i]).value + "\n" + Encoded(recs[i + 1..], encode)
      && EncodeError(recs[i..], encode) == EncodeError(recs[i + 1..], encode)
  {
    if i < |recs| {
      assert recs[i..][1..] == recs[i + 1..];
    }
  }

  lemma {:induction false} EncodeErrorSnoc(recs: seq<RunRecord>, r: RunRecord, encode: RunRecord -> Result<string>)
    requires EncodeError(recs, encode).None? && encode(r).Ok?
    ensures EncodeError(recs + [r], encode).None?
    decreases |recs|
  {
    if |recs| > 0 {
      assert (recs + [r])[1..] == recs[1..] + [r];
      EncodeErrorSnoc(recs[1..], r, encode);
    }
  }

  // -------------------------------------------------------- LoadHistory

  /** What opening the history file finds. */
  datatype HistoryFile = Missing | Unopenable(error: string) | Readable(content: string, scanError: Option<string>)

  /** The records of the lines that trim to something the decoder accepts, in file order. */
  function DecodeLines(lines: seq<string>, decode: string -> Option<RunRecord>): seq<RunRecord>
    decreases |lines|
  {
    if |lines| == 0 then []
    else
      var prev := DecodeLines(lines[..|lines| - 1], decode);
      var line := Trim(lines[|lines| - 1]);
      if line == "" || decode(line).None? then prev else prev + [decode(line).value]
  }

  /**
   * The records of a history file's text. Go's line scanner drops a final
   * empty line and a trailing carriage return; neither can reach the
   * decoder, because blank lines are skipped and lines are trimmed.
   */
  function Stored(content: string, decode: string -> Option<RunRecord>): seq<RunRecord> {
    DecodeLines(Split(content, '\n'), decode)
  }

  /** LoadHistory: no file is no history; blank and undecodable lines are skipped. */
  method LoadHistory(file: HistoryFile, decode: string -> Option<RunRecord>) returns (r: Result<seq<RunRecord>>)
    ensures file.Missing? ==> r == Ok([])
    ensures file.Unopenable? ==> r == Err("open history file: " + file.error)
    ensures file.Readable? && file.scanError.Some? ==> r == Err("scan history file: " + file.scanError.value)
    ensures file.Readable? && file.scanError.None? ==> r == Ok(Stored(file.content, decode))
  {
    match file
    case Missing => return Ok([]);
    case Unopenable(e) => return Err("open history file: " + e);
    case Readable(content, scanError) =>
      var rows := DecodeEach(Split(content, '\n'), decode);
      if scanError.Some? {
        return Err("scan history file: " + scanError.value);
      }
      r := Ok(rows);
  }

  /** The scanning loop of LoadHistory: trims each line, skips blank and undecodable ones. */
  method DecodeEach(lines: seq<string>, decode: string -> Option<RunRecord>) returns (rows: seq<RunRecord>)
    ensures rows == DecodeLines(lines, decode)
  {
    hide DecodeLines, Trim;
    rows := [];
    var i := 0;
    assert lines[..0] == [];
    DecodeLinesNext(lines, 0, decode);
    while i < |lines|
      invariant 0 <= i <= |lines|
      invariant rows == DecodeLines(lines[..i], decode)
    {
      DecodeLinesNext(lines, i, decode);
      var line := Trim(lines[i]);
      if line != "" {
        var rec := decode(line);
        if rec.Some? {
          rows := rows + [rec.value];
        }
      }
      i := i + 1;
    }
    assert lines[..i] == lines;
  }

  /** Decoding one more line of `lines` adds that line's record, if it has one. */
  lemma DecodeLinesNext(lines: seq<string>, i: int, decode: string -> Option<RunRecord>)
    requires 0 <= i <= |lines|
    ensures DecodeLines(lines[..0], decode) == []
    ensures i < |lines| && (Trim(lines[i]) == "" || decode(Trim(lines[i])).None?) ==>
      DecodeLines(lines[..i + 1], decode) == DecodeLines(lines[..i], decode)
    ensures i < |lines| && Trim(lines[i]) != "" && decode(Trim(lines[i])).Some? ==>
      DecodeLines(lines[..i + 1], decode) == DecodeLines(lines[..i], decode) + [decode(Trim(lines[i])).value]
  {
    if i < |lines| {
      assert lines[..i + 1][..i] == lines[..i];
    }
  }

  lemma {:induction false} DecodeLinesConcat(a: seq<string>, b: seq<string>, decode: string -> Option<RunRecord>)
    ensures DecodeLines(a + b, decode) == DecodeLines(a, decode) + DecodeLines(b, decode)
    decreases |b|
  {
    if |b| > 0 {
      var n := |b| - 1;
      assert (a + b)[..|a + b| - 1] == a + b[..n];
      assert (a + b)[|a + b| - 1] == b[n];
      DecodeLinesConcat(a, b[..n], decode);
    } else {
      assert a + b == a;
    }
  }

  /** The encoder and decoder agree: every encoded record is one trimmed, non-blank line that decodes back to it. */
  ghost predicate LineCodec(encode: RunRecord -> Result<string>, decode: string -> Option<RunRecord>) {
    forall r :: encode(r).Ok? ==>
      && encode(r).value != ""
      && Trimmed(encode(r).value)
      && '\n' !in encode(r).value
      && decode(encode(r).value) == Some(r)
  }

  /** A file that is empty or ends with a newline, as every file AppendHistory writes does. */
  predicate WholeLines(content: string) {
    content == [] || content[|content| - 1] == '\n'
  }

  /** A blank line contributes no record. */
  lemma DecodeBlank(decode: string -> Option<RunRecord>)
    ensures DecodeLines([""], decode) == []
  {
    assert [""][..0] == [];
  }

  /** A trimmed line the decoder accepts contributes its record. */
  lemma DecodeOne(line: string, decode: string -> Option<RunRecord>)
    requires line != "" && Trimmed(line) && decode(line).Some?
    ensures DecodeLines([line], decode) == [decode(line).value]
  {
    assert [line][..0] == [];
    TrimOfTrimmed(line);
  }

  /** The lines of the encoded records read back as those records. */
  lemma {:induction false} EncodedReadsBack(recs: seq<RunRecord>, encode: RunRecord -> Result<string>, decode: string -> Option<RunRecord>)
    requires LineCodec(encode, decode) && EncodeError(recs, encode).None?
    ensures Stored(Encoded(recs, encode), decode) == recs
    ensures WholeLines(Encoded(recs, encode))
    decreases |recs|
  {
    hide Trim, Split, DecodeLines;
    if |recs| == 0 {
      SplitNoSep("", '\n');
      DecodeBlank(decode);
    } else {
      var line := encode(recs[0]).value;
      var rest := Encoded(recs[1..], encode);
      EncodedReadsBack(recs[1..], encode, decode);
      SplitConcat(line, '\n', rest);
      assert Encoded(recs, encode) == line + ['\n'] + rest;
      SplitNoSep(line, '\n');
      DecodeOne(line, decode);
      DecodeLinesConcat([line], Split(rest, '\n'), decode);
      assert recs == [recs[0]] + recs[1..];
    }
  }

  /**
   * Appending a report and loading the file adds exactly the report's
   * records, one per model and in report order, after the records
   * already there.
   */
  lemma AppendThenLoad(content: string, report: Report, encode: RunRecord -> Result<string>, decode: string -> Option<RunRecord>)
    requires LineCodec(encode, decode) && EncodeError(Records(report), encode).None?
    requires WholeLines(content)
    ensures Stored(content + Encoded(Records(report), encode), decode) == Stored(content, decode) + Records(report)
    ensures |Stored(content + Encoded(Records(report), encode), decode)| == |Stored(content, decode)| + |report.models|
  {
    hide Trim, Split, DecodeLines, LineCodec, Encoded, Records;
    var added := Encoded(Records(report), encode);
    EncodedReadsBack(Records(report), encode, decode);
    if content == [] {
      assert content + added == added;
      SplitNoSep("", '\n');
      DecodeBlank(decode);
    } else {
      var front := content[..|content| - 1];
      assert content == front + ['\n'] + "";
      assert content + added == front + ['\n'] + added;
      SplitConcat(front, '\n', "");
      SplitConcat(front, '\n', added);
      SplitNoSep("", '\n');
      DecodeBlank(decode);
      DecodeLinesConcat(Split(front, '\n'), [""], decode);
      DecodeLinesConcat(Split(front, '\n'), Split(added, '\n'), decode);
    }
  }

  // ------------------------------------------------------- FilterHistory

  /** The tolerance FilterHistory allows between recall thresholds. */
  const Epsilon: real := 0.000000001

  function Abs(x: real): real {
    if x < 0.0 then -x else x
  }

  /** A record of the same dataset (after trimming and cleaning both paths) and threshold. */
  predicate SameRun(r: RunRecord, datasetPath: string, recallThreshold: real, clean: string -> string) {
    clean(Trim(r.datasetPath)) == clean(Trim(datasetPath)) && Abs(r.recallThreshold - recallThreshold) <= Epsilon
  }

  /** The records of one dataset and threshold, in their original order. */
  function Matching(records: seq<RunRecord>, datasetPath: string, recallThreshold: real, clean: string -> string): (out: seq<RunRecord>)
    ensures |out| <= |records|
    decreases |records|
  {
    if |records| == 0 then []
    else
      var prev := Matching(records[..|records| - 1], datasetPath, recallThreshold, clean);
      var r := records[|records| - 1];
      if SameRun(r, datasetPath, recallThreshold, clean) then prev + [r] else prev
  }

  /** FilterHistory: the records of one dataset and threshold. */
  method FilterHistory(records: seq<RunRecord>, datasetPath: string, recallThreshold: real, clean: string -> string)
    returns (out: seq<RunRecord>)
    ensures out == Matching(records, datasetPath, recallThreshold, clean)
  {
    if |records| == 0 {
      return [];
    }
    hide Matching, Trim;
    var target := clean(Trim(datasetPath));
    out := [];
    var i := 0;
    MatchingNext(records, 0, datasetPath, recallThreshold, clean);
    while i < |records|
      invariant 0 <= i <= |records|
      invariant out == Matching(records[..i], datasetPath, recallThreshold, clean)
    {
      MatchingNext(records, i, datasetPath, recallThreshold, clean);
      var r := records[i];
      if clean(Trim(r.datasetPath)) == target && Abs(r.recallThreshold - recallThreshold) <= Epsilon {
        out := out + [r];
      }
      i := i + 1;
    }
    assert records[..i] == records;
  }

  /** Filtering one more record of `records` keeps it exactly when it is of the same run. */
  lemma MatchingNext(records: seq<RunRecord>, i: int, datasetPath: string, recallThreshold: real, clean: string -> string)
    requires 0 <= i <= |records|
    ensures Matching(records[..0], datasetPath, recallThreshold, clean) == []
    ensures i < |records| && SameRun(records[i], datasetPath, recallThreshold, clean) ==>
      Matching(records[..i + 1], datasetPath, recallThreshold, clean)
      == Matching(records[..i], datasetPath, recallThreshold, clean) + [records[i]]
    ensures i < |records| && !SameRun(records[i], datasetPath, recallThreshold, clean) ==>
      Matching(records[..i + 1], datasetPath, recallThreshold, clean)
      == Matching(records[..i], datasetPath, recallThreshold, clean)
  {
    hide SameRun;
    if i < |records| {
      assert records[..i + 1][..i] == records[..i];
    }
  }

  /** Exactly the records of the requested dataset and threshold survive the filter. */
  lemma {:induction false} MatchingMembers(records: seq<RunRecord>, datasetPath: string, recallThreshold: real, clean: string -> string)
    ensures forall r :: r in Matching(records, datasetPath, recallThreshold, clean) <==>
      r in records && SameRun(r, datasetPath, recallThreshold, clean)
    decreases |records|
  {
    if |records| > 0 {
      var front := records[..|records| - 1];
      MatchingMembers(front, datasetPath, recallThreshold, clean);
      assert records == front + [records[|records| - 1]];
    }
  }

  /** Filtering splits over concatenation, so the filter keeps the original order. */
  lemma {:induction false} MatchingConcat(a: seq<RunRecord>, b: seq<RunRecord>, datasetPath: string, recallThreshold: real, clean: string -> string)
    ensures Matching(a + b, datasetPath, recallThreshold, clean)
      == Matching(a, datasetPath, recallThreshold, clean) + Matching(b, datasetPath, recallThreshold, clean)
    decreases |b|
  {
    hide SameRun;
    if |b| > 0 {
      var n := |b| - 1;
      assert (a + b)[..|a + b| - 1] == a + b[..n];
      assert (a + b)[|a + b| - 1] == b[n];
      MatchingConcat(a, b[..n], datasetPath, recallThreshold, clean);
    } else {
      assert a + b == a;
    }
  }

  /** Filtering twice for the same dataset and threshold changes nothing more. */
  lemma {:induction false} MatchingIdempotent(records: seq<RunRecord>, datasetPath: string, recallThreshold: real, clean: string -> string)
    ensures var once := Matching(records, datasetPath, recallThreshold, clean);
      Matching(once, datasetPath, recallThreshold, clean) == once
    decreases |records|
  {
    if |records| > 0 {
      var front := records[..|records| - 1];
      var r := records[|records| - 1];
      var once := Matching(front, datasetPath, recallThreshold, clean);
      MatchingIdempotent(front, datasetPath, recallThreshold, clean);
      if SameRun(r, datasetPath, recallThreshold, clean) {
        MatchingConcat(once, [r], datasetPath, recallThreshold, clean);
        assert [r][..0] == [];
      }
    }
  }

  // ---------------------------------------------------- BuildLeaderboard

  /** The records of one model, in history order. */
  function Of(records: seq<RunRecord>, id: string): (rs: seq<RunRecord>)
    ensures |rs| <= |records|
    ensures forall k :: 0 <= k < |rs| ==> rs[k].modelId == id
    decreases |records|
  {
    if |records| == 0 then []
    else
      var prev := Of(records[..|records| - 1], id);
      var r := records[|records| - 1];
      if r.modelId == id then prev + [r] else prev
  }

  function TotalRecall(rs: seq<RunRecord>): real
    decreases |rs|
  {
    if |rs| == 0 then 0.0 else TotalRecall(rs[..|rs| - 1]) + rs[|rs| - 1].averageRecall
  }

  function TotalCoverage(rs: seq<RunRecord>): real
    decreases |rs|
  {
    if |rs| == 0 then 0.0 else TotalCoverage(rs[..|rs| - 1]) + rs[|rs| - 1].averageCoverage
  }

  function TotalContradictions(rs: seq<RunRecord>): int
    decreases |rs|
  {
    if |rs| == 0 then 0 else TotalContradictions(rs[..|rs| - 1]) + rs[|rs| - 1].contradictions
  }

  function Passes(rs: seq<RunRecord>): (n: nat)
    ensures n <= |rs|
    decreases |rs|
  {
    if |rs| == 0 then 0 else Passes(rs[..|rs| - 1]) + (if rs[|rs| - 1].overallPass then 1 else 0)
  }

  /** The best recall, starting from 0 and replaced only by a strictly greater one. */
  function BestRecall(rs: seq<RunRecord>): real
    decreases |rs|
  {
    if |rs| == 0 then 0.0
    else
      var prev := BestRecall(rs[..|rs| - 1]);
      if rs[|rs| - 1].averageRecall > prev then rs[|rs| - 1].averageRecall else prev
  }

  /** The latest run time, starting from the zero time. */
  function LastSeen(rs: seq<RunRecord>): int
    decreases |rs|
  {
    if |rs| == 0 then 0
    else
      var prev := LastSeen(rs[..|rs| - 1]);
      if rs[|rs| - 1].generatedAt > prev then rs[|rs| - 1].generatedAt else prev
  }

  /** The running totals BuildLeaderboard keeps per model. */
  datatype Agg = Agg(runs: int, recall: real, bestRecall: real, coverage: real, contradictions: int, passes: int, lastSeen: int)

  /** The totals over the records of one model. */
  function AggOf(rs: seq<RunRecord>): Agg {
    Agg(|rs|, TotalRecall(rs), BestRecall(rs), TotalCoverage(rs), TotalContradictions(rs), Passes(rs), LastSeen(rs))
  }

  /** The row of one model: means over its runs, the best recall, the total contradictions and the latest run. */
  function Row(id: string, a: Agg): LeaderboardRow
    requires a.runs > 0
  {
    var runs := a.runs as real;
    LeaderboardRow(id, a.runs, a.recall / runs, a.bestRecall, a.coverage / runs, a.contradictions, a.passes as real / runs, a.lastSeen)
  }

  /** The models that occur in the history. */
  ghost function ModelIds(records: seq<RunRecord>): set<string> {
    set k | 0 <= k < |records| :: records[k].modelId
  }

  lemma {:induction false} OfNonEmpty(records: seq<RunRecord>, k: int)
    requires 0 <= k < |records|
    ensures |Of(records, records[k].modelId)| > 0
    decreases |records|
  {
    var n := |records| - 1;
    if k < n {
      assert records[..n][k] == records[k];
      OfNonEmpty(records[..n], k);
    }
  }

  /** The leaderboard row a model gets from the whole history. */
  function RowFor(records: seq<RunRecord>, id: string): LeaderboardRow
    requires |Of(records, id)| > 0
  {
    Row(id, AggOf(Of(records, id)))
  }

  /** Sort order: higher average recall first, then higher best recall, then more runs. */
  predicate RowBefore(a: LeaderboardRow, b: LeaderboardRow) {
    if a.averageRecall != b.averageRecall then a.averageRecall > b.averageRecall
    else if a.bestRecall != b.bestRecall then a.bestRecall > b.bestRecall
    else a.runs >= b.runs
  }

  lemma RowBeforeIsTotalPreorder()
    ensures TotalPreorder(RowBefore)
  {
  }

  /** What a leaderboard of `records` is: one row per model, each row computed from that model's records. */
  ghost predicate LeaderboardOf(rows: seq<LeaderboardRow>, records: seq<RunRecord>) {
    RowsFor(rows, records, ModelIds(records))
  }

  /** `rows` holds one row for each model of `ids`, computed from that model's records. */
  ghost predicate RowsFor(rows: seq<LeaderboardRow>, records: seq<RunRecord>, ids: set<string>) {
    && (forall k :: 0 <= k < |rows| ==>
          && rows[k].modelId in ids
          && |Of(records, rows[k].modelId)| > 0
          && rows[k] == RowFor(records, rows[k].modelId))
    && (forall id :: id in ids ==> exists k :: 0 <= k < |rows| && rows[k].modelId == id)
    && (forall i, j :: 0 <= i < j < |rows| ==> rows[i].modelId != rows[j].modelId)
  }

  lemma RowsForSnoc(rows: seq<LeaderboardRow>, records: seq<RunRecord>, ids: set<string>, row: LeaderboardRow)
    requires RowsFor(rows, records, ids) && row.modelId !in ids
    requires |Of(records, row.modelId)| > 0 && row == RowFor(records, row.modelId)
    ensures RowsFor(rows + [row], records, ids + {row.modelId})
  {
    hide Of, RowFor;
    var rs := rows + [row];
    assert forall k :: 0 <= k < |rows| ==> rs[k] == rows[k];
    assert rs[|rows|] == row;
    forall id | id in ids + {row.modelId}
      ensures exists k :: 0 <= k < |rs| && rs[k].modelId == id
    {
      if id in ids {
        var k :| 0 <= k < |rows| && rows[k].modelId == id;
        assert rs[k].modelId == id;
      }
    }
  }

  /** The totals after one more record of the model. */
  lemma AggStep(rs: seq<RunRecord>, r: RunRecord)
    ensures var a := AggOf(rs);
      AggOf(rs + [r]) == a.(
        runs := a.runs + 1,
        recall := a.recall + r.averageRecall,
        coverage := a.coverage + r.averageCoverage,
        contradictions := a.contradictions + r.contradictions,
        bestRecall := if r.averageRecall > a.bestRecall then r.averageRecall else a.bestRecall,
        passes := if r.overallPass then a.passes + 1 else a.passes,
        lastSeen := if r.generatedAt > a.lastSeen then r.generatedAt else a.lastSeen)
  {
    assert (rs + [r])[..|rs|] == rs;
  }

  /**
   * BuildLeaderboard: the totals per model, one row per model, sorted by
   * average recall, best recall and runs, all descending. Go's sort is not
   * stable, so rows that tie on all three keys may come in any order.
   */
  method BuildLeaderboard(records: seq<RunRecord>) returns (rows: seq<LeaderboardRow>)
    ensures LeaderboardOf(rows, records)
    ensures SortedBy(rows, RowBefore)
  {
    var byModel := Aggregate(records);
    var unsorted := RowsOf(records, byModel);
    var a := new LeaderboardRow[|unsorted|](i requires 0 <= i < |unsorted| => unsorted[i]);
    assert a[..] == unsorted;
    RowBeforeIsTotalPreorder();
    SortBy(a, RowBefore);
    rows := a[..];
    PermutedLeaderboard(unsorted, rows, records);
  }

  /** `byModel` holds the totals of exactly the models of `records`. */
  ghost predicate Aggregated(records: seq<RunRecord>, byModel: map<string, Agg>) {
    && byModel.Keys == ModelIds(records)
    && (forall id :: id in byModel ==> byModel[id] == AggOf(Of(records, id)))
    && (forall id :: id !in byModel ==> Of(records, id) == [])
  }

  const NoRuns := Agg(0, 0.0, 0.0, 0.0, 0, 0, 0)

  lemma OfSnoc(pre: seq<RunRecord>, r: RunRecord, id: string)
    ensures Of(pre + [r], id) == Of(pre, id) + (if r.modelId == id then [r] else [])
  {
    assert (pre + [r])[..|pre|] == pre;
  }

  lemma ModelIdsSnoc(pre: seq<RunRecord>, r: RunRecord)
    ensures ModelIds(pre + [r]) == ModelIds(pre) + {r.modelId}
  {
    var recs := pre + [r];
    assert forall k :: 0 <= k < |pre| ==> recs[k] == pre[k];
    assert recs[|pre|] == r;
  }

  /** One more record updates its model's totals and leaves every other model's. */
  lemma AggregatedStep(pre: seq<RunRecord>, r: RunRecord, byModel: map<string, Agg>)
    requires Aggregated(pre, byModel)
    ensures var a := if r.modelId in byModel then byModel[r.modelId] else NoRuns;
      AggOf(Of(pre + [r], r.modelId)) == a.(
        runs := a.runs + 1,
        recall := a.recall + r.averageRecall,
        coverage := a.coverage + r.averageCoverage,
        contradictions := a.contradictions + r.contradictions,
        bestRecall := if r.averageRecall > a.bestRecall then r.averageRecall else a.bestRecall,
        passes := if r.overallPass then a.passes + 1 else a.passes,
        lastSeen := if r.generatedAt > a.lastSeen then r.generatedAt else a.lastSeen)
    ensures Aggregated(pre + [r], byModel[r.modelId := AggOf(Of(pre + [r], r.modelId))])
  {
    hide Of, ModelIds;
    var id := r.modelId;
    OfSnoc(pre, r, id);
    AggStep(Of(pre, id), r);
    if id !in byModel {
      assert Of(pre, id) == [];
      assert AggOf([]) == NoRuns;
    }
    ModelIdsSnoc(pre, r);
    var m := byModel[id := AggOf(Of(pre + [r], id))];
    forall other | other != id
      ensures Of(pre + [r], other) == Of(pre, other)
    {
      OfSnoc(pre, r, other);
    }
    assert m.Keys == ModelIds(pre + [r]);
  }

  lemma AggregatedStart(records: seq<RunRecord>)
    ensures Aggregated(records[..0], map[])
  {
    assert records[..0] == [];
  }

  /** The first loop of BuildLeaderboard: the totals of every model in the history. */
  method Aggregate(records: seq<RunRecord>) returns (byModel: map<string, Agg>)
    ensures Aggregated(records, byModel)
  {
    hide Aggregated, AggOf, Of, ModelIds;
    byModel := map[];
    AggregatedStart(records);
    var i := 0;
    while i < |records|
      invariant 0 <= i <= |records|
      invariant Aggregated(records[..i], byModel)
    {
      var r := records[i];
      var pre := records[..i];
      assert records[..i + 1] == pre + [r];
      AggregatedStep(pre, r, byModel);
      var a := if r.modelId in byModel then byModel[r.modelId] else NoRuns;
      a := a.(runs := a.runs + 1);
      a := a.(recall := a.recall + r.averageRecall);
      a := a.(coverage := a.coverage + r.averageCoverage);
      a := a.(contradictions := a.contradictions + r.contradictions);
      if r.averageRecall > a.bestRecall {
        a := a.(bestRecall := r.averageRecall);
      }
      if r.overallPass {
        a := a.(passes := a.passes + 1);
      }
      if r.generatedAt > a.lastSeen {
        a := a.(lastSeen := r.generatedAt);
      }
      byModel := byModel[r.modelId := a];
      i := i + 1;
    }
    assert records[..i] == records;
  }

  /** The second loop of BuildLeaderboard: a row per model, in map order. */
  method RowsOf(records: seq<RunRecord>, byModel: map<string, Agg>) returns (rows: seq<LeaderboardRow>)
    requires Aggregated(records, byModel)
    ensures LeaderboardOf(rows, records)
    ensures NoDuplicates(rows)
  {
    hide RowsFor, Of, RowFor, AggOf, ModelIds;
    rows := [];
    var rest := byModel.Keys;
    RowsForEmpty(records, byModel.Keys - rest);
    while rest != {}
      invariant rest <= byModel.Keys
      invariant RowsFor(rows, records, byModel.Keys - rest)
      decreases |rest|
    {
      var id :| id in rest;
      ModelRow(records, byModel, id);
      var row := Row(id, byModel[id]);
      RowsForSnoc(rows, records, byModel.Keys - rest, row);
      assert byModel.Keys - (rest - {id}) == (byModel.Keys - rest) + {id};
      rows := rows + [row];
      rest := rest - {id};
    }
    assert byModel.Keys - rest == byModel.Keys;
    RowsForNoDuplicates(rows, records, byModel.Keys);
  }

  lemma RowsForEmpty(records: seq<RunRecord>, ids: set<string>)
    requires ids == {}
    ensures RowsFor([], records, ids)
  {
  }

  /** A model of the history has at least one run, and its totals give its row. */
  lemma ModelRow(records: seq<RunRecord>, byModel: map<string, Agg>, id: string)
    requires Aggregated(records, byModel) && id in byModel
    ensures |Of(records, id)| > 0 && byModel[id].runs > 0
    ensures Row(id, byModel[id]) == RowFor(records, id)
  {
    var k :| 0 <= k < |records| && records[k].modelId == id;
    OfNonEmpty(records, k);
  }

  lemma RowsForNoDuplicates(rows: seq<LeaderboardRow>, records: seq<RunRecord>, ids: set<string>)
    requires RowsFor(rows, records, ids)
    ensures NoDuplicates(rows)
  {
    DistinctIdsNoDuplicates(rows);
  }

  lemma DistinctIdsNoDuplicates(rows: seq<LeaderboardRow>)
    requires forall i, j :: 0 <= i < j < |rows| ==> rows[i].modelId != rows[j].modelId
    ensures NoDuplicates(rows)
    decreases |rows|
  {
    if |rows| > 0 {
      var n := |rows| - 1;
      var front := rows[..n];
      DistinctIdsNoDuplicates(front);
      assert rows == front + [rows[n]];
      assert forall j :: 0 <= j < n ==> front[j] != rows[n];
      assert rows[n] !in front;
    }
  }

  /** Sorting a leaderboard keeps it a leaderboard. */
  lemma PermutedLeaderboard(before: seq<LeaderboardRow>, after: seq<LeaderboardRow>, records: seq<RunRecord>)
    requires LeaderboardOf(before, records) && NoDuplicates(before)
    requires multiset(after) == multiset(before)
    ensures LeaderboardOf(after, records)
  {
    forall k | 0 <= k < |after|
      ensures after[k] in before
    {
      assert after[k] in multiset(after);
    }
    forall id | id in ModelIds(records)
      ensures exists k :: 0 <= k < |after| && after[k].modelId == id
    {
      var j :| 0 <= j < |before| && before[j].modelId == id;
      assert before[j] in multiset(after);
      var k :| 0 <= k < |after| && after[k] == before[j];
    }
    forall i, j | 0 <= i < j < |after|
      ensures after[i].modelId != after[j].modelId
    {
      assert after[i] in before && after[j] in before;
      if after[i].modelId == after[j].modelId {
        assert after[i] == after[j];
        NoDuplicatesDistinct(after, i, j);
      }
    }
  }

  // ------------------------------------------------ leaderboard properties

  /** The records of a model are exactly the history's records with that model ID. */
  lemma {:induction false} OfMembers(records: seq<RunRecord>, id: string)
    ensures forall r :: r in Of(records, id) <==> r in records && r.modelId == id
    decreases |records|
  {
    if |records| > 0 {
      var n := |records| - 1;
      OfMembers(records[..n], id);
      assert records == records[..n] + [records[n]];
    }
  }

  /** The best recall is at least 0 and every recall, and is 0 or one of them. */
  lemma {:induction false} BestRecallIsMax(rs: seq<RunRecord>)
    ensures BestRecall(rs) >= 0.0
    ensures forall k :: 0 <= k < |rs| ==> rs[k].averageRecall <= BestRecall(rs)
    ensures BestRecall(rs) == 0.0 || exists k :: 0 <= k < |rs| && rs[k].averageRecall == BestRecall(rs)
    decreases |rs|
  {
    if |rs| > 0 {
      var n := |rs| - 1;
      BestRecallIsMax(rs[..n]);
      assert forall k :: 0 <= k < n ==> rs[..n][k] == rs[k];
    }
  }

  /** The last-seen time is at least every run time, and is the zero time or one of them. */
  lemma {:induction false} LastSeenIsLatest(rs: seq<RunRecord>)
    ensures forall k :: 0 <= k < |rs| ==> rs[k].generatedAt <= LastSeen(rs)
    ensures LastSeen(rs) == 0 || exists k :: 0 <= k < |rs| && rs[k].generatedAt == LastSeen(rs)
    decreases |rs|
  {
    if |rs| > 0 {
      var n := |rs| - 1;
      LastSeenIsLatest(rs[..n]);
      assert forall k :: 0 <= k < n ==> rs[..n][k] == rs[k];
    }
  }

  /** Recalls in [0, 1] add up to at most one per run. */
  lemma {:induction false} TotalRecallBounds(rs: seq<RunRecord>)
    requires forall k :: 0 <= k < |rs| ==> 0.0 <= rs[k].averageRecall <= 1.0
    ensures 0.0 <= TotalRecall(rs) <= |rs| as real
    decreases |rs|
  {
    if |rs| > 0 {
      var n := |rs| - 1;
      assert forall k :: 0 <= k < n ==> rs[..n][k] == rs[k];
      TotalRecallBounds(rs[..n]);
    }
  }

  /**
   * A model's row: its runs are its record count, its pass rate lies in
   * [0, 1], its best recall is max(0, its recalls), and its last-seen
   * time is the latest of its run times (or the zero time).
   */
  lemma RowForFacts(records: seq<RunRecord>, id: string)
    requires |Of(records, id)| > 0
    ensures var row := RowFor(records, id);
      && row.modelId == id
      && row.runs == |Of(records, id)|
      && 0.0 <= row.overallPassRate <= 1.0
      && row.bestRecall >= 0.0
      && (forall r :: r in records && r.modelId == id ==> r.averageRecall <= row.bestRecall && r.generatedAt <= row.lastSeen)
      && (row.bestRecall == 0.0 || exists r :: r in records && r.modelId == id && r.averageRecall == row.bestRecall)
      && (row.lastSeen == 0 || exists r :: r in records && r.modelId == id && r.generatedAt == row.lastSeen)
  {
    var rs := Of(records, id);
    OfMembers(records, id);
    BestRecallIsMax(rs);
    LastSeenIsLatest(rs);
    FractionBounds(Passes(rs) as real, |rs| as real);
    forall r | r in records && r.modelId == id
      ensures r.averageRecall <= BestRecall(rs) && r.generatedAt <= LastSeen(rs)
    {
      var k :| 0 <= k < |rs| && rs[k] == r;
    }
  }

  /** When every run's recall lies in [0, 1], so does the model's average recall. */
  lemma AverageRecallBounded(records: seq<RunRecord>, id: string)
    requires |Of(records, id)| > 0
    requires forall r :: r in records ==> 0.0 <= r.averageRecall <= 1.0
    ensures 0.0 <= RowFor(records, id).averageRecall <= 1.0
  {
    hide Of, TotalRecall, BestRecall, LastSeen, Passes, TotalCoverage, TotalContradictions;
    var rs := Of(records, id);
    OfMembers(records, id);
    TotalRecallBounds(rs);
    FractionBounds(TotalRecall(rs), |rs| as real);
  }

  /** The total of the rows' run counts. */
  function RunsTotal(rows: seq<LeaderboardRow>): int
    decreases |rows|
  {
    if |rows| == 0 then 0 else rows[0].runs + RunsTotal(rows[1..])
  }

  /** The number of `records` of the models the rows name. */
  ghost function CountOf(records: seq<RunRecord>, rows: seq<LeaderboardRow>): int
    decreases |rows|
  {
    if |rows| == 0 then 0 else |Of(records, rows[0].modelId)| + CountOf(records, rows[1..])
  }

  /** How many rows name model `id`. */
  function Hits(rows: seq<LeaderboardRow>, id: string): nat
    decreases |rows|
  {
    if |rows| == 0 then 0 else (if rows[0].modelId == id then 1 else 0) + Hits(rows[1..], id)
  }

  lemma {:induction false} CountSnoc(pre: seq<RunRecord>, r: RunRecord, rows: seq<LeaderboardRow>)
    ensures CountOf(pre + [r], rows) == CountOf(pre, rows) + Hits(rows, r.modelId)
    decreases |rows|
  {
    if |rows| > 0 {
      OfSnoc(pre, r, rows[0].modelId);
      CountSnoc(pre, r, rows[1..]);
    }
  }

  lemma {:induction false} HitsNone(rows: seq<LeaderboardRow>, id: string)
    requires forall k :: 0 <= k < |rows| ==> rows[k].modelId != id
    ensures Hits(rows, id) == 0
    decreases |rows|
  {
    if |rows| > 0 {
      HitsNone(rows[1..], id);
    }
  }

  lemma {:induction false} HitsOne(rows: seq<LeaderboardRow>, id: string)
    requires forall i, j :: 0 <= i < j < |rows| ==> rows[i].modelId != rows[j].modelId
    requires exists k :: 0 <= k < |rows| && rows[k].modelId == id
    ensures Hits(rows, id) == 1
    decreases |rows|
  {
    var tail := rows[1..];
    if rows[0].modelId == id {
      assert forall k :: 0 <= k < |tail| ==> tail[k] == rows[k + 1];
      HitsNone(tail, id);
    } else {
      var k :| 0 <= k < |rows| && rows[k].modelId == id;
      assert tail[k - 1].modelId == id;
      assert forall i, j :: 0 <= i < j < |tail| ==> tail[i] == rows[i + 1] && tail[j] == rows[j + 1];
      HitsOne(tail, id);
    }
  }

  /** Rows with distinct model IDs covering every model of `recs` count each record once. */
  lemma {:induction false} CountCoversAll(recs: seq<RunRecord>, rows: seq<LeaderboardRow>)
    requires forall i, j :: 0 <= i < j < |rows| ==> rows[i].modelId != rows[j].modelId
    requires forall id :: id in ModelIds(recs) ==> exists k :: 0 <= k < |rows| && rows[k].modelId == id
    ensures CountOf(recs, rows) == |recs|
    decreases |recs|
  {
    if |recs| == 0 {
      CountNone(recs, rows);
    } else {
      var n := |recs| - 1;
      var pre := recs[..n];
      var r := recs[n];
      assert recs == pre + [r];
      ModelIdsSnoc(pre, r);
      CountCoversAll(pre, rows);
      CountSnoc(pre, r, rows);
      HitsOne(rows, r.modelId);
    }
  }

  lemma {:induction false} CountNone(recs: seq<RunRecord>, rows: seq<LeaderboardRow>)
    requires recs == []
    ensures CountOf(recs, rows) == 0
    decreases |rows|
  {
    if |rows| > 0 {
      CountNone(recs, rows[1..]);
    }
  }

  lemma {:induction false} RunsAreCounts(rows: seq<LeaderboardRow>, records: seq<RunRecord>)
    requires forall k :: 0 <= k < |rows| ==> rows[k].runs == |Of(records, rows[k].modelId)|
    ensures RunsTotal(rows) == CountOf(records, rows)
    decreases |rows|
  {
    if |rows| > 0 {
      assert forall k :: 0 <= k < |rows| - 1 ==> rows[1..][k] == rows[k + 1];
      RunsAreCounts(rows[1..], records);
    }
  }

  /** Every record of the history is counted in exactly one row: the runs add up to the number of records. */
  lemma LeaderboardCountsEveryRun(rows: seq<LeaderboardRow>, records: seq<RunRecord>)
    requires LeaderboardOf(rows, records)
    ensures RunsTotal(rows) == |records|
  {
    forall k | 0 <= k < |rows|
      ensures rows[k].runs == |Of(records, rows[k].modelId)|
    {
      RowForFacts(records, rows[k].modelId);
    }
    RunsAreCounts(rows, records);
    CountCoversAll(records, rows);
  }

  // ------------------------------------------- RenderLeaderboardMarkdown

  const LeaderboardTitle: string := "# syn eval leaderboard\n\n"

  const LeaderboardLegend: string :=
    "fields: rank, model, runs, average_recall, best_recall, average_coverage, total_contradictions, pass_rate, last_seen\n\n"

  /** The block of one row, ranked `rank`; `%.2f` and RFC 3339 formatting are parameters. */
  function RowBlock(rank: int, r: LeaderboardRow, fixed2: real -> string, rfc3339: int -> string): string {
    Itoa(rank) + ") `" + r.modelId + "`\n"
    + ("- runs: " + Itoa(r.runs) + "\n"
       + "- average_recall: " + fixed2(r.averageRecall) + "\n"
       + "- best_recall: " + fixed2(r.bestRecall) + "\n"
       + "- average_coverage: " + fixed2(r.averageCoverage) + "\n"
       + "- total_contradictions: " + Itoa(r.totalContradictions) + "\n"
       + "- pass_rate: " + fixed2(r.overallPassRate) + "\n"
       + "- last_seen: " + rfc3339(r.lastSeen) + "\n\n")
  }

  /** The blocks of `rows`, ranked from `first` on, in row order. */
  function Blocks(rows: seq<LeaderboardRow>, first: int, fixed2: real -> string, rfc3339: int -> string): string
    decreases |rows|
  {
    if |rows| == 0 then "" else RowBlock(first, rows[0], fixed2, rfc3339) + Blocks(rows[1..], first + 1, fixed2, rfc3339)
  }

  lemma {:induction false} BlocksSnoc(rows: seq<LeaderboardRow>, r: LeaderboardRow, first: int, fixed2: real -> string, rfc3339: int -> string)
    ensures Blocks(rows + [r], first, fixed2, rfc3339) == Blocks(rows, first, fixed2, rfc3339) + RowBlock(first + |rows|, r, fixed2, rfc3339)
    decreases |rows|
  {
    hide RowBlock;
    if |rows| > 0 {
      assert (rows + [r])[1..] == rows[1..] + [r];
      BlocksSnoc(rows[1..], r, first + 1, fixed2, rfc3339);
    } else {
      assert [r][1..] == [];
    }
  }

  /** RenderLeaderboardMarkdown: the title, the legend, then one block per row ranked 1, 2, … in row order. */
  method RenderLeaderboardMarkdown(rows: seq<LeaderboardRow>, fixed2: real -> string, rfc3339: int -> string)
    returns (out: string)
    ensures out == LeaderboardTitle + LeaderboardLegend + Blocks(rows, 1, fixed2, rfc3339)
  {
    hide RowBlock, LeaderboardTitle, LeaderboardLegend;
    out := LeaderboardTitle + LeaderboardLegend;
    var i := 0;
    while i < |rows|
      invariant 0 <= i <= |rows|
      invariant out == LeaderboardTitle + LeaderboardLegend + Blocks(rows[..i], 1, fixed2, rfc3339)
    {
      BlocksSnoc(rows[..i], rows[i], 1, fixed2, rfc3339);
      assert rows[..i] + [rows[i]] == rows[..i + 1];
      out := out + RowBlock(i + 1, rows[i], fixed2, rfc3339);
      i := i + 1;
    }
    assert rows[..i] == rows;
  }

  /**
   * The rendered leaderboard holds the block of row `k`, ranked k + 1,
   * after the blocks of the rows before it and before those after it.
   */
  lemma {:induction false} BlocksInRowOrder(rows: seq<LeaderboardRow>, k: int, first: int, fixed2: real -> string, rfc3339: int -> string)
    requires 0 <= k < |rows|
    ensures Blocks(rows, first, fixed2, rfc3339)
      == Blocks(rows[..k], first, fixed2, rfc3339) + RowBlock(first + k, rows[k], fixed2, rfc3339)
         + Blocks(rows[k + 1..], first + k + 1, fixed2, rfc3339)
    decreases k
  {
    hide RowBlock;
    if k > 0 {
      BlocksInRowOrder(rows[1..], k - 1, first + 1, fixed2, rfc3339);
      assert rows[1..][..k - 1] == rows[1..k];
      assert rows[1..][k - 1] == rows[k];
      assert rows[1..][k..] == rows[k + 1..];
      assert rows[..k][1..] == rows[1..k];
      assert rows[..k][0] == rows[0];
    } else {
      assert rows[..0] == [];
    }
  }

  /** A row's block opens with its rank and its model ID in backquotes. */
  lemma RowBlockHeading(rank: int, r: LeaderboardRow, fixed2: real -> string, rfc3339: int -> string)
    ensures HasPrefix(RowBlock(rank, r, fixed2, rfc3339), Itoa(rank) + ") `" + r.modelId + "`\n")
  {
    hide Itoa;
    var head := Itoa(rank) + ") `" + r.modelId + "`\n";
    var block := RowBlock(rank, r, fixed2, rfc3339);
    assert block[..|head|] == head;
  }
}
