/**
 * Scoring of one parsed model output against a case (internal/eval/score.go):
 * text normalisation, token sets and their overlap, insight matching,
 * the contradiction heuristic, per-case scores and the per-model summary.
 * Go's float64 ratios are exact reals here.
 */
module Scoring {
  import opened Text
  import opened EvalTypes
  import opened Parsing
  import opened Fractions

  // ------------------------------------------------------ normalizeText

  predicate IsAlnum(c: char) {
    ('a' <= c <= 'z') || ('0' <= c <= '9')
  }

  /** RE2's `\s`: tab, newline, form feed, carriage return and space (not '\v'). */
  predicate IsReSpace(c: char) {
    c == '\t' || c == '\n' || c == '\U{C}' || c == '\r' || c == ' '
  }

  /** The characters `[^a-z0-9\s]` does not match. */
  predicate Kept(c: char) {
    IsAlnum(c) || IsReSpace(c)
  }

  /** Length of the leading run of characters the pattern `[^a-z0-9\s]+` matches. */
  function NonWordRun(s: string): (n: nat)
    ensures n <= |s|
    ensures forall i :: 0 <= i < n ==> !Kept(s[i])
    ensures n < |s| ==> Kept(s[n])
  {
    if s == [] || Kept(s[0]) then 0 else 1 + NonWordRun(s[1..])
  }

  /** `nonWordRe.ReplaceAllString(s, " ")`: every maximal run of other characters becomes one space. */
  function ReplaceNonWord(s: string): (r: string)
    ensures forall i :: 0 <= i < |r| ==> Kept(r[i])
    decreases |s|
  {
    if s == [] then []
    else if Kept(s[0]) then [s[0]] + ReplaceNonWord(s[1..])
    else [' '] + ReplaceNonWord(s[NonWordRun(s)..])
  }

  /** The words normalizeText keeps: the fields of the lower-cased, blanked-out text. */
  function NormalWords(s: string): seq<string> {
    Fields(ReplaceNonWord(Lower(Trim(s))))
  }

  /** normalizeText: trim, lower-case, blank out punctuation, collapse spaces. */
  function NormalizeText(s: string): string {
    Join(NormalWords(s), " ")
  }

  /** The kept words are non-empty runs of lower-case letters and digits. */
  lemma NormalWordsAlnum(s: string)
    ensures forall k :: 0 <= k < |NormalWords(s)| ==> AlnumWord(NormalWords(s)[k])
  {
    FieldsAreAlnum(ReplaceNonWord(Lower(Trim(s))));
  }

  /** A normalised text holds only lower-case letters, digits and inner spaces. */
  lemma NormalizeTextShape(s: string)
    ensures var r := NormalizeText(s);
      && (forall i :: 0 <= i < |r| ==> IsAlnum(r[i]) || r[i] == ' ')
      && (r != [] ==> IsAlnum(r[0]) && IsAlnum(r[|r| - 1]))
  {
    NormalWordsAlnum(s);
    JoinOfAlnumWords(NormalWords(s));
  }

  /** A non-empty run of lower-case letters and digits. */
  predicate AlnumWord(w: string) {
    w != [] && forall i :: 0 <= i < |w| ==> IsAlnum(w[i])
  }

  lemma FieldsAreAlnum(s: string)
    requires forall i :: 0 <= i < |s| ==> Kept(s[i])
    ensures forall k :: 0 <= k < |Fields(s)| ==> AlnumWord(Fields(s)[k])
    decreases |s|
  {
    if s != [] {
      if IsSpace(s[0]) {
        FieldsAreAlnum(s[1..]);
      } else {
        var n := WordLen(s);
        FieldsAreAlnum(s[n..]);
        assert Fields(s) == [s[..n]] + Fields(s[n..]);
      }
    }
  }

  lemma {:induction false} JoinOfAlnumWords(ws: seq<string>)
    requires forall k :: 0 <= k < |ws| ==> AlnumWord(ws[k])
    ensures var r := Join(ws, " ");
      && (forall i :: 0 <= i < |r| ==> IsAlnum(r[i]) || r[i] == ' ')
      && (r != [] ==> IsAlnum(r[0]) && IsAlnum(r[|r| - 1]))
    decreases |ws|
  {
    if |ws| > 1 {
      JoinOfAlnumWords(ws[1..]);
      var r := Join(ws, " ");
      assert r == ws[0] + (" " + Join(ws[1..], " "));
    }
  }

  lemma ReplaceNonWordOfKept(s: string)
    requires forall i :: 0 <= i < |s| ==> Kept(s[i])
    ensures ReplaceNonWord(s) == s
  {
  }

  lemma LowerOfAlnum(r: string)
    requires forall i :: 0 <= i < |r| ==> IsAlnum(r[i]) || r[i] == ' '
    ensures Lower(r) == r
  {
    assert forall i :: 0 <= i < |r| ==> Lower(r)[i] == r[i];
  }

  lemma AlnumWordsHaveNoSpace(ws: seq<string>)
    requires forall k :: 0 <= k < |ws| ==> AlnumWord(ws[k])
    ensures forall k :: 0 <= k < |ws| ==> ws[k] != [] && NoSpace(ws[k])
  {
  }

  /** Trimming, lower-casing and blanking out leave a normal text unchanged. */
  lemma PreparationFixed(r: string)
    requires forall i :: 0 <= i < |r| ==> IsAlnum(r[i]) || r[i] == ' '
    requires r != [] ==> IsAlnum(r[0]) && IsAlnum(r[|r| - 1])
    ensures ReplaceNonWord(Lower(Trim(r))) == r
  {
    TrimOfTrimmed(r);
    LowerOfAlnum(r);
    ReplaceNonWordOfKept(r);
  }

  /** A space-joined list of lower-case alphanumeric words is its own normal form. */
  lemma NormalFormFixed(ws: seq<string>)
    requires forall k :: 0 <= k < |ws| ==> AlnumWord(ws[k])
    ensures NormalizeText(Join(ws, " ")) == Join(ws, " ")
  {
    var r := Join(ws, " ");
    JoinOfAlnumWords(ws);
    PreparationFixed(r);
    AlnumWordsHaveNoSpace(ws);
    FieldsOfJoin(ws);
    assert NormalWords(r) == ws;
  }

  /** normalizeText is idempotent: its output is already in normal form. */
  lemma NormalizeTextIdempotent(s: string)
    ensures NormalizeText(NormalizeText(s)) == NormalizeText(s)
  {
    NormalWordsAlnum(s);
    NormalFormFixed(NormalWords(s));
  }

  /** The words of a normalised text are the words normalizeText kept. */
  lemma NormalizedWords(s: string)
    ensures Fields(NormalizeText(s)) == NormalWords(s)
  {
    NormalWordsAlnum(s);
    AlnumWordsHaveNoSpace(NormalWords(s));
    FieldsOfJoin(NormalWords(s));
  }

  // ----------------------------------------------------- tokens, overlap

  /** tokenSet: the distinct normalised words of at least three characters. */
  ghost function Tokens(s: string): set<string> {
    set w | w in Fields(NormalizeText(s)) && |w| >= 3
  }

  method TokenSet(s: string) returns (out: set<string>)
    ensures out == Tokens(s)
    ensures forall t :: t in out ==> |t| >= 3 && AlnumWord(t)
  {
    hide NormalizeText, Fields, NormalWords;
    var ws := Fields(NormalizeText(s));
    NormalizedWords(s);
    NormalWordsAlnum(s);
    out := {};
    var i := 0;
    while i < |ws|
      invariant 0 <= i <= |ws|
      invariant out == set w | w in ws[..i] && |w| >= 3
    {
      if |ws[i]| >= 3 {
        out := out + {ws[i]};
      }
      assert ws[..i + 1] == ws[..i] + [ws[i]];
      i := i + 1;
    }
    assert ws[..i] == ws;
  }

  /** Shared over the larger of the two counts, 0 when either count is 0. */
  function OverlapRatio(shared: nat, na: nat, nb: nat): real {
    if na == 0 || nb == 0 then 0.0
    else shared as real / (if nb > na then nb else na) as real
  }

  /** Token overlap: shared tokens over the larger token count, 0 when either side has none. */
  ghost function Overlap(a: string, b: string): real {
    OverlapRatio(|Tokens(a) * Tokens(b)|, |Tokens(a)|, |Tokens(b)|)
  }

  /** tokenOverlap: counts the tokens of `a` found in `b`. */
  method TokenOverlap(a: string, b: string) returns (r: real)
    ensures r == Overlap(a, b)
  {
    hide NormalizeText, Fields, Tokens;
    var sa := TokenSet(a);
    var sb := TokenSet(b);
    if |sa| == 0 || |sb| == 0 {
      return 0.0;
    }
    var inter := 0;
    var rest := sa;
    while rest != {}
      invariant rest <= sa
      invariant inter == |(sa - rest) * sb|
      decreases |rest|
    {
      var t :| t in rest;
      CountStep(sa, rest, sb, t);
      if t in sb {
        inter := inter + 1;
      }
      rest := rest - {t};
    }
    assert sa - rest == sa;
    var den := |sa|;
    if |sb| > den {
      den := |sb|;
    }
    r := inter as real / den as real;
    assert r == OverlapRatio(inter, |sa|, |sb|);
  }

  /** Moving one token from the unvisited to the visited side of the loop in TokenOverlap. */
  lemma CountStep(sa: set<string>, rest: set<string>, sb: set<string>, t: string)
    requires t in rest && rest <= sa
    ensures |(sa - (rest - {t})) * sb| == |(sa - rest) * sb| + (if t in sb then 1 else 0)
  {
    var seen := sa - rest;
    assert sa - (rest - {t}) == seen + {t};
    if t in sb {
      assert (seen + {t}) * sb == seen * sb + {t};
    } else {
      assert (seen + {t}) * sb == seen * sb;
    }
  }

  lemma {:induction false} SubsetCard(x: set<string>, y: set<string>)
    requires x <= y
    ensures |x| <= |y|
    decreases |x|
  {
    if x != {} {
      var t :| t in x;
      SubsetCard(x - {t}, y - {t});
    }
  }

  lemma RatioAtMostOne(shared: nat, na: nat, nb: nat)
    requires shared <= na && shared <= nb
    ensures 0.0 <= OverlapRatio(shared, na, nb) <= 1.0
  {
  }

  /** The overlap is a ratio between 0 and 1. */
  lemma OverlapBounds(a: string, b: string)
    ensures 0.0 <= Overlap(a, b) <= 1.0
  {
    SubsetCard(Tokens(a) * Tokens(b), Tokens(a));
    SubsetCard(Tokens(a) * Tokens(b), Tokens(b));
    RatioAtMostOne(|Tokens(a) * Tokens(b)|, |Tokens(a)|, |Tokens(b)|);
  }

  lemma OverlapSymmetric(a: string, b: string)
    ensures Overlap(a, b) == Overlap(b, a)
  {
    assert Tokens(a) * Tokens(b) == Tokens(b) * Tokens(a);
  }

  /** A text with at least one token overlaps itself completely. */
  lemma OverlapSelf(a: string)
    requires Tokens(a) != {}
    ensures Overlap(a, a) == 1.0
  {
    hide Tokens;
    assert Tokens(a) * Tokens(a) == Tokens(a);
  }

  /** Normalising either argument first does not change the overlap. */
  lemma OverlapOfNormalized(a: string, b: string)
    ensures Overlap(NormalizeText(a), b) == Overlap(a, b)
  {
    NormalizeTextIdempotent(a);
  }

  // --------------------------------------------------------- negations

  const NegationMarkers: seq<string> := [" not ", " no ", " never ", " cannot ", " can't ", " without "]

  /** containsNegation: one of the markers occurs in the space-padded text. */
  predicate ContainsNegation(s: string) {
    exists k | 0 <= k < |NegationMarkers| :: Contains(" " + s + " ", NegationMarkers[k])
  }

  /**
   * The " can't " marker is dead on normalised text: normalisation blanks out
   * the apostrophe, so only the other markers can ever fire in the scorer.
   */
  lemma CantMarkerNeverMatches(s: string)
    ensures !Contains(" " + NormalizeText(s) + " ", " can't ")
  {
    NormalizeTextShape(s);
    var r := NormalizeText(s);
    hide NormalizeText;
    var p := " " + r + " ";
    forall j | 0 <= j < |p| ensures IsAlnum(p[j]) || p[j] == ' ' {
      if 0 < j < |p| - 1 {
        assert p[j] == r[j - 1];
      }
    }
    NoApostrophe(p);
  }

  /** Text of letters, digits and spaces never holds the quote of " can't ". */
  lemma NoApostrophe(p: string)
    requires forall j :: 0 <= j < |p| ==> IsAlnum(p[j]) || p[j] == ' '
    ensures !Contains(p, " can't ")
  {
    var w := " can't ";
    forall i | 0 <= i <= |p| - |w| ensures !IsAt(p, w, i) {
      assert w[4] == '\'' && p[i + 4] != '\'';
      assert p[i..i + |w|][4] != w[4];
    }
  }

  // ------------------------------------------------------ insight match

  /** The match test of one normalised gold insight against one normalised prediction. */
  ghost predicate Matches(ng: string, np: string) {
    np != "" && (Contains(np, ng) || Contains(ng, np) || Overlap(ng, np) >= 11.0 / 20.0)
  }

  /** hasInsightMatch's meaning: some prediction matches the gold insight. */
  ghost predicate InsightMatched(g: string, predicted: seq<string>) {
    exists k :: 0 <= k < |predicted| && Matches(NormalizeText(g), NormalizeText(predicted[k]))
  }

  /** The test hasInsightMatch applies to one prediction. */
  method MatchesPrediction(ng: string, p: string) returns (m: bool)
    ensures m <==> Matches(ng, NormalizeText(p))
  {
    var np := NormalizeText(p);
    if np == "" {
      return false;
    }
    if Contains(np, ng) || Contains(ng, np) {
      return true;
    }
    var o := TokenOverlap(ng, np);
    m := o >= 11.0 / 20.0;
  }

  method HasInsightMatch(g: string, predicted: seq<string>) returns (b: bool)
    ensures b <==> InsightMatched(g, predicted)
  {
    hide NormalizeText, Overlap, Contains;
    var ng := NormalizeText(g);
    var i := 0;
    while i < |predicted|
      invariant 0 <= i <= |predicted|
      invariant forall k :: 0 <= k < i ==> !Matches(ng, NormalizeText(predicted[k]))
    {
      var m := MatchesPrediction(ng, predicted[i]);
      if m {
        return true;
      }
      i := i + 1;
    }
    return false;
  }

  /** A gold insight with no letter or digit normalises to "" and so matches any prediction that has one. */
  lemma EmptyGoldMatchesEverything(g: string, predicted: seq<string>, k: int)
    requires NormalizeText(g) == ""
    requires 0 <= k < |predicted| && NormalizeText(predicted[k]) != ""
    ensures InsightMatched(g, predicted)
  {
    ContainsEmpty(NormalizeText(predicted[k]));
    assert Matches(NormalizeText(g), NormalizeText(predicted[k]));
  }

  /** A prediction identical to the gold insight up to case and punctuation always matches it. */
  lemma SameWordsMatch(g: string, predicted: seq<string>, k: int)
    requires 0 <= k < |predicted| && NormalizeText(predicted[k]) == NormalizeText(g) != ""
    ensures InsightMatched(g, predicted)
  {
    ContainsSelf(NormalizeText(g));
    assert Matches(NormalizeText(g), NormalizeText(predicted[k]));
  }

  // ----------------------------------------------- contradiction estimate

  /**
   * The scan for the closest insight over (overlap, negated) pairs: the
   * best overlap seen so far and the negation flag of the pair that set it;
   * a pair replaces the current best only when its overlap is strictly larger.
   */
  function Best(xs: seq<(real, bool)>): (r: (real, bool))
    decreases |xs|
  {
    if |xs| == 0 then (0.0, false)
    else
      var prev := Best(xs[..|xs| - 1]);
      var x := xs[|xs| - 1];
      if x.0 > prev.0 then x else prev
  }

  /** The best overlap is the maximum of 0 and every overlap. */
  lemma {:induction false} BestIsMax(xs: seq<(real, bool)>)
    ensures Best(xs).0 >= 0.0
    ensures forall k :: 0 <= k < |xs| ==> xs[k].0 <= Best(xs).0
    decreases |xs|
  {
    if |xs| > 0 {
      var pre := xs[..|xs| - 1];
      BestIsMax(pre);
      assert forall k :: 0 <= k < |pre| ==> pre[k] == xs[k];
    }
  }

  /**
   * Which pair decides: unless nothing beats 0, it is the first pair that
   * reaches the best overlap.
   */
  lemma {:induction false} BestIsFirstMax(xs: seq<(real, bool)>)
    ensures Best(xs) == (0.0, false)
      || exists i :: 0 <= i < |xs| && Best(xs) == xs[i] && forall j :: 0 <= j < i ==> xs[j].0 < xs[i].0
    decreases |xs|
  {
    if |xs| > 0 {
      var pre := xs[..|xs| - 1];
      BestIsFirstMax(pre);
      BestIsMax(pre);
      var prev := Best(pre);
      var x := xs[|xs| - 1];
      assert forall k :: 0 <= k < |pre| ==> pre[k] == xs[k];
      if x.0 > prev.0 {
        assert Best(xs) == xs[|xs| - 1];
      } else if prev != (0.0, false) {
        var i :| 0 <= i < |pre| && prev == pre[i] && forall j :: 0 <= j < i ==> pre[j].0 < pre[i].0;
        assert Best(xs) == xs[i];
      }
    }
  }

  /** The (overlap, negated) pair of the normalised prediction `np` with each gold insight. */
  ghost function GoldScores(np: string, gold: seq<string>): (r: seq<(real, bool)>)
    ensures |r| == |gold|
  {
    seq(|gold|, k requires 0 <= k < |gold| =>
      (Overlap(np, NormalizeText(gold[k])), ContainsNegation(NormalizeText(gold[k]))))
  }

  /** The inner loop of estimateContradictions: the closest gold insight to `np`. */
  method ClosestGold(np: string, gold: seq<string>) returns (best: real, closestHasNegation: bool)
    ensures (best, closestHasNegation) == Best(GoldScores(np, gold))
  {
    hide NormalizeText, Overlap, ContainsNegation;
    ghost var scores := GoldScores(np, gold);
    best := 0.0;
    closestHasNegation := false;
    var j := 0;
    while j < |gold|
      invariant 0 <= j <= |gold|
      invariant (best, closestHasNegation) == Best(scores[..j])
    {
      assert scores[..j + 1][..j] == scores[..j];
      var ng := NormalizeText(gold[j]);
      var s := TokenOverlap(np, ng);
      assert scores[j] == (s, ContainsNegation(ng));
      if s > best {
        best := s;
        closestHasNegation := ContainsNegation(ng);
      }
      j := j + 1;
    }
    assert scores[..j] == scores;
  }

  /**
   * One prediction counts as a contradiction when it is non-empty after
   * normalisation, carries a negation, shares at least 45% of the tokens
   * of its closest gold insight, and that insight carries none.
   */
  ghost predicate IsContradiction(p: string, gold: seq<string>) {
    var np := NormalizeText(p);
    var c := Best(GoldScores(np, gold));
    np != "" && ContainsNegation(np) && c.0 >= 9.0 / 20.0 && !c.1
  }

  ghost function ContradictionCount(gold: seq<string>, predicted: seq<string>): (n: nat)
    ensures n <= |predicted|
    decreases |predicted|
  {
    if |predicted| == 0 then 0
    else
      ContradictionCount(gold, predicted[..|predicted| - 1])
      + (if IsContradiction(predicted[|predicted| - 1], gold) then 1 else 0)
  }

  /** The test estimateContradictions applies to one prediction. */
  method ContradictsGold(p: string, gold: seq<string>) returns (c: bool)
    ensures c <==> IsContradiction(p, gold)
  {
    var np := NormalizeText(p);
    if np == "" || !ContainsNegation(np) {
      return false;
    }
    var best, closestHasNegation := ClosestGold(np, gold);
    c := best >= 9.0 / 20.0 && !closestHasNegation;
  }

  method EstimateContradictions(gold: seq<string>, predicted: seq<string>) returns (count: int)
    ensures count == ContradictionCount(gold, predicted)
  {
    hide IsContradiction, NormalizeText;
    count := 0;
    var i := 0;
    while i < |predicted|
      invariant 0 <= i <= |predicted|
      invariant count == ContradictionCount(gold, predicted[..i])
    {
      assert predicted[..i + 1][..i] == predicted[..i];
      var c := ContradictsGold(predicted[i], gold);
      if c {
        count := count + 1;
      }
      i := i + 1;
    }
    assert predicted[..i] == predicted;
  }

  /** Predictions without a negation marker never count as contradictions. */
  lemma {:induction false} NoNegationNoContradiction(gold: seq<string>, predicted: seq<string>)
    requires forall k :: 0 <= k < |predicted| ==> !ContainsNegation(NormalizeText(predicted[k]))
    ensures ContradictionCount(gold, predicted) == 0
    decreases |predicted|
  {
    if |predicted| > 0 {
      NoNegationNoContradiction(gold, predicted[..|predicted| - 1]);
    }
  }

  /** With no gold insights the best overlap stays 0, so no prediction is a contradiction. */
  lemma {:induction false} NoGoldNoContradiction(predicted: seq<string>)
    ensures ContradictionCount([], predicted) == 0
    decreases |predicted|
  {
    if |predicted| > 0 {
      NoGoldNoContradiction(predicted[..|predicted| - 1]);
    }
  }

  /**
   * A negated prediction contradicts when its closest gold insight, the
   * first one with the highest overlap, shares at least 45% of the tokens
   * and carries no negation.
   */
  lemma ContradictionWitness(p: string, gold: seq<string>)
    requires IsContradiction(p, gold)
    ensures exists i :: (
              && 0 <= i < |gold|
              && Overlap(NormalizeText(p), NormalizeText(gold[i])) >= 9.0 / 20.0
              && !ContainsNegation(NormalizeText(gold[i]))
              && forall j :: 0 <= j < |gold| ==>
                   Overlap(NormalizeText(p), NormalizeText(gold[j])) <= Overlap(NormalizeText(p), NormalizeText(gold[i])))
  {
    hide NormalizeText, Overlap, ContainsNegation;
    var xs := GoldScores(NormalizeText(p), gold);
    BestIsFirstMax(xs);
    BestIsMax(xs);
    var i :| 0 <= i < |xs| && Best(xs) == xs[i] && forall j :: 0 <= j < i ==> xs[j].0 < xs[i].0;
    assert forall j :: 0 <= j < |gold| ==> xs[j].0 == Overlap(NormalizeText(p), NormalizeText(gold[j]));
  }

  // ----------------------------------------------------------- ScoreCase

  /** missingCount: total minus matched, never negative. */
  function MissingCount(total: int, matched: int): (r: int)
    ensures r >= 0
    ensures matched <= total ==> r == total - matched
    ensures matched > total ==> r == 0
  {
    if total - matched < 0 then 0 else total - matched
  }

  /** How many gold insights some prediction matches. */
  ghost function MatchedCount(gold: seq<string>, predicted: seq<string>): (n: nat)
    ensures n <= |gold|
    decreases |gold|
  {
    if |gold| == 0 then 0
    else MatchedCount(gold[..|gold| - 1], predicted) + (if InsightMatched(gold[|gold| - 1], predicted) then 1 else 0)
  }

  /** With no predicted insights nothing is matched, so the recall of the case is 0. */
  lemma {:induction false} NoPredictionsNoRecall(gold: seq<string>)
    ensures MatchedCount(gold, []) == 0
    ensures Ratio(MatchedCount(gold, []), |gold|) == 0.0
    decreases |gold|
  {
    if |gold| > 0 {
      NoPredictionsNoRecall(gold[..|gold| - 1]);
    }
  }

  /** An evidence quote counts when its trimmed text occurs in the source, ignoring ASCII case. */
  predicate QuoteFound(source: string, q: string) {
    Contains(Lower(source), Lower(Trim(q)))
  }

  function QuoteHits(source: string, quotes: seq<string>): (n: nat)
    ensures n <= |quotes|
  {
    if |quotes| == 0 then 0
    else QuoteHits(source, quotes[..|quotes| - 1]) + (if QuoteFound(source, quotes[|quotes| - 1]) then 1 else 0)
  }

  /** A ratio that is 0 when there is nothing to divide by. */
  function Ratio(part: int, whole: int): real {
    if whole > 0 then part as real / whole as real else 0.0
  }

  lemma RatioBounds(part: int, whole: int)
    requires 0 <= part <= whole
    ensures 0.0 <= Ratio(part, whole) <= 1.0
  {
  }

  predicate FormatOk(out: ParsedOutput) {
    out.tldr != "" && |out.keyInsights| > 0 && |out.evidenceQuotes| > 0
  }

  /** ScoreCase: every field of the score, in terms of the case and the output. */
  method ScoreCase(c: Case, out: ParsedOutput, recallThreshold: real) returns (s: Score)
    ensures var gold := NonBlank(c.goldInsights);
      && s.matchedGoldCount == MatchedCount(gold, out.keyInsights)
      && s.recall == Ratio(s.matchedGoldCount, |gold|)
      && s.missingInsights == |gold| - s.matchedGoldCount
      && s.contradictions == ContradictionCount(gold, out.keyInsights)
      && s.quoteCoverage == Ratio(QuoteHits(c.source, out.evidenceQuotes), |out.evidenceQuotes|)
      && (s.formatCompliant <==> FormatOk(out))
      && (s.pass <==> s.recall >= recallThreshold && s.contradictions == 0 && s.formatCompliant)
    ensures 0.0 <= s.recall <= 1.0 && 0.0 <= s.quoteCoverage <= 1.0
    ensures s.missingInsights >= 0
  {
    hide NormalizeText, InsightMatched, IsContradiction, Contains, Lower, Trim;
    var gold := NormalizeLines(c.goldInsights);
    var matched := 0;
    var i := 0;
    while i < |gold|
      invariant 0 <= i <= |gold|
      invariant matched == MatchedCount(gold[..i], out.keyInsights)
    {
      assert gold[..i + 1][..i] == gold[..i];
      var m := HasInsightMatch(gold[i], out.keyInsights);
      if m {
        matched := matched + 1;
      }
      i := i + 1;
    }
    assert gold[..i] == gold;

    var recall := 0.0;
    if |gold| > 0 {
      recall := matched as real / |gold| as real;
    }

    var quoteHits := 0;
    var j := 0;
    while j < |out.evidenceQuotes|
      invariant 0 <= j <= |out.evidenceQuotes|
      invariant quoteHits == QuoteHits(c.source, out.evidenceQuotes[..j])
    {
      assert out.evidenceQuotes[..j + 1][..j] == out.evidenceQuotes[..j];
      if Contains(Lower(c.source), Lower(Trim(out.evidenceQuotes[j]))) {
        quoteHits := quoteHits + 1;
      }
      j := j + 1;
    }
    assert out.evidenceQuotes[..j] == out.evidenceQuotes;

    var coverage := 0.0;
    if |out.evidenceQuotes| > 0 {
      coverage := quoteHits as real / |out.evidenceQuotes| as real;
    }

    var contradictions := EstimateContradictions(gold, out.keyInsights);
    var formatOK := out.tldr != "" && |out.keyInsights| > 0 && |out.evidenceQuotes| > 0;
    RatioBounds(matched, |gold|);
    RatioBounds(quoteHits, |out.evidenceQuotes|);
    s := Score(
      recall,
      MissingCount(|gold|, matched),
      contradictions,
      coverage,
      formatOK,
      recall >= recallThreshold && contradictions == 0 && formatOK,
      matched);
  }

  // -------------------------------------------------- BuildModelSummary

  function SumRecall(cases: seq<CaseResult>): real {
    if |cases| == 0 then 0.0 else SumRecall(cases[..|cases| - 1]) + cases[|cases| - 1].score.recall
  }

  function SumCoverage(cases: seq<CaseResult>): real {
    if |cases| == 0 then 0.0 else SumCoverage(cases[..|cases| - 1]) + cases[|cases| - 1].score.quoteCoverage
  }

  function SumContradictions(cases: seq<CaseResult>): int {
    if |cases| == 0 then 0 else SumContradictions(cases[..|cases| - 1]) + cases[|cases| - 1].score.contradictions
  }

  function FormatPasses(cases: seq<CaseResult>): (n: nat)
    ensures n <= |cases|
  {
    if |cases| == 0 then 0
    else FormatPasses(cases[..|cases| - 1]) + (if cases[|cases| - 1].score.formatCompliant then 1 else 0)
  }

  function PassCount(cases: seq<CaseResult>): (n: nat)
    ensures n <= |cases|
  {
    if |cases| == 0 then 0
    else PassCount(cases[..|cases| - 1]) + (if cases[|cases| - 1].score.pass then 1 else 0)
  }

  /** The summary BuildModelSummary computes: averages over the cases, the zero summary for none. */
  function Summary(cases: seq<CaseResult>, recallThreshold: real): ModelSummary {
    if |cases| == 0 then ZeroSummary
    else
      var n := |cases| as real;
      var avgRecall := SumRecall(cases) / n;
      ModelSummary(
        avgRecall,
        SumCoverage(cases) / n,
        SumContradictions(cases),
        FormatPasses(cases) as real / n,
        avgRecall >= recallThreshold && SumContradictions(cases) == 0 && PassCount(cases) == |cases|)
  }

  method BuildModelSummary(cases: seq<CaseResult>, recallThreshold: real) returns (s: ModelSummary)
    ensures s == Summary(cases, recallThreshold)
  {
    if |cases| == 0 {
      return ZeroSummary;
    }
    var totalRecall := 0.0;
    var totalCoverage := 0.0;
    var totalContradictions := 0;
    var formatPasses := 0;
    var passCount := 0;
    var i := 0;
    while i < |cases|
      invariant 0 <= i <= |cases|
      invariant totalRecall == SumRecall(cases[..i])
      invariant totalCoverage == SumCoverage(cases[..i])
      invariant totalContradictions == SumContradictions(cases[..i])
      invariant formatPasses == FormatPasses(cases[..i])
      invariant passCount == PassCount(cases[..i])
    {
      assert cases[..i + 1][..i] == cases[..i];
      var c := cases[i];
      totalRecall := totalRecall + c.score.recall;
      totalCoverage := totalCoverage + c.score.quoteCoverage;
      totalContradictions := totalContradictions + c.score.contradictions;
      if c.score.formatCompliant {
        formatPasses := formatPasses + 1;
      }
      if c.score.pass {
        passCount := passCount + 1;
      }
      i := i + 1;
    }
    assert cases[..i] == cases;
    var caseCount := |cases| as real;
    var avgRecall := totalRecall / caseCount;
    s := ModelSummary(
      avgRecall,
      totalCoverage / caseCount,
      totalContradictions,
      formatPasses as real / caseCount,
      avgRecall >= recallThreshold && totalContradictions == 0 && passCount == |cases|);
  }

  lemma {:induction false} PassCountAll(cases: seq<CaseResult>)
    requires PassCount(cases) == |cases|
    ensures forall k :: 0 <= k < |cases| ==> cases[k].score.pass
    decreases |cases|
  {
    if |cases| > 0 {
      var pre := cases[..|cases| - 1];
      PassCountAll(pre);
      assert forall k :: 0 <= k < |pre| ==> pre[k] == cases[k];
    }
  }

  /** An overall pass means every case passed and the average recall met the threshold. */
  lemma OverallPassMeansEveryCasePassed(cases: seq<CaseResult>, recallThreshold: real)
    requires Summary(cases, recallThreshold).overallPass
    ensures |cases| > 0
    ensures forall k :: 0 <= k < |cases| ==> cases[k].score.pass
    ensures Summary(cases, recallThreshold).averageRecall >= recallThreshold
    ensures Summary(cases, recallThreshold).totalContradictions == 0
  {
    PassCountAll(cases);
  }

  lemma {:induction false} SumRecallBounds(cases: seq<CaseResult>)
    requires forall k :: 0 <= k < |cases| ==> 0.0 <= cases[k].score.recall <= 1.0
    ensures 0.0 <= SumRecall(cases) <= |cases| as real
    decreases |cases|
  {
    if |cases| > 0 {
      SumRecallBounds(cases[..|cases| - 1]);
    }
  }

  lemma {:induction false} SumCoverageBounds(cases: seq<CaseResult>)
    requires forall k :: 0 <= k < |cases| ==> 0.0 <= cases[k].score.quoteCoverage <= 1.0
    ensures 0.0 <= SumCoverage(cases) <= |cases| as real
    decreases |cases|
  {
    if |cases| > 0 {
      SumCoverageBounds(cases[..|cases| - 1]);
    }
  }

  /** With per-case ratios in [0, 1], every ratio of the summary lies in [0, 1]. */
  lemma SummaryRatiosBounded(cases: seq<CaseResult>, recallThreshold: real)
    requires forall k :: 0 <= k < |cases| ==> 0.0 <= cases[k].score.recall <= 1.0
    requires forall k :: 0 <= k < |cases| ==> 0.0 <= cases[k].score.quoteCoverage <= 1.0
    ensures var s := Summary(cases, recallThreshold);
      0.0 <= s.averageRecall <= 1.0 && 0.0 <= s.averageCoverage <= 1.0 && 0.0 <= s.formatPassRate <= 1.0
  {
    if |cases| > 0 {
      var n := |cases| as real;
      SumRecallBounds(cases);
      SumCoverageBounds(cases);
      FractionBounds(SumRecall(cases), n);
      FractionBounds(SumCoverage(cases), n);
      FractionBounds(FormatPasses(cases) as real, n);
    }
  }

  /** The worked example of the summary: recall 1 and 0.5 average to 0.75; one of two is well-formed. */
  lemma SummaryExample(a: CaseResult, b: CaseResult)
    requires a.score == Score(1.0, 0, 0, 1.0, true, true, 0)
    requires b.score == Score(0.5, 0, 1, 0.5, false, false, 0)
    ensures Summary([a, b], 0.9) == ModelSummary(0.75, 0.75, 1, 0.5, false)
  {
    var cs := [a, b];
    assert cs[..1] == [a];
    assert [a][..0] == [];
    assert SumRecall([a]) == 1.0 && SumCoverage([a]) == 1.0;
    assert SumContradictions([a]) == 0 && FormatPasses([a]) == 1 && PassCount([a]) == 1;
    assert SumRecall(cs) == 1.5;
    assert SumCoverage(cs) == 1.5;
    assert SumContradictions(cs) == 1;
    assert FormatPasses(cs) == 1;
  }
}
