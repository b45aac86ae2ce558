/**
 * Loading a dataset directory (internal/eval/dataset.go): every
 * `source_<s>.txt` is paired with a `gold_<s>.json` by the suffix `<s>`,
 * the pairing is checked, and the complete cases come back sorted by ID.
 * The directory listing, the file reads and the gold-file JSON decoder
 * are parameters: an entry carries what reading it gives.
 */
module Datasets {
  import opened Wrappers
  import opened Text
  import opened EvalTypes
  import opened Parsing
  import opened Sorting
  import opened Listings

  /** A directory entry: its name, whether it is a directory, and what reading it gives. */
  datatype Entry = Entry(name: string, isDir: bool, contents: Result<string>)

  /** The fields of a gold file that the loader reads. */
  datatype GoldFile = GoldFile(id: string, title: string, keyInsights: seq<string>)

  // ------------------------------------------------------- classification

  /** What an entry name says about the entry. */
  datatype Kind = SourceOf(suffix: string) | GoldOf(suffix: string) | Ignored

  const SourcePrefix: string := "source_"
  const SourceExt: string := ".txt"
  const GoldPrefix: string := "gold_"
  const GoldExt: string := ".json"

  /** classifyEntry's name test, and the suffix the loaders cut out of the name. */
  function Classify(name: string): Kind {
    if HasPrefix(name, SourcePrefix) && HasSuffix(name, SourceExt) then
      SourceOf(TrimSuffix(TrimPrefix(name, SourcePrefix), SourceExt))
    else if HasPrefix(name, GoldPrefix) && HasSuffix(name, GoldExt) then
      GoldOf(TrimSuffix(TrimPrefix(name, GoldPrefix), GoldExt))
    else Ignored
  }

  /** A name with both a prefix and a suffix that share no character is the prefix, a middle and the suffix. */
  lemma Bracketed(name: string, pre: string, ext: string) returns (mid: string)
    requires HasPrefix(name, pre) && HasSuffix(name, ext) && ext != []
    requires forall i :: 0 <= i < |pre| ==> pre[i] != ext[0]
    ensures name == pre + mid + ext
    ensures TrimSuffix(TrimPrefix(name, pre), ext) == mid
  {
    var k := |name| - |ext|;
    assert name[k] == ext[0] by {
      assert name[k..][0] == name[k];
    }
    forall i | 0 <= i < |pre|
      ensures name[i] != ext[0]
    {
      assert name[..|pre|][i] == name[i];
    }
    mid := name[|pre|..k];
    assert name == name[..|pre|] + mid + name[|name| - |ext|..];
  }

  lemma BracketedName(pre: string, mid: string, ext: string)
    ensures HasPrefix(pre + mid + ext, pre) && HasSuffix(pre + mid + ext, ext)
    ensures TrimSuffix(TrimPrefix(pre + mid + ext, pre), ext) == mid
  {
    var name := pre + mid + ext;
    assert name[..|pre|] == pre;
    assert name[|name| - |ext|..] == ext;
    assert TrimPrefix(name, pre) == mid + ext;
    assert (mid + ext)[|mid + ext| - |ext|..] == ext;
  }

  /** The file-name prefixes share no character with the first character of the extensions. */
  lemma NamePartsApart()
    ensures SourceExt != [] && forall i :: 0 <= i < |SourcePrefix| ==> SourcePrefix[i] != SourceExt[0]
    ensures GoldExt != [] && forall i :: 0 <= i < |GoldPrefix| ==> GoldPrefix[i] != GoldExt[0]
    ensures |SourcePrefix| > 0 && |GoldPrefix| > 0 && SourcePrefix[0] != GoldPrefix[0]
  {
  }

  /** Exactly the names `source_<s>.txt` are source files, and `<s>` is their suffix. */
  lemma ClassifySource(name: string, s: string)
    ensures Classify(name) == SourceOf(s) <==> name == SourcePrefix + s + SourceExt
  {
    hide SourcePrefix, SourceExt, GoldPrefix, GoldExt, TrimPrefix, TrimSuffix;
    NamePartsApart();
    if name == SourcePrefix + s + SourceExt {
      BracketedName(SourcePrefix, s, SourceExt);
    }
    if Classify(name) == SourceOf(s) {
      var mid := Bracketed(name, SourcePrefix, SourceExt);
    }
  }

  /** Exactly the names `gold_<s>.json` that are not also source names are gold files. */
  lemma ClassifyGold(name: string, s: string)
    ensures Classify(name) == GoldOf(s) <==> name == GoldPrefix + s + GoldExt
  {
    hide SourcePrefix, SourceExt, GoldPrefix, GoldExt, TrimPrefix, TrimSuffix;
    NamePartsApart();
    if name == GoldPrefix + s + GoldExt {
      BracketedName(GoldPrefix, s, GoldExt);
      assert name[0] == GoldPrefix[0];
      assert !HasPrefix(name, SourcePrefix) by {
        if |SourcePrefix| <= |name| {
          assert name[..|SourcePrefix|][0] == name[0];
        }
      }
    }
    if Classify(name) == GoldOf(s) {
      var mid := Bracketed(name, GoldPrefix, GoldExt);
    }
  }

  // ---------------------------------------------------------- the fold

  /** The three maps LoadDataset fills: the cases by suffix and the two suffix sets. */
  datatype ScanState = ScanState(bySuffix: map<string, Case>, sources: set<string>, golds: set<string>)

  const EmptyScan := ScanState(map[], {}, {})

  /** Go's map read: the stored case, or the zero case. */
  function CaseAt(m: map<string, Case>, suffix: string): Case {
    if suffix in m then m[suffix] else ZeroCase
  }

  /** caseID: the gold file's own id when it has one, the suffix otherwise. */
  function CaseId(goldId: string, suffix: string): string {
    if goldId != "" then goldId else suffix
  }

  /** What loadSourceFile stores: the case takes the suffix as ID and the trimmed text as source. */
  function WithSource(c: Case, suffix: string, text: string): Case {
    c.(id := suffix, source := Trim(text))
  }

  /** What loadGoldFile stores: ID, title and the normalised gold insights. */
  function WithGold(c: Case, suffix: string, g: GoldFile): Case {
    c.(id := CaseId(g.id, suffix), title := g.title, goldInsights := NonBlank(g.keyInsights))
  }

  /** One turn of the loop over the entries; an error ends the load. */
  function Step(st: ScanState, e: Entry, decode: string -> Result<GoldFile>): Result<ScanState> {
    if e.isDir then Ok(st)
    else
      match Classify(e.name)
      case Ignored => Ok(st)
      case SourceOf(s) =>
        if e.contents.Err? then Err("read " + e.name + ": " + e.contents.error)
        else
          Ok(st.(bySuffix := st.bySuffix[s := WithSource(CaseAt(st.bySuffix, s), s, e.contents.value)],
                 sources := st.sources + {s}))
      case GoldOf(s) =>
        if e.contents.Err? then Err("read " + e.name + ": " + e.contents.error)
        else
          var g := decode(e.contents.value);
          if g.Err? then Err("parse " + e.name + ": " + g.error)
          else
            Ok(st.(bySuffix := st.bySuffix[s := WithGold(CaseAt(st.bySuffix, s), s, g.value)],
                   golds := st.golds + {s}))
  }

  /** The state after the entries, in listing order, or the first error. */
  function Fold(entries: seq<Entry>, decode: string -> Result<GoldFile>): Result<ScanState>
    decreases |entries|
  {
    if |entries| == 0 then Ok(EmptyScan)
    else
      var prev := Fold(entries[..|entries| - 1], decode);
      if prev.Err? then prev else Step(prev.value, entries[|entries| - 1], decode)
  }

  /** The suffix sets record exactly the source and gold files of the listing. */
  lemma {:induction false} FoldSuffixes(entries: seq<Entry>, decode: string -> Result<GoldFile>)
    requires Fold(entries, decode).Ok?
    ensures var st := Fold(entries, decode).value;
      && (forall s :: s in st.sources <==> exists k :: 0 <= k < |entries| && !entries[k].isDir && Classify(entries[k].name) == SourceOf(s))
      && (forall s :: s in st.golds <==> exists k :: 0 <= k < |entries| && !entries[k].isDir && Classify(entries[k].name) == GoldOf(s))
    decreases |entries|
  {
    hide Step, Classify;
    if |entries| > 0 {
      var n := |entries| - 1;
      var front := entries[..n];
      var e := entries[n];
      FoldSuffixes(front, decode);
      var prev := Fold(front, decode).value;
      StepSuffixes(prev, e, decode);
      var st := Fold(entries, decode).value;
      forall s
        ensures s in st.sources <==> exists k :: 0 <= k < |entries| && !entries[k].isDir && Classify(entries[k].name) == SourceOf(s)
      {
        if s in st.sources && s !in prev.sources {
          assert !entries[n].isDir && Classify(entries[n].name) == SourceOf(s);
        }
        if exists k :: 0 <= k < |entries| && !entries[k].isDir && Classify(entries[k].name) == SourceOf(s) {
          var k :| 0 <= k < |entries| && !entries[k].isDir && Classify(entries[k].name) == SourceOf(s);
          if k < n {
            assert front[k] == entries[k];
          }
        }
      }
      forall s
        ensures s in st.golds <==> exists k :: 0 <= k < |entries| && !entries[k].isDir && Classify(entries[k].name) == GoldOf(s)
      {
        if s in st.golds && s !in prev.golds {
          assert !entries[n].isDir && Classify(entries[n].name) == GoldOf(s);
        }
        if exists k :: 0 <= k < |entries| && !entries[k].isDir && Classify(entries[k].name) == GoldOf(s) {
          var k :| 0 <= k < |entries| && !entries[k].isDir && Classify(entries[k].name) == GoldOf(s);
          if k < n {
            assert front[k] == entries[k];
          }
        }
      }
    }
  }

  /** One step adds the suffix of a source or gold file to its set, and nothing else. */
  lemma StepSuffixes(st: ScanState, e: Entry, decode: string -> Result<GoldFile>)
    requires Step(st, e, decode).Ok?
    ensures var k := Classify(e.name);
      && Step(st, e, decode).value.sources == st.sources + (if !e.isDir && k.SourceOf? then {k.suffix} else {})
      && Step(st, e, decode).value.golds == st.golds + (if !e.isDir && k.GoldOf? then {k.suffix} else {})
  {
    hide Classify, WithSource, WithGold;
  }

  /** A stored case has a trimmed source and trimmed, non-blank gold insights. */
  ghost predicate CaseNormal(c: Case) {
    Trimmed(c.source) && forall k :: 0 <= k < |c.goldInsights| ==> c.goldInsights[k] != "" && Trimmed(c.goldInsights[k])
  }

  /** Every case the fold stores is normal: sources are trimmed and gold insights normalised. */
  lemma {:induction false} FoldKeepsCasesNormal(entries: seq<Entry>, decode: string -> Result<GoldFile>)
    requires Fold(entries, decode).Ok?
    ensures forall s :: s in Fold(entries, decode).value.bySuffix ==> CaseNormal(Fold(entries, decode).value.bySuffix[s])
    decreases |entries|
  {
    if |entries| > 0 {
      FoldKeepsCasesNormal(entries[..|entries| - 1], decode);
    }
  }

  /**
   * The case ID depends on which file of a pair comes last: after the
   * source it is the suffix, after the gold file it is the gold id (or
   * the suffix when that id is empty).
   */
  lemma IdFollowsLastFile(s: string, text: string, goldText: string, decode: string -> Result<GoldFile>)
    requires decode(goldText).Ok?
    ensures var src := Entry(SourcePrefix + s + SourceExt, false, Ok(text));
      var gold := Entry(GoldPrefix + s + GoldExt, false, Ok(goldText));
      && Fold([src, gold], decode).Ok?
      && s in Fold([src, gold], decode).value.bySuffix
      && Fold([src, gold], decode).value.bySuffix[s].id == CaseId(decode(goldText).value.id, s)
      && Fold([gold, src], decode).Ok?
      && s in Fold([gold, src], decode).value.bySuffix
      && Fold([gold, src], decode).value.bySuffix[s].id == s
  {
    var src := Entry(SourcePrefix + s + SourceExt, false, Ok(text));
    var gold := Entry(GoldPrefix + s + GoldExt, false, Ok(goldText));
    ClassifySource(src.name, s);
    ClassifyGold(gold.name, s);
    assert [src, gold][..1] == [src];
    assert [gold, src][..1] == [gold];
    assert [src][..0] == [] && [gold][..0] == [];
    var s1 := Step(EmptyScan, src, decode).value;
    assert Fold([src], decode) == Ok(s1);
    assert Fold([src, gold], decode) == Step(s1, gold, decode);
    var g1 := Step(EmptyScan, gold, decode).value;
    assert Fold([gold], decode) == Ok(g1);
    assert Fold([gold, src], decode) == Step(g1, src, decode);
  }

  // ------------------------------------------------------- the Scan object

  /** The maps LoadDataset threads through classifyEntry and the two loaders. */
  class Scan {
    var bySuffix: map<string, Case>
    var sourceSuffixes: set<string>
    var goldSuffixes: set<string>

    /** The maps as one value. */
    function State(): ScanState
      reads this
    {
      ScanState(bySuffix, sourceSuffixes, goldSuffixes)
    }

    constructor ()
      ensures State() == EmptyScan
    {
      bySuffix := map[];
      sourceSuffixes := {};
      goldSuffixes := {};
    }

    /** loadSourceFile: records the suffix, then stores the trimmed text unless the read failed. */
    method LoadSourceFile(name: string, contents: Result<string>) returns (err: Option<string>)
      modifies this
      ensures var s := TrimSuffix(TrimPrefix(name, SourcePrefix), SourceExt);
        && sourceSuffixes == old(sourceSuffixes) + {s}
        && goldSuffixes == old(goldSuffixes)
        && (contents.Err? ==> err == Some("read " + name + ": " + contents.error) && bySuffix == old(bySuffix))
        && (contents.Ok? ==> err == None && bySuffix == old(bySuffix)[s := WithSource(CaseAt(old(bySuffix), s), s, contents.value)])
    {
      hide Trim, TrimPrefix, TrimSuffix;
      var s := TrimSuffix(TrimPrefix(name, SourcePrefix), SourceExt);
      sourceSuffixes := sourceSuffixes + {s};
      if contents.Err? {
        return Some("read " + name + ": " + contents.error);
      }
      var c := CaseAt(bySuffix, s);
      c := c.(id := s);
      c := c.(source := Trim(contents.value));
      bySuffix := bySuffix[s := c];
      err := None;
    }

    /** loadGoldFile: records the suffix, then stores the decoded gold file unless reading or decoding failed. */
    method LoadGoldFile(name: string, contents: Result<string>, decode: string -> Result<GoldFile>) returns (err: Option<string>)
      modifies this
      ensures var s := TrimSuffix(TrimPrefix(name, GoldPrefix), GoldExt);
        && goldSuffixes == old(goldSuffixes) + {s}
        && sourceSuffixes == old(sourceSuffixes)
        && (contents.Err? ==> err == Some("read " + name + ": " + contents.error) && bySuffix == old(bySuffix))
        && (contents.Ok? && decode(contents.value).Err? ==>
              err == Some("parse " + name + ": " + decode(contents.value).error) && bySuffix == old(bySuffix))
        && (contents.Ok? && decode(contents.value).Ok? ==>
              err == None && bySuffix == old(bySuffix)[s := WithGold(CaseAt(old(bySuffix), s), s, decode(contents.value).value)])
    {
      hide Trim, TrimPrefix, TrimSuffix, NonBlank;
      var s := TrimSuffix(TrimPrefix(name, GoldPrefix), GoldExt);
      goldSuffixes := goldSuffixes + {s};
      if contents.Err? {
        return Some("read " + name + ": " + contents.error);
      }
      var g := decode(contents.value);
      if g.Err? {
        return Some("parse " + name + ": " + g.error);
      }
      var c := CaseAt(bySuffix, s);
      c := c.(id := CaseId(g.value.id, s));
      c := c.(title := g.value.title);
      var lines := NormalizeLines(g.value.keyInsights);
      c := c.(goldInsights := lines);
      bySuffix := bySuffix[s := c];
      err := None;
    }

    /** classifyEntry: routes a file to the loader its name calls for; any other name changes nothing. */
    method ClassifyEntry(name: string, contents: Result<string>, decode: string -> Result<GoldFile>) returns (err: Option<string>)
      modifies this
      ensures var r := Step(old(State()), Entry(name, false, contents), decode);
        && (r.Ok? ==> err == None && State() == r.value)
        && (r.Err? ==> err == Some(r.error))
    {
      var k := Classify(name);
      if HasPrefix(name, SourcePrefix) && HasSuffix(name, SourceExt) {
        err := LoadSourceFile(name, contents);
      } else if HasPrefix(name, GoldPrefix) && HasSuffix(name, GoldExt) {
        err := LoadGoldFile(name, contents, decode);
      } else {
        err := None;
      }
    }
  }

  // -------------------------------------------------- missingKeys, pairing

  /** missingKeys: the keys of `have` that `want` lacks, collected in any order, then sorted. */
  method MissingKeys(have: set<string>, want: set<string>) returns (missing: seq<string>)
    ensures SortedListing(missing, have - want)
  {
    var acc: seq<string> := [];
    var rest := have;
    while rest != {}
      invariant rest <= have
      invariant forall x :: x in acc <==> x in have - rest && x !in want
      invariant NoDuplicates(acc)
      decreases |rest|
    {
      var k :| k in rest;
      if k !in want {
        assert k !in acc;
        acc := acc + [k];
      }
      rest := rest - {k};
    }
    missing := SortStrings(acc);
    assert NoDuplicates(missing) by {
      forall x ensures multiset(missing)[x] <= 1 {
        assert multiset(acc)[x] <= 1;
      }
    }
    assert rest == {};
    forall x
      ensures x in missing <==> x in have - want
    {
      assert x in missing <==> x in multiset(missing);
      assert x in acc <==> x in multiset(acc);
    }
  }

  /** joinOrNone: the keys separated by ", ", or "none". */
  function JoinOrNone(ss: seq<string>): string {
    if |ss| == 0 then "none" else Join(ss, ", ")
  }

  const UnmatchedFiles: string := "unmatched files"

  /** The pairing error, listing the suffixes without a gold file and those without a source file. */
  function UnmatchedMessage(missingGold: seq<string>, missingSource: seq<string>): string {
    "dataset has " + UnmatchedFiles + " (missing gold for: " + JoinOrNone(missingGold)
    + "; missing source for: " + JoinOrNone(missingSource) + ")"
  }

  /** validatePairing: no error exactly when every source has a gold file and every gold file a source. */
  method ValidatePairing(sources: set<string>, golds: set<string>) returns (err: Option<string>)
    ensures err.None? <==> sources == golds
    ensures err.Some? ==> exists mg, ms ::
      SortedListing(mg, sources - golds) && SortedListing(ms, golds - sources) && err.value == UnmatchedMessage(mg, ms)
  {
    var missingGold := MissingKeys(sources, golds);
    var missingSource := MissingKeys(golds, sources);
    if |missingGold| == 0 && |missingSource| == 0 {
      assert forall x :: x in sources <==> x in golds by {
        assert forall x :: x in sources - golds ==> x in missingGold;
        assert forall x :: x in golds - sources ==> x in missingSource;
      }
      return None;
    }
    if |missingGold| > 0 {
      assert missingGold[0] in sources - golds;
    } else {
      assert missingSource[0] in golds - sources;
    }
    err := Some(UnmatchedMessage(missingGold, missingSource));
  }

  /** The pairing error says "unmatched files". */
  lemma UnmatchedMessageSaysSo(mg: seq<string>, ms: seq<string>)
    ensures Contains(UnmatchedMessage(mg, ms), UnmatchedFiles)
  {
    hide UnmatchedFiles, JoinOrNone;
    var rest := " (missing gold for: " + JoinOrNone(mg) + "; missing source for: " + JoinOrNone(ms) + ")";
    assert UnmatchedMessage(mg, ms) == "dataset has " + UnmatchedFiles + rest;
    ContainsMiddle("dataset has ", UnmatchedFiles, rest);
  }

  // --------------------------------------------------------- collectCases

  /** A case is kept when it has a source and at least one gold insight. */
  predicate Complete(c: Case) {
    c.source != "" && |c.goldInsights| > 0
  }

  /** The suffixes whose case collectCases keeps. */
  ghost function KeptSuffixes(m: map<string, Case>): set<string> {
    set s | s in m && Complete(m[s])
  }

  predicate IdLe(a: Case, b: Case) {
    StrLe(a.id, b.id)
  }

  lemma IdLeIsTotalPreorder()
    ensures TotalPreorder(IdLe)
  {
    forall x: Case, y: Case ensures IdLe(x, y) || IdLe(y, x) {
      StrLeTotal(x.id, y.id);
    }
    forall x: Case, y: Case, z: Case | IdLe(x, y) && IdLe(y, z) ensures IdLe(x, z) {
      StrLeTransitive(x.id, y.id, z.id);
    }
  }

  /** Taking `s` out of the suffixes still to visit adds it to the visited kept ones exactly when its case is complete. */
  lemma KeptStep(m: map<string, Case>, rest: set<string>, s: string)
    requires s in rest && rest <= m.Keys
    ensures KeptSuffixes(m) - (rest - {s}) == (KeptSuffixes(m) - rest) + (if Complete(m[s]) then {s} else {})
    ensures s !in KeptSuffixes(m) - rest
  {
  }

  lemma KeptInDomain(m: map<string, Case>)
    ensures KeptSuffixes(m) <= m.Keys
  {
  }

  lemma CardAddOne(a: set<string>, k: string)
    requires k !in a
    ensures |a + {k}| == |a| + 1
  {
  }

  /** `ss` lists every key of `keys` exactly once. */
  ghost predicate Enumerates(ss: seq<string>, keys: set<string>) {
    |ss| == |keys| && forall t :: t in ss <==> t in keys
  }

  lemma EnumeratesAppend(ss: seq<string>, keys: set<string>, s: string)
    requires Enumerates(ss, keys) && s !in keys
    ensures Enumerates(ss + [s], keys + {s})
  {
    CardAddOne(keys, s);
  }

  /** The cases stored under the keys `ss`, in that order. */
  ghost function CasesAt(m: map<string, Case>, ss: seq<string>): (cs: seq<Case>)
    requires forall t :: t in ss ==> t in m
    ensures |cs| == |ss|
  {
    if ss == [] then [] else CasesAt(m, ss[..|ss| - 1]) + [m[ss[|ss| - 1]]]
  }

  lemma CasesAtAppend(m: map<string, Case>, ss: seq<string>, s: string)
    requires (forall t :: t in ss ==> t in m) && s in m
    ensures CasesAt(m, ss + [s]) == CasesAt(m, ss) + [m[s]]
  {
    assert (ss + [s])[..|ss|] == ss;
  }

  /**
   * collectCases: one case per suffix whose case is complete, sorted by
   * ID; an error naming the directory when there is none.
   */
  method CollectCases(bySuffix: map<string, Case>, dir: string) returns (r: Result<seq<Case>>)
    ensures r.Err? <==> KeptSuffixes(bySuffix) == {}
    ensures r.Err? ==> r.error == "no valid source_/gold_ pairs found in " + dir
    ensures r.Ok? ==>
      && SortedBy(r.value, IdLe)
      && |r.value| == |KeptSuffixes(bySuffix)|
      && (forall c :: c in r.value <==> exists s :: s in KeptSuffixes(bySuffix) && bySuffix[s] == c)
    ensures r.Ok? ==> exists ss ::
      Enumerates(ss, KeptSuffixes(bySuffix)) && multiset(r.value) == multiset(CasesAt(bySuffix, ss))
  {
    var cases, ss := KeptCases(bySuffix);
    var a := new Case[|cases|](i requires 0 <= i < |cases| => cases[i]);
    assert a[..] == cases;
    IdLeIsTotalPreorder();
    SortBy(a, IdLe);
    assert multiset(a[..]) == multiset(cases);
    forall c
      ensures c in a[..] <==> c in cases
    {
      assert c in a[..] <==> c in multiset(a[..]);
      assert c in cases <==> c in multiset(cases);
    }
    if a.Length == 0 {
      return Err("no valid source_/gold_ pairs found in " + dir);
    }
    r := Ok(a[..]);
    assert Enumerates(ss, KeptSuffixes(bySuffix)) && multiset(r.value) == multiset(CasesAt(bySuffix, ss));
  }

  /** `cases` holds exactly the cases stored under `keys`. */
  ghost predicate CasesOf(cases: seq<Case>, m: map<string, Case>, keys: set<string>) {
    forall c :: c in cases <==> exists t :: t in keys && t in m && m[t] == c
  }

  lemma CasesOfAppend(cases: seq<Case>, m: map<string, Case>, keys: set<string>, s: string)
    requires CasesOf(cases, m, keys) && s in m
    ensures CasesOf(cases + [m[s]], m, keys + {s})
  {
    forall c
      ensures c in cases + [m[s]] <==> exists t :: t in keys + {s} && t in m && m[t] == c
    {
      if c in cases {
        var t :| t in keys && t in m && m[t] == c;
        assert t in keys + {s};
      }
    }
  }

  /** The loop of collectCases: the complete cases, one per suffix, in map order. */
  method KeptCases(bySuffix: map<string, Case>) returns (cases: seq<Case>, ghost ss: seq<string>)
    ensures |cases| == |KeptSuffixes(bySuffix)|
    ensures forall c :: c in cases <==> exists s :: s in KeptSuffixes(bySuffix) && bySuffix[s] == c
    ensures Enumerates(ss, KeptSuffixes(bySuffix)) && cases == CasesAt(bySuffix, ss)
  {
    hide KeptSuffixes, Complete, CasesAt;
    cases := [];
    ss := [];
    var rest := bySuffix.Keys;
    ghost var kept := KeptSuffixes(bySuffix);
    ghost var seen: set<string> := {};
    KeptInDomain(bySuffix);
    while rest != {}
      invariant rest <= bySuffix.Keys
      invariant seen == kept - rest
      invariant |cases| == |seen|
      invariant CasesOf(cases, bySuffix, seen)
      invariant Enumerates(ss, seen) && cases == CasesAt(bySuffix, ss)
      decreases |rest|
    {
      var s :| s in rest;
      KeptStep(bySuffix, rest, s);
      if Complete(bySuffix[s]) {
        CasesOfAppend(cases, bySuffix, seen, s);
        CardAddOne(seen, s);
        EnumeratesAppend(ss, seen, s);
        CasesAtAppend(bySuffix, ss, s);
        cases := cases + [bySuffix[s]];
        ss := ss + [s];
        seen := seen + {s};
      }
      rest := rest - {s};
    }
    assert seen == kept;
  }

  // ----------------------------------------------------------- LoadDataset

  /** What LoadDataset promises about the cases it returns from a clean, paired scan. */
  ghost predicate CollectedFrom(r: Result<seq<Case>>, bySuffix: map<string, Case>, dir: string) {
    && (r.Err? <==> KeptSuffixes(bySuffix) == {})
    && (r.Err? ==> r.error == "no valid source_/gold_ pairs found in " + dir)
    && (r.Ok? ==>
          && SortedBy(r.value, IdLe)
          && |r.value| == |KeptSuffixes(bySuffix)|
          && (forall c :: c in r.value <==> exists s :: s in KeptSuffixes(bySuffix) && bySuffix[s] == c)
          && (exists ss :: Enumerates(ss, KeptSuffixes(bySuffix)) && multiset(r.value) == multiset(CasesAt(bySuffix, ss))))
  }

  /**
   * LoadDataset: a listing error, then the first read or parse error,
   * then a pairing error, in that order, stop the load; otherwise the
   * complete cases are collected.
   */
  method LoadDataset(dir: string, listing: Result<seq<Entry>>, decode: string -> Result<GoldFile>)
    returns (r: Result<seq<Case>>)
    ensures listing.Err? ==> r == Err("read dataset dir: " + listing.error)
    ensures listing.Ok? && Fold(listing.value, decode).Err? ==> r == Err(Fold(listing.value, decode).error)
    ensures listing.Ok? && Fold(listing.value, decode).Ok? ==>
      var st := Fold(listing.value, decode).value;
      && (st.sources != st.golds ==> r.Err? && Contains(r.error, UnmatchedFiles))
      && (st.sources != st.golds ==> exists mg, ms ::
            && SortedListing(mg, st.sources - st.golds) && SortedListing(ms, st.golds - st.sources)
            && r == Err(UnmatchedMessage(mg, ms)))
      && (st.sources == st.golds ==> CollectedFrom(r, st.bySuffix, dir))
  {
    if listing.Err? {
      return Err("read dataset dir: " + listing.error);
    }
    var entries := listing.value;
    var scan := new Scan();
    var i := 0;
    while i < |entries|
      invariant 0 <= i <= |entries|
      invariant Fold(entries[..i], decode) == Ok(scan.State())
    {
      assert entries[..i + 1][..i] == entries[..i];
      var e := entries[i];
      if !e.isDir {
        var err := scan.ClassifyEntry(e.name, e.contents, decode);
        if err.Some? {
          FoldAbortsAfter(entries, i + 1, decode);
          return Err(err.value);
        }
      }
      i := i + 1;
    }
    assert entries[..i] == entries;
    var err := ValidatePairing(scan.sourceSuffixes, scan.goldSuffixes);
    if err.Some? {
      ghost var mg, ms :| SortedListing(mg, scan.sourceSuffixes - scan.goldSuffixes)
        && SortedListing(ms, scan.goldSuffixes - scan.sourceSuffixes) && err.value == UnmatchedMessage(mg, ms);
      UnmatchedMessageSaysSo(mg, ms);
      return Err(err.value);
    }
    r := CollectCases(scan.bySuffix, dir);
  }

  /** Once the fold has failed, later entries do not change the error. */
  lemma {:induction false} FoldAbortsAfter(entries: seq<Entry>, n: int, decode: string -> Result<GoldFile>)
    requires 0 <= n <= |entries| && Fold(entries[..n], decode).Err?
    ensures Fold(entries, decode) == Fold(entries[..n], decode)
    decreases |entries| - n
  {
    if n < |entries| {
      assert entries[..n + 1][..n] == entries[..n];
      FoldAbortsAfter(entries, n + 1, decode);
    } else {
      assert entries[..n] == entries;
    }
  }
}
