/**
 * The output parser (internal/eval/parse.go): strip code fences, cut the
 * text to its outermost braces, decode it, then trim every field and drop
 * blank list entries. The JSON decoder is a parameter.
 */
module Parsing {
  import opened Wrappers
  import opened Text
  import opened EvalTypes

  /** The JSON object the model is asked to return, as the decoder delivers it. */
  datatype Payload = Payload(tldr: string, keyInsights: seq<string>, evidenceQuotes: seq<string>)

  // ------------------------------------------------------- normalizeLines

  /** The trimmed, non-blank entries of `xs`, in their original order. */
  function NonBlank(xs: seq<string>): (r: seq<string>)
    ensures |r| <= |xs|
    ensures forall k :: 0 <= k < |r| ==> r[k] != "" && Trimmed(r[k])
  {
    if |xs| == 0 then []
    else
      var v := Trim(xs[|xs| - 1]);
      NonBlank(xs[..|xs| - 1]) + (if v != "" then [v] else [])
  }

  /** normalizeLines: one pass that trims each entry and keeps the non-blank ones. */
  method NormalizeLines(xs: seq<string>) returns (out: seq<string>)
    ensures out == NonBlank(xs)
  {
    hide Trim;
    out := [];
    var i := 0;
    while i < |xs|
      invariant 0 <= i <= |xs|
      invariant out == NonBlank(xs[..i])
    {
      var v := Trim(xs[i]);
      assert xs[..i + 1][i] == xs[i];
      if v != "" {
        out := out + [v];
      }
      assert xs[..i + 1][..i] == xs[..i];
      i := i + 1;
    }
    assert xs[..i] == xs;
  }

  /** A list that is already trimmed and free of blanks is left unchanged. */
  lemma {:induction false} NonBlankOfNormal(ys: seq<string>)
    requires forall k :: 0 <= k < |ys| ==> ys[k] != "" && Trimmed(ys[k])
    ensures NonBlank(ys) == ys
  {
    if |ys| > 0 {
      NonBlankOfNormal(ys[..|ys| - 1]);
      TrimOfTrimmed(ys[|ys| - 1]);
    }
  }

  /** normalizeLines is idempotent. */
  lemma NonBlankIdempotent(xs: seq<string>)
    ensures NonBlank(NonBlank(xs)) == NonBlank(xs)
  {
    NonBlankOfNormal(NonBlank(xs));
  }

  /** Every kept entry is the trim of some input entry (nothing is invented). */
  lemma {:induction false} NonBlankFromInput(xs: seq<string>, k: int)
    requires 0 <= k < |NonBlank(xs)|
    ensures exists i :: 0 <= i < |xs| && NonBlank(xs)[k] == Trim(xs[i])
  {
    var pre := NonBlank(xs[..|xs| - 1]);
    if k < |pre| {
      NonBlankFromInput(xs[..|xs| - 1], k);
      var i :| 0 <= i < |xs| - 1 && pre[k] == Trim(xs[..|xs| - 1][i]);
      assert NonBlank(xs)[k] == Trim(xs[i]);
    } else {
      assert NonBlank(xs)[k] == Trim(xs[|xs| - 1]);
    }
  }

  // ---------------------------------------------------- fences and braces

  /** Trim; drop one leading "```json", then one leading "```"; drop one trailing "```"; trim. */
  function StripFences(raw: string): string {
    var c := Trim(raw);
    var c := TrimPrefix(c, "```json");
    var c := TrimPrefix(c, "```");
    var c := TrimSuffix(c, "```");
    Trim(c)
  }

  /** Slice from the first '{', then cut after the last '}'. */
  function SliceBraces(s: string): (r: string)
    ensures '{' in s ==> r != [] && r[0] == '{'
    ensures '}' in r ==> r[|r| - 1] == '}'
  {
    var i := IndexOfChar(s, '{');
    var c := if i >= 0 then s[i..] else s;
    var j := LastIndexOfChar(c, '}');
    if j >= 0 then c[..j + 1] else c
  }

  /** The text ParseOutput hands to the JSON decoder. */
  function Clean(raw: string): string {
    SliceBraces(StripFences(raw))
  }

  /** After normalisation: trimmed tldr, trimmed non-blank list entries. */
  function Normalized(p: Payload): (out: ParsedOutput)
    ensures Trimmed(out.tldr)
    ensures forall k :: 0 <= k < |out.keyInsights| ==> out.keyInsights[k] != "" && Trimmed(out.keyInsights[k])
    ensures forall k :: 0 <= k < |out.evidenceQuotes| ==> out.evidenceQuotes[k] != "" && Trimmed(out.evidenceQuotes[k])
  {
    ParsedOutput(Trim(p.tldr), NonBlank(p.keyInsights), NonBlank(p.evidenceQuotes))
  }

  /**
   * ParseOutput: a decode failure gives an error and no value; a success
   * gives the normalised payload.
   */
  method ParseOutput(raw: string, decode: string -> Result<Payload>) returns (r: Result<ParsedOutput>)
    ensures decode(Clean(raw)).Err? ==> r == Err("invalid JSON output: " + decode(Clean(raw)).error)
    ensures decode(Clean(raw)).Ok? ==> r == Ok(Normalized(decode(Clean(raw)).value))
  {
    var clean := Clean(raw);
    var p := decode(clean);
    if p.Err? {
      return Err("invalid JSON output: " + p.error);
    }
    var keyInsights := NormalizeLines(p.value.keyInsights);
    var evidenceQuotes := NormalizeLines(p.value.evidenceQuotes);
    r := Ok(ParsedOutput(Trim(p.value.tldr), keyInsights, evidenceQuotes));
  }

  // ------------------------------------------------------ framing lemmas

  /** No position of `s` holds `c`. */
  predicate Free(s: string, c: char) {
    forall i :: 0 <= i < |s| ==> s[i] != c
  }

  /** A JSON object's text: starts with '{' and ends with '}'. */
  predicate BraceObject(p: string) {
    |p| >= 2 && p[0] == '{' && p[|p| - 1] == '}'
  }

  lemma {:induction false} TrimLeftFrame(a: string, rest: string)
    requires rest != [] && !IsSpace(rest[0])
    ensures TrimLeft(a + rest) == TrimLeft(a) + rest
    decreases |a|
  {
    if a != [] {
      assert (a + rest)[1..] == a[1..] + rest;
      TrimLeftFrame(a[1..], rest);
    } else {
      assert a + rest == rest;
    }
  }

  lemma {:induction false} TrimRightFrame(rest: string, b: string)
    requires rest != [] && !IsSpace(rest[|rest| - 1])
    ensures TrimRight(rest + b) == rest + TrimRight(b)
    decreases |b|
  {
    if b != [] {
      assert (rest + b)[..|rest + b| - 1] == rest + b[..|b| - 1];
      TrimRightFrame(rest, b[..|b| - 1]);
    } else {
      assert rest + b == rest;
    }
  }

  lemma TrimLeftFree(a: string, c: char)
    requires Free(a, c)
    ensures Free(TrimLeft(a), c)
  {
    hide TrimLeft, IsSpace;
    var r := TrimLeft(a);
    assert forall i :: 0 <= i < |r| ==> r[i] == a[|a| - |r| + i];
  }

  lemma TrimRightFree(b: string, c: char)
    requires Free(b, c)
    ensures Free(TrimRight(b), c)
  {
    hide TrimRight, IsSpace;
    var r := TrimRight(b);
    assert forall i :: 0 <= i < |r| ==> r[i] == b[i];
  }

  lemma TrimLeftRight(s: string)
    ensures Trim(s) == TrimRight(TrimLeft(s))
  {
  }

  /** Trimming text around a word that neither starts nor ends with a space trims only the ends. */
  lemma TrimFrame(a: string, p: string, b: string)
    requires p != [] && !IsSpace(p[0]) && !IsSpace(p[|p| - 1])
    ensures Trim(a + p + b) == TrimLeft(a) + p + TrimRight(b)
  {
    hide Trim, TrimLeft, TrimRight;
    var x := a + p + b;
    var pb := p + b;
    assert x == a + pb;
    assert pb[0] == p[0];
    TrimLeftFrame(a, pb);
    var y := TrimLeft(a) + p;
    assert TrimLeft(a) + pb == y + b;
    assert y[|y| - 1] == p[|p| - 1];
    TrimRightFrame(y, b);
    TrimLeftRight(x);
  }

  /** A fence without '{' can only be removed from the leading frame. */
  lemma TrimPrefixFrame(a: string, p: string, b: string, f: string) returns (a': string)
    requires Free(a, '{') && BraceObject(p) && Free(f, '{')
    ensures TrimPrefix(a + p + b, f) == a' + p + b && Free(a', '{')
  {
    var x := a + p + b;
    if HasPrefix(x, f) {
      assert forall i :: 0 <= i < |f| ==> x[i] != '{' by {
        forall i | 0 <= i < |f|
          ensures x[i] != '{'
        {
          assert x[i] == x[..|f|][i];
        }
      }
      assert x[|a|] == '{';
      a' := a[|f|..];
      assert x[|f|..] == a' + p + b;
    } else {
      a' := a;
    }
  }

  /** A fence without '}' can only be removed from the trailing frame. */
  lemma TrimSuffixFrame(a: string, p: string, b: string, f: string) returns (b': string)
    requires Free(b, '}') && BraceObject(p) && Free(f, '}')
    ensures TrimSuffix(a + p + b, f) == a + p + b' && Free(b', '}')
  {
    var x := a + p + b;
    if HasSuffix(x, f) {
      var k := |x| - |f|;
      assert forall i :: k <= i < |x| ==> x[i] != '}' by {
        forall i | k <= i < |x|
          ensures x[i] != '}'
        {
          assert x[i] == x[k..][i - k];
        }
      }
      assert x[|a| + |p| - 1] == '}';
      b' := b[..|b| - |f|];
      assert x[..|x| - |f|] == a + p + b';
    } else {
      b' := b;
    }
  }

  lemma SliceFramed(a: string, p: string, b: string)
    requires Free(a, '{') && Free(b, '}') && BraceObject(p)
    ensures SliceBraces(a + p + b) == p
  {
    var x := a + p + b;
    assert x[|a|] == '{';
    var i := IndexOfChar(x, '{');
    assert i == |a|;
    var c := x[i..];
    assert c == p + b;
    assert c[|p| - 1] == '}';
    var j := LastIndexOfChar(c, '}');
    assert j == |p| - 1;
    assert c[..j + 1] == p;
  }

  /** Trimming a framed object leaves it framed. */
  lemma TrimFramed(a: string, p: string, b: string) returns (a': string, b': string)
    requires Free(a, '{') && Free(b, '}') && BraceObject(p)
    ensures Trim(a + p + b) == a' + p + b' && Free(a', '{') && Free(b', '}')
  {
    assert !IsSpace(p[0]) && !IsSpace(p[|p| - 1]);
    TrimFrame(a, p, b);
    a', b' := TrimLeft(a), TrimRight(b);
    TrimLeftFree(a, '{');
    TrimRightFree(b, '}');
  }

  /** Removing the fences from a framed object leaves it framed. */
  lemma FencesFramed(a: string, p: string, b: string) returns (a': string, b': string)
    requires Free(a, '{') && Free(b, '}') && BraceObject(p)
    ensures TrimSuffix(TrimPrefix(TrimPrefix(a + p + b, "```json"), "```"), "```") == a' + p + b'
    ensures Free(a', '{') && Free(b', '}')
  {
    var a2 := TrimPrefixFrame(a, p, b, "```json");
    a' := TrimPrefixFrame(a2, p, b, "```");
    b' := TrimSuffixFrame(a', p, b, "```");
  }

  lemma StripFencesFramed(a: string, p: string, b: string) returns (a': string, b': string)
    requires Free(a, '{') && Free(b, '}') && BraceObject(p)
    ensures StripFences(a + p + b) == a' + p + b' && Free(a', '{') && Free(b', '}')
  {
    var a1, b1 := TrimFramed(a, p, b);
    var a2, b2 := FencesFramed(a1, p, b1);
    a', b' := TrimFramed(a2, p, b2);
  }

  /**
   * Whatever precedes the first '{' and follows the last '}' of a JSON
   * object, fences and prose included, is cut away before decoding.
   */
  lemma CleanOfFramed(a: string, p: string, b: string)
    requires BraceObject(p) && '{' !in a && '}' !in b
    ensures Clean(a + p + b) == p
  {
    var a', b' := StripFencesFramed(a, p, b);
    SliceFramed(a', p, b');
  }

  /** A bare JSON object reaches the decoder unchanged. */
  lemma BareObjectUnchanged(p: string)
    requires BraceObject(p)
    ensures Clean(p) == p
  {
    var e: string := [];
    assert e + p + e == p;
    CleanOfFramed(e, p, e);
  }

  /** A ```json fenced object reaches the decoder exactly as the bare object does. */
  lemma FencedObjectUnwrapped(p: string)
    requires BraceObject(p)
    ensures Clean("```json\n" + p + "\n```") == p
  {
    CleanOfFramed("```json\n", p, "\n```");
  }

  // ------------------------------------------------- rejected responses

  /**
   * What `json.Unmarshal` into the payload struct needs: once the
   * surrounding white space is trimmed, the text it accepts is an object or
   * the literal `null`.
   */
  ghost predicate AcceptsOnlyObjects(decode: string -> Result<Payload>) {
    forall t :: decode(t).Ok? ==> Trim(t) == "null" || BraceObject(Trim(t))
  }

  lemma TrimIsInfix(s: string)
    ensures Contains(s, Trim(s))
  {
    var l := TrimLeft(s);
    var r := TrimRight(l);
    var k := |s| - |l|;
    assert s[k..k + |r|] == r;
    assert IsAt(s, r, k);
  }

  lemma TrimPrefixIsInfix(s: string, f: string)
    ensures Contains(s, TrimPrefix(s, f))
  {
    var r := TrimPrefix(s, f);
    var k := |s| - |r|;
    assert s[k..k + |r|] == r;
    assert IsAt(s, r, k);
  }

  lemma TrimSuffixIsInfix(s: string, f: string)
    ensures Contains(s, TrimSuffix(s, f))
  {
    var r := TrimSuffix(s, f);
    assert s[0..|r|] == r;
    assert IsAt(s, r, 0);
  }

  lemma SliceBracesIsInfix(s: string)
    ensures Contains(s, SliceBraces(s))
  {
    var i := IndexOfChar(s, '{');
    var k := if i >= 0 then i else 0;
    var c := s[k..];
    var j := LastIndexOfChar(c, '}');
    var r := if j >= 0 then c[..j + 1] else c;
    assert r == SliceBraces(s);
    assert s[k..k + |r|] == r;
    assert IsAt(s, r, k);
  }

  /** The decoder input is a piece of the raw response. */
  lemma CleanIsInfix(raw: string)
    ensures Contains(raw, Clean(raw))
  {
    var t := Trim(raw);
    var c := TrimPrefix(t, "```json");
    var d := TrimPrefix(c, "```");
    var e := TrimSuffix(d, "```");
    var g := Trim(e);
    assert g == StripFences(raw);
    TrimIsInfix(raw);
    TrimPrefixIsInfix(t, "```json");
    TrimPrefixIsInfix(c, "```");
    TrimSuffixIsInfix(d, "```");
    TrimIsInfix(e);
    SliceBracesIsInfix(g);
    ContainsTransitive(raw, t, c);
    ContainsTransitive(raw, c, d);
    ContainsTransitive(raw, d, e);
    ContainsTransitive(raw, e, g);
    ContainsTransitive(raw, g, SliceBraces(g));
  }

  /**
   * A response without any '}' (truncated JSON, HTML, plain text) is
   * rejected, unless it happens to contain the JSON literal `null`.
   */
  lemma BraceFreeIsRejected(raw: string, decode: string -> Result<Payload>)
    requires AcceptsOnlyObjects(decode)
    requires '}' !in raw && !Contains(raw, "null")
    ensures decode(Clean(raw)).Err?
  {
    hide Clean, Contains;
    var c := Clean(raw);
    CleanIsInfix(raw);
    if decode(c).Ok? {
      var v := Trim(c);
      TrimIsInfix(c);
      ContainsTransitive(raw, c, v);
      if v == "null" {
        assert false;
      } else {
        ContainsChar(raw, v, |v| - 1);
      }
    }
  }

  /** A response cut off before its closing brace is rejected. */
  lemma TruncatedRejected(decode: string -> Result<Payload>)
    requires AcceptsOnlyObjects(decode)
    ensures decode(Clean("{\"tldr\":\"x\",\"key_insights\":[\"a\"]")).Err?
  {
    hide Clean;
    var raw := "{\"tldr\":\"x\",\"key_insights\":[\"a\"]";
    if Contains(raw, "null") {
      ContainsChar(raw, "null", 1);
    }
    BraceFreeIsRejected(raw, decode);
  }

  /** A gateway's HTML error page is rejected. */
  lemma HtmlRejected(decode: string -> Result<Payload>)
    requires AcceptsOnlyObjects(decode)
    ensures decode(Clean("<html>bad gateway</html>")).Err?
  {
    hide Clean;
    var raw := "<html>bad gateway</html>";
    if Contains(raw, "null") {
      ContainsChar(raw, "null", 1);
    }
    BraceFreeIsRejected(raw, decode);
  }

  /** Plain prose without JSON is rejected. */
  lemma ProseRejected(decode: string -> Result<Payload>)
    requires AcceptsOnlyObjects(decode)
    ensures decode(Clean("just text")).Err?
  {
    hide Clean;
    var raw := "just text";
    if Contains(raw, "null") {
      ContainsChar(raw, "null", 2);
    }
    BraceFreeIsRejected(raw, decode);
  }
}
