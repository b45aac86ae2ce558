/**
 * The pure helpers of the API client (internal/app/client.go): message
 * and request assembly, retry classification, the un-jittered backoff,
 * the retry loop with the request itself as a parameter, the fold over
 * server-sent-event lines, and the image MIME type.
 */
module ClientHelpers {
  import opened Wrappers
  import opened Text
  import opened AppTypes

  // ------------------------------------------------------------ messages

  const SystemPrompt := "Be concise and direct. Answer briefly and to the point."

  /** buildMessages: the fixed system message, then the user's content. */
  function BuildMessages(content: string): (ms: seq<Message>)
    ensures |ms| == 2
    ensures ms[0].role == "system" && ms[0].content == SystemPrompt
    ensures ms[1].role == "user" && ms[1].content == content
  {
    [Message("system", SystemPrompt), Message("user", content)]
  }

  /** buildMessagesWithContext: the earlier conversation, then the two messages of this turn. */
  function BuildMessagesWithContext(content: string, opts: ChatOptions): (ms: seq<Message>)
    ensures |ms| == |opts.context| + 2
    ensures ms[..|opts.context|] == opts.context
    ensures ms[|opts.context|..] == BuildMessages(content)
  {
    if |opts.context| > 0 then opts.context + BuildMessages(content) else BuildMessages(content)
  }

  // ------------------------------------------------------------- request

  const DefaultTemperature: real := 0.6
  const DefaultMaxTokens: int := 8192
  const DefaultTopP: real := 0.9

  /**
   * buildChatRequest: the configured model (resolved), each option or its
   * default, and an option model, when set, overriding the configured one.
   */
  method BuildChatRequest(configModel: string, messages: seq<Message>, opts: ChatOptions) returns (req: ChatRequest)
    ensures req.messages == messages
    ensures req.temperature == (if opts.temperature.Some? then opts.temperature.value else DefaultTemperature)
    ensures req.maxTokens == (if opts.maxTokens.Some? then opts.maxTokens.value else DefaultMaxTokens)
    ensures req.topP == (if opts.topP.Some? then opts.topP.value else DefaultTopP)
    ensures req.model == ResolveModel(if opts.model != "" then opts.model else configModel)
    ensures !req.stream && req.includeUsage.None?
  {
    req := ChatRequest(ResolveModel(configModel), messages, 0.0, 0, 0.0, false, None);
    if opts.temperature.Some? {
      req := req.(temperature := opts.temperature.value);
    } else {
      req := req.(temperature := DefaultTemperature);
    }
    if opts.maxTokens.Some? {
      req := req.(maxTokens := opts.maxTokens.value);
    } else {
      req := req.(maxTokens := DefaultMaxTokens);
    }
    if opts.topP.Some? {
      req := req.(topP := opts.topP.value);
    } else {
      req := req.(topP := DefaultTopP);
    }
    if opts.model != "" {
      req := req.(model := ResolveModel(opts.model));
    }
  }

  /** Options with nothing set and the CLI defaults build the same sampling settings. */
  lemma DefaultsAgree()
    ensures DefaultChatOptions().temperature == Some(DefaultTemperature)
    ensures DefaultChatOptions().maxTokens == Some(DefaultMaxTokens)
    ensures DefaultChatOptions().topP == Some(DefaultTopP)
  {
  }

  /** The model of a built request is already resolved: resolving it again changes nothing. */
  lemma RequestModelResolved(configModel: string, opts: ChatOptions)
    ensures ResolveModel(ResolveModel(if opts.model != "" then opts.model else configModel))
      == ResolveModel(if opts.model != "" then opts.model else configModel)
  {
    ResolveModelIdempotent(if opts.model != "" then opts.model else configModel);
  }

  // --------------------------------------------------------------- retry

  /** What the client sees of an error: its message, and whether it reports a network timeout. */
  datatype Failure = Failure(message: string, timeout: bool)

  const RetryablePatterns: seq<string> := [
    "connection refused", "connection reset", "temporary failure", "timeout", "429", "503", "502", "504"]

  /** An error is retryable when it is a timeout or its lower-cased message mentions a listed pattern. */
  predicate Retryable(err: Option<Failure>) {
    err.Some? && (err.value.timeout
      || exists k :: 0 <= k < |RetryablePatterns| && Contains(Lower(err.value.message), RetryablePatterns[k]))
  }

  /** isRetryableError: nil is not retryable; a timeout is; otherwise the patterns are tried in order. */
  method IsRetryableError(err: Option<Failure>) returns (b: bool)
    ensures b <==> Retryable(err)
    ensures err.None? ==> !b
  {
    if err.None? {
      return false;
    }
    if err.value.timeout {
      return true;
    }
    var msg := Lower(err.value.message);
    var k := 0;
    while k < |RetryablePatterns|
      invariant 0 <= k <= |RetryablePatterns|
      invariant forall j :: 0 <= j < k ==> !Contains(msg, RetryablePatterns[j])
    {
      if Contains(msg, RetryablePatterns[k]) {
        return true;
      }
      k := k + 1;
    }
    return false;
  }

  /** Upper-case spellings count: a message is judged by its lower-cased text. */
  lemma RetryableIgnoresCase(a: string, b: string, timeout: bool)
    requires Lower(a) == Lower(b)
    ensures Retryable(Some(Failure(a, timeout))) <==> Retryable(Some(Failure(b, timeout)))
  {
  }

  /** Text without upper-case ASCII letters. */
  predicate NoUpper(s: string) {
    forall i :: 0 <= i < |s| ==> !('A' <= s[i] <= 'Z')
  }

  lemma PatternsNoUpper()
    ensures forall k :: 0 <= k < |RetryablePatterns| ==> NoUpper(RetryablePatterns[k])
  {
    assert NoUpper("connection refused");
    assert NoUpper("connection reset");
    assert NoUpper("temporary failure");
    assert NoUpper("timeout");
    assert NoUpper("429") && NoUpper("503") && NoUpper("502") && NoUpper("504");
  }

  /** Lower-casing keeps a lower-case piece where it is. */
  lemma LowerKeepsPiece(s: string, p: string, i: int)
    requires IsAt(s, p, i) && NoUpper(p)
    ensures IsAt(Lower(s), p, i)
  {
    LowerAt(s);
    assert forall j :: 0 <= j < |p| ==> s[i + j] == p[j];
  }

  /** A message that mentions a listed pattern, in any case of its other letters, is retryable. */
  lemma MentionedPatternRetryable(msg: string, k: int, i: int)
    requires 0 <= k < |RetryablePatterns| && IsAt(msg, RetryablePatterns[k], i)
    ensures Retryable(Some(Failure(msg, false)))
  {
    PatternsNoUpper();
    LowerKeepsPiece(msg, RetryablePatterns[k], i);
  }

  /** API errors with status 429, 502, 503 or 504 are retried; the status sits after "API error: ". */
  lemma OverloadedStatusRetryable(e: APIError)
    requires e.statusCode in {429, 502, 503, 504}
    ensures Retryable(Some(Failure(ErrorText(e), false)))
  {
    var s := ErrorText(e);
    var code := Itoa(e.statusCode);
    assert code == [DigitChar(e.statusCode / 100)] + [DigitChar(e.statusCode / 10 % 10)] + [DigitChar(e.statusCode % 10)];
    var k := if e.statusCode == 429 then 4 else if e.statusCode == 503 then 5 else if e.statusCode == 502 then 6 else 7;
    assert RetryablePatterns[k] == code;
    assert s[..|ApiErrorHead| + |code| + 3] == ApiErrorHead + code + " - ";
    assert s[11..14] == code;
    MentionedPatternRetryable(s, k, 11);
  }

  /** time.Second in nanoseconds. */
  const Second: int := 1_000_000_000

  /** The retry settings after defaulting: at least one attempt, 1s and 30s for unset backoffs. */
  function Effective(cfg: RetryConfig): (e: RetryConfig)
    ensures e.maxAttempts >= 1 && e.initialBackoff >= 1 && e.maxBackoff >= 1
    ensures cfg.maxAttempts >= 1 ==> e.maxAttempts == cfg.maxAttempts
    ensures cfg.initialBackoff >= 1 ==> e.initialBackoff == cfg.initialBackoff
    ensures cfg.maxBackoff >= 1 ==> e.maxBackoff == cfg.maxBackoff
    ensures cfg.maxAttempts < 1 ==> e.maxAttempts == 1
    ensures cfg.initialBackoff < 1 ==> e.initialBackoff == Second
    ensures cfg.maxBackoff < 1 ==> e.maxBackoff == 30 * Second
  {
    RetryConfig(
      if cfg.maxAttempts > 1 then cfg.maxAttempts else 1,
      if cfg.initialBackoff < 1 then Second else cfg.initialBackoff,
      if cfg.maxBackoff < 1 then 30 * Second else cfg.maxBackoff)
  }

  function Pow2(n: nat): (p: nat)
    ensures p >= 1
  {
    if n == 0 then 1 else 2 * Pow2(n - 1)
  }

  /** The exponent calculateBackoff uses: attempt − 1, clamped to [0, 61]. */
  function Shift(attempt: int): (s: nat)
    ensures s <= 61
  {
    var a := if attempt < 62 then attempt else 62;
    if a - 1 > 0 then a - 1 else 0
  }

  /**
   * calculateBackoff without its jitter: initial · 2^(attempt − 1), capped
   * at the maximum. Durations are unbounded here, so the int64 overflow
   * of a large product is not modelled.
   */
  function Backoff(attempt: int, initial: int, maxBackoff: int): (d: int)
    ensures d <= maxBackoff
    ensures d == maxBackoff || d == initial * Pow2(Shift(attempt))
  {
    var b := initial * Pow2(Shift(attempt));
    if b < maxBackoff then b else maxBackoff
  }

  lemma Pow2Monotone(m: nat, n: nat)
    requires m <= n
    ensures Pow2(m) <= Pow2(n)
  {
  }

  /** Later attempts never wait less; the wait before the second attempt is twice the initial backoff (or the cap). */
  lemma BackoffGrows(a1: int, a2: int, initial: int, maxBackoff: int)
    requires a1 <= a2 && initial >= 0
    ensures Backoff(a1, initial, maxBackoff) <= Backoff(a2, initial, maxBackoff)
    ensures Backoff(2, initial, maxBackoff) == (if 2 * initial < maxBackoff then 2 * initial else maxBackoff)
  {
    Pow2Monotone(Shift(a1), Shift(a2));
    MulMonotone(initial, Pow2(Shift(a1)), Pow2(Shift(a2)));
    assert Shift(2) == 1;
    assert Pow2(1) == 2;
  }

  /** Below the cap, each further attempt (up to the 62nd) waits twice as long as the one before. */
  lemma BackoffDoubles(attempt: int, initial: int, maxBackoff: int)
    requires 2 <= attempt < 62 && maxBackoff >= 1
    requires 2 * Backoff(attempt, initial, maxBackoff) < maxBackoff
    ensures Backoff(attempt + 1, initial, maxBackoff) == 2 * Backoff(attempt, initial, maxBackoff)
  {
    var s := Shift(attempt);
    assert Shift(attempt + 1) == s + 1;
    assert Pow2(s + 1) == 2 * Pow2(s);
    var b := initial * Pow2(s);
    assert initial * Pow2(s + 1) == 2 * b by {
      assert initial * (2 * Pow2(s)) == 2 * (initial * Pow2(s));
    }
  }

  lemma MulMonotone(k: int, x: int, y: int)
    requires k >= 0 && x <= y
    ensures k * x <= k * y
  {
  }

  /** The result of one request: a reply and its usage, or a failure. */
  datatype Attempt = Reply(content: string, usage: Usage) | Failed(failure: Failure)

  /** What the retry loop returns: the first reply, or an error. */
  datatype RetryOutcome = Answer(content: string, usage: Usage) | Cancelled(reason: string) | GaveUp(message: string)

  /**
   * The retry loop from attempt `attempt` on, as a function: a cancelled
   * context ends it; a reply is returned; a failure that is not
   * retryable, or on the last attempt, gives up with the last error.
   */
  function RetryFrom(attempt: nat, maxAttempts: nat, send: nat -> Attempt, cancelled: nat -> Option<string>): (o: RetryOutcome)
    requires 1 <= attempt <= maxAttempts
    decreases maxAttempts - attempt
  {
    if cancelled(attempt).Some? then Cancelled(cancelled(attempt).value)
    else match send(attempt)
      case Reply(c, u) => Answer(c, u)
      case Failed(f) =>
        if !Retryable(Some(f)) || attempt == maxAttempts then
          GaveUp("request failed after " + Itoa(maxAttempts) + " attempts: " + f.message)
        else RetryFrom(attempt + 1, maxAttempts, send, cancelled)
  }

  /** The number of requests the loop sends from attempt `attempt` on. */
  function RequestsFrom(attempt: nat, maxAttempts: nat, send: nat -> Attempt, cancelled: nat -> Option<string>): (n: nat)
    requires 1 <= attempt <= maxAttempts
    ensures n <= maxAttempts - attempt + 1
    decreases maxAttempts - attempt
  {
    if cancelled(attempt).Some? then 0
    else match send(attempt)
      case Reply(_, _) => 1
      case Failed(f) =>
        if !Retryable(Some(f)) || attempt == maxAttempts then 1
        else 1 + RequestsFrom(attempt + 1, maxAttempts, send, cancelled)
  }

  /**
   * doRequestWithRetry. `send(k)` is what the k-th request returns and
   * `cancelled(k)` whether the context is done before (or while waiting
   * for) the k-th attempt. Returns the outcome, the number of requests
   * sent and the backoffs waited.
   */
  method DoRequestWithRetry(cfg: RetryConfig, send: nat -> Attempt, cancelled: nat -> Option<string>)
    returns (o: RetryOutcome, requests: nat, waits: seq<int>)
    ensures o == RetryFrom(1, Effective(cfg).maxAttempts, send, cancelled)
    ensures requests == RequestsFrom(1, Effective(cfg).maxAttempts, send, cancelled)
    ensures requests <= Effective(cfg).maxAttempts
    ensures |waits| == if requests == 0 then 0 else requests - 1
    ensures forall k :: 0 <= k < |waits| ==>
      waits[k] == Backoff(k + 2, Effective(cfg).initialBackoff, Effective(cfg).maxBackoff)
  {
    var e := Effective(cfg);
    var maxAttempts := e.maxAttempts;
    requests := 0;
    waits := [];
    var lastErr := "";
    var attempt := 1;
    while attempt <= maxAttempts
      invariant 1 <= attempt <= maxAttempts
      invariant requests == attempt - 1 && |waits| == if attempt > 1 then attempt - 2 else 0
      invariant forall k :: 0 <= k < |waits| ==> waits[k] == Backoff(k + 2, e.initialBackoff, e.maxBackoff)
      invariant RetryFrom(1, maxAttempts, send, cancelled) == RetryFrom(attempt, maxAttempts, send, cancelled)
      invariant RequestsFrom(1, maxAttempts, send, cancelled) == requests + RequestsFrom(attempt, maxAttempts, send, cancelled)
      decreases maxAttempts - attempt
    {
      if cancelled(attempt).Some? {
        return Cancelled(cancelled(attempt).value), requests, waits;
      }
      if attempt > 1 {
        waits := waits + [Backoff(attempt, e.initialBackoff, e.maxBackoff)];
      }
      var result := send(attempt);
      requests := requests + 1;
      if result.Reply? {
        return Answer(result.content, result.usage), requests, waits;
      }
      lastErr := result.failure.message;
      var retry := IsRetryableError(Some(result.failure));
      if !retry || attempt == maxAttempts {
        break;
      }
      attempt := attempt + 1;
    }
    o := GaveUp("request failed after " + Itoa(maxAttempts) + " attempts: " + lastErr);
  }

  /** A first request that succeeds is the answer, and it is the only request. */
  lemma FirstReplyWins(maxAttempts: nat, send: nat -> Attempt, cancelled: nat -> Option<string>)
    requires maxAttempts >= 1 && cancelled(1).None? && send(1).Reply?
    ensures RetryFrom(1, maxAttempts, send, cancelled) == Answer(send(1).content, send(1).usage)
    ensures RequestsFrom(1, maxAttempts, send, cancelled) == 1
  {
  }

  /** A failure that is not retryable is never retried. */
  lemma PermanentFailureStops(maxAttempts: nat, send: nat -> Attempt, cancelled: nat -> Option<string>)
    requires maxAttempts >= 1 && cancelled(1).None? && send(1).Failed? && !Retryable(Some(send(1).failure))
    ensures RetryFrom(1, maxAttempts, send, cancelled).GaveUp?
    ensures RequestsFrom(1, maxAttempts, send, cancelled) == 1
  {
  }

  /** When every request fails with a retryable error, the loop sends exactly the maximum number. */
  lemma {:induction false} TransientFailuresExhaust(attempt: nat, maxAttempts: nat, send: nat -> Attempt, cancelled: nat -> Option<string>)
    requires 1 <= attempt <= maxAttempts
    requires forall k :: attempt <= k <= maxAttempts ==>
      cancelled(k).None? && send(k).Failed? && Retryable(Some(send(k).failure))
    ensures RequestsFrom(attempt, maxAttempts, send, cancelled) == maxAttempts - attempt + 1
    ensures RetryFrom(attempt, maxAttempts, send, cancelled).GaveUp?
    decreases maxAttempts - attempt
  {
    if attempt < maxAttempts {
      TransientFailuresExhaust(attempt + 1, maxAttempts, send, cancelled);
    }
  }

  // ----------------------------------------------------------------- SSE

  /** A decoded stream chunk: the delta texts of its choices and its usage, if it has one. */
  datatype StreamChunk = StreamChunk(deltas: seq<string>, usage: Option<Usage>)

  const DataPrefix := "data: "
  const Done := "[DONE]"

  /** The payloads of the "data: " lines from line `i` on, up to the first "[DONE]". */
  function Payloads(lines: seq<string>, i: nat): (ps: seq<string>)
    requires i <= |lines|
    ensures |ps| <= |lines| - i
    decreases |lines| - i
  {
    if i == |lines| then []
    else if !HasPrefix(lines[i], DataPrefix) then Payloads(lines, i + 1)
    else if TrimPrefix(lines[i], DataPrefix) == Done then []
    else [TrimPrefix(lines[i], DataPrefix)] + Payloads(lines, i + 1)
  }

  /** The delta texts of a chunk, concatenated. */
  function DeltaText(deltas: seq<string>): string
    decreases |deltas|
  {
    if |deltas| == 0 then "" else DeltaText(deltas[..|deltas| - 1]) + deltas[|deltas| - 1]
  }

  /** A chunk with a non-empty delta carries a token. */
  predicate HasDelta(c: StreamChunk) {
    exists j :: 0 <= j < |c.deltas| && c.deltas[j] != ""
  }

  /** The text of the payloads the decoder accepts, in order; the others are skipped. */
  function StreamText(payloads: seq<string>, decode: string -> Option<StreamChunk>): string
    decreases |payloads|
  {
    if |payloads| == 0 then ""
    else
      var rest := StreamText(payloads[1..], decode);
      if decode(payloads[0]).Some? then DeltaText(decode(payloads[0]).value.deltas) + rest else rest
  }

  /** The usage of the last accepted chunk that carries one, else `prev`. */
  function LastUsage(payloads: seq<string>, decode: string -> Option<StreamChunk>, prev: Usage): Usage
    decreases |payloads|
  {
    if |payloads| == 0 then prev
    else
      var d := decode(payloads[0]);
      LastUsage(payloads[1..], decode, if d.Some? && d.value.usage.Some? then d.value.usage.value else prev)
  }

  /** The first line from `i` on, before any "[DONE]", whose chunk carries a token. */
  function TokenLine(lines: seq<string>, i: nat, decode: string -> Option<StreamChunk>): (k: Option<nat>)
    requires i <= |lines|
    ensures k.Some? ==> (i <= k.value < |lines| && HasPrefix(lines[k.value], DataPrefix)
                         && decode(TrimPrefix(lines[k.value], DataPrefix)).Some?
                         && HasDelta(decode(TrimPrefix(lines[k.value], DataPrefix)).value))
    decreases |lines| - i
  {
    if i == |lines| then None
    else if !HasPrefix(lines[i], DataPrefix) then TokenLine(lines, i + 1, decode)
    else if TrimPrefix(lines[i], DataPrefix) == Done then None
    else
      var d := decode(TrimPrefix(lines[i], DataPrefix));
      if d.Some? && HasDelta(d.value) then Some(i) else TokenLine(lines, i + 1, decode)
  }

  /** A token line exists exactly when some accepted payload carries a token. */
  lemma {:induction false} TokenLineFound(lines: seq<string>, i: nat, decode: string -> Option<StreamChunk>)
    requires i <= |lines|
    ensures TokenLine(lines, i, decode).Some? <==>
      exists p :: p in Payloads(lines, i) && decode(p).Some? && HasDelta(decode(p).value)
    decreases |lines| - i
  {
    if i < |lines| {
      TokenLineFound(lines, i + 1, decode);
    }
  }

  /** How the stream functions advance over line `i`. */
  lemma SSEStep(lines: seq<string>, i: nat, decode: string -> Option<StreamChunk>, usage: Usage)
    requires i < |lines|
    ensures !HasPrefix(lines[i], DataPrefix) ==>
      Payloads(lines, i) == Payloads(lines, i + 1) && TokenLine(lines, i, decode) == TokenLine(lines, i + 1, decode)
    ensures HasPrefix(lines[i], DataPrefix) && TrimPrefix(lines[i], DataPrefix) == Done ==>
      Payloads(lines, i) == [] && TokenLine(lines, i, decode).None?
    ensures HasPrefix(lines[i], DataPrefix) && TrimPrefix(lines[i], DataPrefix) != Done ==>
      var d := decode(TrimPrefix(lines[i], DataPrefix));
      && StreamText(Payloads(lines, i), decode)
         == (if d.Some? then DeltaText(d.value.deltas) else "") + StreamText(Payloads(lines, i + 1), decode)
      && LastUsage(Payloads(lines, i), decode, usage)
         == LastUsage(Payloads(lines, i + 1), decode, if d.Some? && d.value.usage.Some? then d.value.usage.value else usage)
      && TokenLine(lines, i, decode) == (if d.Some? && HasDelta(d.value) then Some(i) else TokenLine(lines, i + 1, decode))
  {
    if HasPrefix(lines[i], DataPrefix) && TrimPrefix(lines[i], DataPrefix) != Done {
      var data := TrimPrefix(lines[i], DataPrefix);
      assert Payloads(lines, i) == [data] + Payloads(lines, i + 1);
      assert ([data] + Payloads(lines, i + 1))[1..] == Payloads(lines, i + 1);
    }
  }

  lemma SSEEnd(lines: seq<string>, decode: string -> Option<StreamChunk>)
    ensures Payloads(lines, |lines|) == [] && TokenLine(lines, |lines|, decode).None?
    ensures StreamText([], decode) == "" && forall u :: LastUsage([], decode, u) == u
  {
  }

  /** Appends the deltas of one chunk, as readSSEStream's inner loop does; reports whether one was non-empty. */
  method AppendDeltas(content: string, deltas: seq<string>) returns (out: string, any: bool)
    ensures out == content + DeltaText(deltas)
    ensures any <==> HasDelta(StreamChunk(deltas, None))
  {
    out, any := content, false;
    var j := 0;
    while j < |deltas|
      invariant 0 <= j <= |deltas|
      invariant out == content + DeltaText(deltas[..j])
      invariant any <==> exists m :: 0 <= m < j && deltas[m] != ""
    {
      assert deltas[..j + 1][..j] == deltas[..j];
      if deltas[j] != "" {
        any := true;
        out := out + deltas[j];
      } else {
        assert out + deltas[j] == out;
      }
      j := j + 1;
    }
    assert deltas[..j] == deltas;
  }

  /**
   * readSSEStream. `lines` are the lines the scanner yields, `scanError`
   * the error it ends with, and `elapsedAt(k)` the milliseconds since the
   * request started when line k is read (the clock is a parameter).
   */
  method ReadSSEStream(lines: seq<string>, scanError: Option<string>, decode: string -> Option<StreamChunk>,
                       elapsedAt: nat -> int)
    returns (r: Result<StreamResult>)
    ensures scanError.Some? ==> r == Err("failed to read stream: " + scanError.value)
    ensures scanError.None? ==> r.Ok?
    ensures scanError.None? ==> r.value.content == StreamText(Payloads(lines, 0), decode)
    ensures scanError.None? ==> r.value.usage == LastUsage(Payloads(lines, 0), decode, ZeroUsage)
    ensures scanError.None? ==>
      r.value.ttfMs == (match TokenLine(lines, 0, decode) case Some(k) => elapsedAt(k) case None => 0)
  {
    var content := "";
    var usage := ZeroUsage;
    var ttf := 0;
    var gotFirstToken := false;
    ghost var first := 0;
    SSEEnd(lines, decode);
    hide Payloads, StreamText, LastUsage, TokenLine, DeltaText;
    var i := 0;
    while i < |lines|
      invariant 0 <= i <= |lines|
      invariant content + StreamText(Payloads(lines, i), decode) == StreamText(Payloads(lines, 0), decode)
      invariant LastUsage(Payloads(lines, i), decode, usage) == LastUsage(Payloads(lines, 0), decode, ZeroUsage)
      invariant !gotFirstToken ==> ttf == 0 && TokenLine(lines, 0, decode) == TokenLine(lines, i, decode)
      invariant gotFirstToken ==> TokenLine(lines, 0, decode) == Some(first) && ttf == elapsedAt(first)
    {
      var line := lines[i];
      SSEStep(lines, i, decode, usage);
      if HasPrefix(line, DataPrefix) {
        var data := TrimPrefix(line, DataPrefix);
        if data == Done {
          break;
        }
        var chunk := decode(data);
        if chunk.Some? {
          if chunk.value.usage.Some? {
            usage := chunk.value.usage.value;
          }
          var before := content;
          var any;
          content, any := AppendDeltas(content, chunk.value.deltas);
          assert before + (DeltaText(chunk.value.deltas) + StreamText(Payloads(lines, i + 1), decode))
            == content + StreamText(Payloads(lines, i + 1), decode);
          assert any <==> HasDelta(chunk.value);
          if any && !gotFirstToken {
            ttf := elapsedAt(i);
            gotFirstToken := true;
            first := i;
          }
        } else {
          assert "" + StreamText(Payloads(lines, i + 1), decode) == StreamText(Payloads(lines, i + 1), decode);
        }
      }
      i := i + 1;
    }
    if scanError.Some? {
      return Err("failed to read stream: " + scanError.value);
    }
    r := Ok(StreamResult(content, usage, ttf));
  }

  // ------------------------------------------------------------ images

  /** imageMIMEType: png, gif and webp by extension, ignoring case; everything else is JPEG. */
  function ImageMimeType(ext: string): (t: string)
    ensures t in {"image/png", "image/gif", "image/webp", "image/jpeg"}
    ensures t == "image/png" <==> Lower(ext) == ".png"
    ensures t == "image/gif" <==> Lower(ext) == ".gif"
    ensures t == "image/webp" <==> Lower(ext) == ".webp"
  {
    match Lower(ext)
    case ".png" => "image/png"
    case ".gif" => "image/gif"
    case ".webp" => "image/webp"
    case _ => "image/jpeg"
  }

  /** The MIME type does not depend on the extension's case. */
  lemma ImageMimeTypeIgnoresCase(a: string, b: string)
    requires Lower(a) == Lower(b)
    ensures ImageMimeType(a) == ImageMimeType(b)
  {
  }
}
