/**
 * The interactive chat session (cmd/chat.go): the rolling conversation
 * context, the slash commands, and what one line of input does. The
 * terminal (prompt, spinner, banner, colours), the stdin reader goroutine
 * and the interrupt signal are left out; the API call is the parameter
 * `send`.
 */
module ChatCommand {
  import opened Wrappers
  import opened Text
  import opened AppTypes

  /** The context keeps the last 20 messages, that is the last 10 exchanges. */
  const MaxContextMessages := 20

  /** The slash commands; anything else starting with '/' is unknown. */
  datatype Command = Clear | ShowModel | Exit | Help | ShowContext | Unknown(input: string)

  /** What one line of input led to. */
  datatype Outcome = Skipped | Ran(command: Command) | Failed(error: string) | Replied(response: string)

  /** The command a line names, matched case-insensitively. */
  function CommandOf(input: string): (c: Command)
    ensures c.Unknown? <==> Lower(input) !in {"/clear", "/model", "/exit", "/quit", "/help", "/?", "/context"}
  {
    match Lower(input)
    case "/clear" => Clear
    case "/model" => ShowModel
    case "/exit" => Exit
    case "/quit" => Exit
    case "/help" => Help
    case "/?" => Help
    case "/context" => ShowContext
    case _ => Unknown(input)
  }

  /** A line whose lower-cased form starts with '/' starts with '/' itself. */
  lemma LowerKeepsSlash(input: string)
    requires HasPrefix(Lower(input), "/")
    ensures HasPrefix(input, "/")
  {
    LowerAt(input);
    assert LowerChar(input[0]) == '/';
  }

  /** The context after an exchange: the oldest exchange goes once the window overflows. */
  function Window(ctx: seq<Message>): (w: seq<Message>)
    ensures |ctx| > MaxContextMessages ==> w == ctx[2..]
    ensures |ctx| <= MaxContextMessages ==> w == ctx
  {
    if |ctx| > MaxContextMessages then ctx[2..] else ctx
  }

  /** The context alternates user and assistant messages, starting with the user. */
  predicate Alternating(ctx: seq<Message>) {
    forall i :: 0 <= i < |ctx| ==> ctx[i].role == (if i % 2 == 0 then "user" else "assistant")
  }

  /** A well-formed context: whole exchanges, at most the window's size. */
  predicate WellFormed(ctx: seq<Message>) {
    |ctx| <= MaxContextMessages && |ctx| % 2 == 0 && Alternating(ctx)
  }

  /** Recording an exchange keeps the context well formed and ends it with that exchange. */
  lemma {:induction false} RecordKeepsWellFormed(ctx: seq<Message>, input: string, response: string)
    requires WellFormed(ctx)
    ensures var next := Window(ctx + [Message("user", input), Message("assistant", response)]);
      && WellFormed(next)
      && next[|next| - 2..] == [Message("user", input), Message("assistant", response)]
      && (|ctx| < MaxContextMessages ==> next[..|ctx|] == ctx)
      && (|ctx| == MaxContextMessages ==> next[..|ctx| - 2] == ctx[2..])
  {
    var full := ctx + [Message("user", input), Message("assistant", response)];
    assert Alternating(full);
    if |full| > MaxContextMessages {
      var next := full[2..];
      forall i | 0 <= i < |next|
        ensures next[i].role == (if i % 2 == 0 then "user" else "assistant")
      {
        assert next[i] == full[i + 2];
        assert (i + 2) % 2 == i % 2;
      }
    }
  }

  /** The options one message is sent with: the defaults, the context, and the file only while the context is empty. */
  function RequestOptions(base: ChatOptions, ctx: seq<Message>): (o: ChatOptions)
    ensures o.context == ctx
    ensures o.filePath == (if |ctx| > 0 then "" else base.filePath)
    ensures o.model == base.model && o.temperature == base.temperature
    ensures o.maxTokens == base.maxTokens && o.topP == base.topP
  {
    var opts := base.(context := ctx);
    if |ctx| > 0 then opts.(filePath := "") else opts
  }

  // -------------------------------------------------------- reading input

  /** What one read of standard input yields: a line, end of input, or a read error. */
  datatype ReadResult = Line(text: string) | EndOfInput | ReadError(message: string)

  /** What the REPL does after one read: stop, prompt again, or handle the trimmed line. */
  datatype Dispatch = Stop | Reprompt | Handle(input: string)

  /**
   * The exit test of the REPL as written. The reader passes on
   * `scanner.Err()` when `Scan` fails, and a Scanner reports no error at end
   * of input, so end of input arrives as an empty text with no error: the
   * exit test fails and the blank-line test prompts again.
   */
  function DispatchAsWritten(r: ReadResult): (d: Dispatch)
    ensures d == Stop <==> r.ReadError?
    ensures r.EndOfInput? ==> d == Reprompt
  {
    var err: Option<string> := if r.ReadError? then Some(r.message) else None;
    var text := if r.Line? then r.text else "";
    if err.Some? || (text == "" && err.Some?) then Stop
    else if Trim(text) == "" then Reprompt
    else Handle(Trim(text))
  }

  /** The exit test as intended: end of input ends the session, as a read error does. */
  function DispatchRead(r: ReadResult): (d: Dispatch)
    ensures d == Stop <==> !r.Line?
    ensures r.Line? && Trim(r.text) == "" ==> d == Reprompt
    ensures r.Line? && Trim(r.text) != "" ==> d == Handle(Trim(r.text))
  {
    match r
    case Line(text) => if Trim(text) == "" then Reprompt else Handle(Trim(text))
    case _ => Stop
  }

  /** The k-th read from an input holding `lines`: once they are used up, a Scanner stays at end of input. */
  function ReadAt(lines: seq<string>, k: nat): (r: ReadResult)
    ensures k < |lines| ==> r == Line(lines[k])
    ensures k >= |lines| ==> r == EndOfInput
  {
    if k < |lines| then Line(lines[k]) else EndOfInput
  }

  /** As written, a session whose input ends never stops: every read past the end prompts again. */
  lemma AsWrittenNeverStops(lines: seq<string>)
    ensures forall k: nat :: DispatchAsWritten(ReadAt(lines, k)) != Stop
    ensures forall k: nat :: k >= |lines| ==> DispatchAsWritten(ReadAt(lines, k)) == Reprompt
  {
  }

  /** As intended, a session reads its lines and stops at the first read past them. */
  lemma InputEndStopsSession(lines: seq<string>)
    ensures forall k: nat :: k < |lines| ==> DispatchRead(ReadAt(lines, k)) != Stop
    ensures DispatchRead(ReadAt(lines, |lines|)) == Stop
  {
  }

  /** One chat session: its base options and the conversation so far. */
  class Session {
    var base: ChatOptions
    var context: seq<Message>

    ghost predicate Valid()
      reads this
    {
      WellFormed(context)
    }

    /** A new session: the default options with the --file flag, and no context. */
    constructor(filePath: string)
      ensures Valid()
      ensures base == DefaultChatOptions().(filePath := filePath)
      ensures context == []
    {
      base := DefaultChatOptions().(filePath := filePath);
      context := [];
    }

    /**
     * handleChatCommand: every line starting with '/' is handled (unknown
     * commands included); "/clear" empties the context.
     */
    method HandleChatCommand(input: string) returns (handled: Option<Command>)
      modifies this
      ensures handled.Some? <==> HasPrefix(input, "/")
      ensures handled.Some? ==> handled.value == CommandOf(input)
      ensures context == (if Lower(input) == "/clear" then [] else old(context))
      ensures base == old(base)
    {
      var cmd := CommandOf(input);
      if !cmd.Unknown? {
        LowerKeepsSlash(input);
        if cmd == Clear {
          context := [];
        }
        return Some(cmd);
      }
      if HasPrefix(input, "/") {
        return Some(cmd);
      }
      return None;
    }

    /**
     * One line of the REPL: blank lines are skipped, slash lines run a
     * command, anything else is sent with the context; a reply is
     * appended as an exchange, an error leaves the context as it was.
     */
    method Step(raw: string, send: (string, ChatOptions) -> Result<string>) returns (outcome: Outcome)
      requires Valid()
      modifies this
      ensures Valid()
      ensures base == old(base)
      ensures Trim(raw) == "" ==> outcome == Skipped && context == old(context)
      ensures Trim(raw) != "" && HasPrefix(Trim(raw), "/") ==>
        (outcome == Ran(CommandOf(Trim(raw)))
         && context == (if Lower(Trim(raw)) == "/clear" then [] else old(context)))
      ensures Trim(raw) != "" && !HasPrefix(Trim(raw), "/") && send(Trim(raw), RequestOptions(base, old(context))).Err? ==>
        (outcome == Failed(send(Trim(raw), RequestOptions(base, old(context))).error) && context == old(context))
      ensures Trim(raw) != "" && !HasPrefix(Trim(raw), "/") && send(Trim(raw), RequestOptions(base, old(context))).Ok? ==>
        (var text := send(Trim(raw), RequestOptions(base, old(context))).value;
         outcome == Replied(text)
         && context == Window(old(context) + [Message("user", Trim(raw)), Message("assistant", text)]))
    {
      hide Trim, Lower, CommandOf, HasPrefix, RequestOptions;
      var input := Trim(raw);
      if input == "" {
        return Skipped;
      }
      if HasPrefix(input, "/") {
        var handled := HandleChatCommand(input);
        return Ran(handled.value);
      }
      var opts := RequestOptions(base, context);
      var reply := send(input, opts);
      if reply.Err? {
        return Failed(reply.error);
      }
      RecordKeepsWellFormed(context, input, reply.value);
      context := context + [Message("user", input), Message("assistant", reply.value)];
      if |context| > MaxContextMessages {
        context := context[2..];
      }
      return Replied(reply.value);
    }

    /**
     * One turn of the REPL: a read that ends the session leaves it as it
     * was and yields no outcome; a line is handled by Step.
     */
    method Turn(r: ReadResult, send: (string, ChatOptions) -> Result<string>) returns (outcome: Option<Outcome>)
      requires Valid()
      modifies this
      ensures Valid()
      ensures base == old(base)
      ensures outcome.None? <==> DispatchRead(r) == Stop
      ensures outcome.None? ==> context == old(context)
      ensures DispatchRead(r) == Reprompt ==> outcome == Some(Skipped) && context == old(context)
      ensures r.Line? && HasPrefix(Trim(r.text), "/") ==>
        (outcome == Some(Ran(CommandOf(Trim(r.text))))
         && context == (if Lower(Trim(r.text)) == "/clear" then [] else old(context)))
      ensures r.Line? && Trim(r.text) != "" && !HasPrefix(Trim(r.text), "/")
              && send(Trim(r.text), RequestOptions(base, old(context))).Err? ==>
        (outcome == Some(Failed(send(Trim(r.text), RequestOptions(base, old(context))).error)) && context == old(context))
      ensures r.Line? && Trim(r.text) != "" && !HasPrefix(Trim(r.text), "/")
              && send(Trim(r.text), RequestOptions(base, old(context))).Ok? ==>
        (var text := send(Trim(r.text), RequestOptions(base, old(context))).value;
         outcome == Some(Replied(text))
         && context == Window(old(context) + [Message("user", Trim(r.text)), Message("assistant", text)]))
    {
      if DispatchRead(r) == Stop {
        return None;
      }
      var o := Step(r.text, send);
      return Some(o);
    }
  }

  // ------------------------------------------------------- context view

  /** strings.ReplaceAll(s, "\n", " "). */
  function Unbreak(s: string): (r: string)
    ensures |r| == |s|
    ensures forall i :: 0 <= i < |s| ==> r[i] == (if s[i] == '\n' then ' ' else s[i])
  {
    seq(|s|, i requires 0 <= i < |s| => if s[i] == '\n' then ' ' else s[i])
  }

  /**
   * truncateString: newlines become spaces; a longer text is cut to
   * maxLen characters ending in "...". Go slices at maxLen − 3, which
   * panics below 3, so callers keep maxLen at 3 or more for long texts.
   */
  function TruncateString(s: string, maxLen: int): (r: string)
    requires maxLen >= 3 || |s| <= maxLen
    ensures |Unbreak(s)| <= maxLen ==> r == Unbreak(s)
    ensures |Unbreak(s)| > maxLen ==> |r| == maxLen && HasSuffix(r, "...") && r[..maxLen - 3] == Unbreak(s)[..maxLen - 3]
    ensures |r| <= maxLen && forall i :: 0 <= i < |r| ==> r[i] != '\n'
  {
    var u := Unbreak(s);
    if |u| <= maxLen then u else u[..maxLen - 3] + "..."
  }

  /** Truncating a truncated text changes nothing. */
  lemma TruncateIdempotent(s: string, maxLen: int)
    requires maxLen >= 3 || |s| <= maxLen
    ensures TruncateString(TruncateString(s, maxLen), maxLen) == TruncateString(s, maxLen)
  {
    var t := TruncateString(s, maxLen);
    assert Unbreak(t) == t;
  }

  /** One line of the /context listing: who spoke, then the first 50 characters of what they said. */
  function ContextLine(m: Message): (line: string)
    ensures |line| <= 6 + 50
    ensures HasPrefix(line, if m.role == "user" then "[You] " else "[Syn] ")
  {
    var who := if m.role == "user" then "[You] " else "[Syn] ";
    who + TruncateString(m.content, 50)
  }
}
