/** The LLM client of src/lib/anthropic.ts: the system prompt with the knowledge
    context, the chat-completions request, the one-shot reply, and the line
    framing of the streamed reply (server-sent events, section 9.2 of the WHATWG
    HTML Living Standard, read the simplified way the client reads them). The
    HTTP exchange is a parameter: a function from the request sent to the
    reply received. JSON parsing of a reply is a parameter as well. */
module Anthropic {
  import opened Common

  /** `ChatMessage` (lines 1-4). The role is a string: callers cast stored
      roles to it unchecked. */
  datatype ChatMessage = ChatMessage(role: string, content: string)

  /** A message as it goes over the wire. */
  datatype WireMessage = WireMessage(role: string, content: string)

  /** The JSON body of the request (lines 26-36 and 69-80). */
  datatype RequestBody = RequestBody(model: string, messages: seq<WireMessage>, maxTokens: nat, stream: bool)

  /** What a one-shot call gets back: `response.ok`, the status, the body as
      text, and `data.choices?.[0]?.message?.content` once parsed. */
  datatype Reply = Reply(ok: bool, status: nat, text: string, firstContent: Option<string>)

  /** What a streaming call gets back: the chunks of the body, decoded, or no
      body at all. */
  datatype StreamReply = StreamReply(ok: bool, status: nat, text: string, body: Option<seq<string>>)

  const Model: string := "anthropic/claude-3.5-sonnet"
  const MaxTokens: nat := 1024
  const NoApiKey: string := "OPENROUTER_API_KEY is not configured"
  const NoBody: string := "No response body"
  const ContextHeader: string := "\n\nהנה מידע רלוונטי מבסיס הידע שלך:\n"
  const ContextFooter: string := "\n\nהשתמש במידע הזה כדי לענות על שאלות המשתמש. אם המידע לא רלוונטי לשאלה, אל תציין אותו."
  const DataPrefix: string := "data: "
  const Done: string := "data: [DONE]"

  // ---------------------------------------------------------------------------
  // The request (lines 11-37 and 54-81)
  // ---------------------------------------------------------------------------

  /** Lines 15-17 and 58-60: the knowledge context, when there is one, goes
      between a fixed header and a fixed footer after the chatbot's prompt. */
  function FullSystemPrompt(systemPrompt: string, context: string): string {
    if context == "" then systemPrompt else systemPrompt + ContextHeader + context + ContextFooter
  }

  /** The prompt keeps the chatbot's prompt in front, and the context can be
      read back from it between the header and the footer. */
  lemma FullSystemPromptShape(systemPrompt: string, context: string)
    ensures var p := FullSystemPrompt(systemPrompt, context);
      && (context == "" ==> p == systemPrompt)
      && (context != "" ==>
            && |p| == |systemPrompt| + |ContextHeader| + |context| + |ContextFooter|
            && StartsWith(p, systemPrompt + ContextHeader)
            && p[|systemPrompt| + |ContextHeader|..|p| - |ContextFooter|] == context
            && EndsWith(p, ContextFooter))
  {
    if context != "" {
      var p := FullSystemPrompt(systemPrompt, context);
      var h := systemPrompt + ContextHeader;
      assert p == h + context + ContextFooter;
      assert p[..|h|] == h;
      assert p[|h|..|p| - |ContextFooter|] == context;
      assert p[|p| - |ContextFooter|..] == ContextFooter;
    }
  }

  /** Two prompts with the same chatbot prompt and different contexts differ. */
  lemma FullSystemPromptInjective(systemPrompt: string, c1: string, c2: string)
    requires FullSystemPrompt(systemPrompt, c1) == FullSystemPrompt(systemPrompt, c2)
    ensures c1 == c2
  {
    FullSystemPromptShape(systemPrompt, c1);
    FullSystemPromptShape(systemPrompt, c2);
  }

  /** Lines 28-34 and 71-77: the system message, then the conversation. */
  function WireMessages(messages: seq<ChatMessage>, systemPrompt: string, context: string): (r: seq<WireMessage>)
    ensures |r| == |messages| + 1
    ensures r[0] == WireMessage("system", FullSystemPrompt(systemPrompt, context))
    ensures forall i :: 0 <= i < |messages| ==> r[i + 1] == WireMessage(messages[i].role, messages[i].content)
  {
    [WireMessage("system", FullSystemPrompt(systemPrompt, context))]
      + seq(|messages|, i requires 0 <= i < |messages| => WireMessage(messages[i].role, messages[i].content))
  }

  function Request(messages: seq<ChatMessage>, systemPrompt: string, context: string, stream: bool): RequestBody {
    RequestBody(Model, WireMessages(messages, systemPrompt, context), MaxTokens, stream)
  }

  /** `!process.env.OPENROUTER_API_KEY`: unset or empty. */
  predicate HasKey(apiKey: Option<string>) {
    apiKey.Some? && apiKey.value != ""
  }

  /** Lines 42 and 86. */
  function ApiError(status: nat, text: string): string {
    "OpenRouter API error: " + NatToString(status) + " - " + text
  }

  // ---------------------------------------------------------------------------
  // The one-shot reply (lines 6-47)
  // ---------------------------------------------------------------------------

  /** `generateChatResponse`: the request sent, if any, and what the call
      returns or throws. `send` is the HTTP exchange; a network failure is its
      `Err`. */
  function Generated(apiKey: Option<string>, messages: seq<ChatMessage>, systemPrompt: string, context: string,
                     send: RequestBody -> Result<Reply>): (Option<RequestBody>, Result<string>)
  {
    if !HasKey(apiKey) then (None, Err(NoApiKey))
    else
      var body := Request(messages, systemPrompt, context, false);
      match send(body)
      case Err(m) => (Some(body), Err(m))
      case Ok(reply) =>
        if !reply.ok then (Some(body), Err(ApiError(reply.status, reply.text)))
        else (Some(body), Ok(reply.firstContent.GetOr("")))
  }

  /** Lines 11-46: without a key nothing is sent; otherwise exactly one
      non-streaming request goes out, carrying the system prompt and then the
      conversation; a network failure is rethrown unchanged, a non-ok reply
      throws with its status, and an ok reply yields the first choice's
      content, or "" when there is none. */
  lemma GeneratedSpec(apiKey: Option<string>, messages: seq<ChatMessage>, systemPrompt: string, context: string,
                      send: RequestBody -> Result<Reply>)
    ensures var (sent, result) := Generated(apiKey, messages, systemPrompt, context, send);
      && (!HasKey(apiKey) <==> sent.None?)
      && (sent.None? ==> result == Err(NoApiKey))
      && (sent.Some? ==>
            && sent.value.messages[0] == WireMessage("system", FullSystemPrompt(systemPrompt, context))
            && |sent.value.messages| == |messages| + 1
            && (forall i :: 0 <= i < |messages| ==>
                  sent.value.messages[i + 1] == WireMessage(messages[i].role, messages[i].content))
            && sent.value.model == Model && !sent.value.stream && sent.value.maxTokens == 1024
            && (send(sent.value).Err? ==> result == Err(send(sent.value).msg))
            && (send(sent.value).Ok? && send(sent.value).value.ok && send(sent.value).value.firstContent.None? ==>
                  result == Ok(""))
            && (send(sent.value).Ok? && !send(sent.value).value.ok ==>
                  result == Err(ApiError(send(sent.value).value.status, send(sent.value).value.text)))
            && (send(sent.value).Ok? && send(sent.value).value.ok ==>
                  result.Ok? && (send(sent.value).value.firstContent.Some? ==> result.value == send(sent.value).value.firstContent.value)))
  {
  }

  // ---------------------------------------------------------------------------
  // Line framing of the stream (lines 94-121)
  // ---------------------------------------------------------------------------

  /** `s.split("\n")`: the pieces between newlines, at least one. */
  function Split(s: string): (r: seq<string>)
    ensures |r| >= 1
  {
    if s == [] then [""]
    else
      var rest := Split(s[1..]);
      if s[0] == '\n' then [""] + rest else [[s[0]] + rest[0]] + rest[1..]
  }

  /** The complete lines of `s`: every piece but the last. */
  function CompleteLines(s: string): seq<string> {
    var pieces := Split(s);
    pieces[..|pieces| - 1]
  }

  /** The text after the last newline. */
  function Remainder(s: string): string {
    var pieces := Split(s);
    pieces[|pieces| - 1]
  }

  /** Each line followed by a newline. */
  function Terminated(lines: seq<string>): string {
    if lines == [] then "" else lines[0] + "\n" + Terminated(lines[1..])
  }

  /** Splitting text that starts with a newline. */
  lemma SplitNewline(x: string)
    requires x != [] && x[0] == '\n'
    ensures Split(x) == [""] + Split(x[1..])
  {
  }

  /** Splitting text that starts with a character other than a newline. */
  lemma SplitCons(x: string)
    requires x != [] && x[0] != '\n'
    ensures Split(x) == [[x[0]] + Split(x[1..])[0]] + Split(x[1..])[1..]
  {
  }

  /** All pieces but the last, and the last, of a sequence with a piece in
      front. */
  lemma ButLastCons(h: string, pieces: seq<string>)
    requires pieces != []
    ensures var p := [h] + pieces;
      p[..|p| - 1] == [h] + pieces[..|pieces| - 1] && p[|p| - 1] == pieces[|pieces| - 1]
  {
  }

  /** Prefixing a character to the first piece commutes with appending. */
  lemma PrefixFirstPiece(c: char, pieces: seq<string>, tail: seq<string>)
    requires |pieces| > 1 && tail != []
    ensures var t := pieces[..|pieces| - 1] + tail;
      var p := [[c] + pieces[0]] + pieces[1..];
      [[c] + t[0]] + t[1..] == p[..|p| - 1] + tail && p[|p| - 1] == pieces[|pieces| - 1]
  {
  }

  /** The same, for the complete lines alone. */
  lemma PrefixFirstLine(c: char, pieces: seq<string>)
    requires |pieces| > 1
    ensures var p := [[c] + pieces[0]] + pieces[1..]; var lines := pieces[..|pieces| - 1];
      p[..|p| - 1] == [[c] + lines[0]] + lines[1..] && p[|p| - 1] == pieces[|pieces| - 1]
  {
  }

  /** Prefixing a character to the first line prefixes it to the joined text. */
  lemma TerminatedPrefix(c: char, lines: seq<string>)
    requires lines != []
    ensures Terminated([[c] + lines[0]] + lines[1..]) == [c] + Terminated(lines)
  {
    var l := [[c] + lines[0]] + lines[1..];
    assert l[1..] == lines[1..];
  }

  /** No piece of a split holds a newline. */
  lemma {:induction false} SplitPieces(s: string)
    ensures forall i :: 0 <= i < |Split(s)| ==> '\n' !in Split(s)[i]
  {
    if s != [] {
      SplitPieces(s[1..]);
      if s[0] == '\n' {
        SplitNewline(s);
      } else {
        SplitCons(s);
      }
    }
  }

  /** Splitting is undone by joining: `s` is its complete lines, each ended by
      a newline, then the remainder; no piece holds a newline. */
  lemma {:induction false} SplitJoin(s: string)
    ensures s == Terminated(CompleteLines(s)) + Remainder(s)
    ensures forall i :: 0 <= i < |Split(s)| ==> '\n' !in Split(s)[i]
  {
    SplitPieces(s);
    if s != [] {
      SplitJoin(s[1..]);
      if s[0] == '\n' {
        JoinNewline(s);
      } else if |Split(s[1..])| == 1 {
        JoinLast(s);
      } else {
        JoinInside(s);
      }
    }
  }

  /** `SplitJoin` for a text that starts with a newline, given it for the
      rest. */
  lemma JoinNewline(s: string)
    requires s != [] && s[0] == '\n'
    requires s[1..] == Terminated(CompleteLines(s[1..])) + Remainder(s[1..])
    ensures s == Terminated(CompleteLines(s)) + Remainder(s)
  {
    SplitNewline(s);
    ButLastCons("", Split(s[1..]));
    assert ([""] + CompleteLines(s[1..]))[1..] == CompleteLines(s[1..]);
    assert s == "\n" + s[1..];
  }

  /** `SplitJoin` for a text whose only newline-free piece is the whole. */
  lemma JoinLast(s: string)
    requires s != [] && s[0] != '\n' && |Split(s[1..])| == 1
    requires s[1..] == Terminated(CompleteLines(s[1..])) + Remainder(s[1..])
    ensures s == Terminated(CompleteLines(s)) + Remainder(s)
  {
    SplitCons(s);
    assert Remainder(s[1..]) == s[1..];
    assert s == [s[0]] + s[1..];
  }

  /** `SplitJoin` for a text whose first character lands in a complete
      line. */
  lemma JoinInside(s: string)
    requires s != [] && s[0] != '\n' && |Split(s[1..])| > 1
    requires s[1..] == Terminated(CompleteLines(s[1..])) + Remainder(s[1..])
    ensures s == Terminated(CompleteLines(s)) + Remainder(s)
  {
    SplitCons(s);
    PrefixFirstLine(s[0], Split(s[1..]));
    TerminatedPrefix(s[0], CompleteLines(s[1..]));
    assert s == [s[0]] + s[1..];
  }

  /** Splitting a text that grows: the complete lines found so far stay, and
      the remainder is split again together with the new text. */
  lemma {:induction false} SplitAppend(a: string, b: string)
    ensures Split(a + b) == CompleteLines(a) + Split(Remainder(a) + b)
  {
    if a == [] {
      assert a + b == b;
    } else {
      SplitAppend(a[1..], b);
      assert (a + b)[0] == a[0] && (a + b)[1..] == a[1..] + b;
      if a[0] == '\n' {
        SplitAppendNewline(a, b);
      } else if |Split(a[1..])| == 1 {
        SplitAppendLast(a, b);
      } else {
        SplitAppendInside(a, b);
      }
    }
  }

  /** The step of `SplitAppend` when the text starts with a newline. */
  lemma SplitAppendNewline(a: string, b: string)
    requires a != [] && a[0] == '\n' && (a + b)[0] == a[0] && (a + b)[1..] == a[1..] + b
    requires Split(a[1..] + b) == CompleteLines(a[1..]) + Split(Remainder(a[1..]) + b)
    ensures Split(a + b) == CompleteLines(a) + Split(Remainder(a) + b)
  {
    NewlineLines(a);
    SplitNewline(a + b);
    ConsJoin(Split(a + b), Split(a[1..] + b), CompleteLines(a), CompleteLines(a[1..]),
             Split(Remainder(a[1..]) + b));
  }

  /** The lines of a text that starts with a newline: an empty line, then
      those of the rest. */
  lemma NewlineLines(a: string)
    requires a != [] && a[0] == '\n'
    ensures CompleteLines(a) == [""] + CompleteLines(a[1..])
    ensures Remainder(a) == Remainder(a[1..])
  {
    SplitNewline(a);
    ButLastCons("", Split(a[1..]));
  }

  lemma ConsJoin(whole: seq<string>, rest: seq<string>, lines: seq<string>, restLines: seq<string>,
                 tail: seq<string>)
    requires whole == [""] + rest && rest == restLines + tail && lines == [""] + restLines
    ensures whole == lines + tail
  {
  }

  /** The step of `SplitAppend` when the text is a single line. */
  lemma SplitAppendLast(a: string, b: string)
    requires a != [] && a[0] != '\n' && |Split(a[1..])| == 1
    ensures Split(a + b) == CompleteLines(a) + Split(Remainder(a) + b)
  {
    SplitJoin(a[1..]);
    SplitCons(a);
    assert Remainder(a[1..]) == a[1..];
    assert [a[0]] + a[1..] == a;
  }

  /** The step of `SplitAppend` when the first line of the text goes on past
      its first character and is complete. */
  lemma SplitAppendInside(a: string, b: string)
    requires a != [] && a[0] != '\n' && (a + b)[0] == a[0] && (a + b)[1..] == a[1..] + b && |Split(a[1..])| > 1
    requires Split(a[1..] + b) == CompleteLines(a[1..]) + Split(Remainder(a[1..]) + b)
    ensures Split(a + b) == CompleteLines(a) + Split(Remainder(a) + b)
  {
    SplitCons(a);
    SplitCons(a + b);
    PrefixFirstPiece(a[0], Split(a[1..]), Split(Remainder(a[1..]) + b));
  }

  /** Text without a newline is one piece. */
  lemma {:induction false} SplitNoNewline(s: string)
    requires '\n' !in s
    ensures Split(s) == [s]
  {
    if s != [] {
      assert '\n' !in s[1..] by {
        forall i | 0 <= i < |s[1..]| ensures s[1..][i] != '\n' { assert s[1..][i] == s[i + 1]; }
      }
      SplitNoNewline(s[1..]);
      assert [s[0]] + s[1..] == s;
    }
  }

  lemma ButLastAppend(xs: seq<string>, ys: seq<string>)
    requires ys != []
    ensures (xs + ys)[..|xs + ys| - 1] == xs + ys[..|ys| - 1] && (xs + ys)[|xs + ys| - 1] == ys[|ys| - 1]
  {
  }

  /** One read appends a chunk to what the buffer held: the complete lines
      found are those of the old buffer joined with the chunk. */
  lemma ReadStep(text: string, chunk: string, parse: Parser)
    ensures Yields(CompleteLines(text + chunk), parse)
      == Yields(CompleteLines(text), parse) + Yields(CompleteLines(Remainder(text) + chunk), parse)
    ensures Remainder(text + chunk) == Remainder(Remainder(text) + chunk)
  {
    CompleteLinesAppend(text, chunk);
    YieldsAppend(CompleteLines(text), CompleteLines(Remainder(text) + chunk), parse);
  }

  /** The lines of a text that grows: those found so far, then those of the
      remainder joined with the new text. */
  lemma CompleteLinesAppend(text: string, chunk: string)
    ensures CompleteLines(text + chunk) == CompleteLines(text) + CompleteLines(Remainder(text) + chunk)
    ensures Remainder(text + chunk) == Remainder(Remainder(text) + chunk)
  {
    SplitAppend(text, chunk);
    ButLastAppend(CompleteLines(text), Split(Remainder(text) + chunk));
  }

  /** The parsed payload of one examined line: `json.choices?.[0]?.delta?.content`,
      or `None` when the payload is not JSON or carries no content. */
  type Parser = string -> Option<string>

  /** What one complete line contributes (lines 107-119). */
  function Event(line: string, parse: Parser): (r: Option<string>)
    ensures r.Some? ==> r.value != ""
  {
    var trimmed := Trim(line);
    if trimmed == "" || trimmed == Done then None
    else if !StartsWith(trimmed, DataPrefix) then None
    else match parse(trimmed[|DataPrefix|..])
      case None => None
      case Some(content) => if content == "" then None else Some(content)
  }

  /** Lines 107-109: blank lines, the end marker and lines that are not
      `data:` lines yield nothing, whatever the parser would say. */
  lemma EventSkips(line: string, parse: Parser)
    ensures AllSpace(line) ==> Event(line, parse).None?
    ensures Trim(line) == Done ==> Event(line, parse).None?
    ensures !StartsWith(Trim(line), DataPrefix) ==> Event(line, parse).None?
    ensures Event(line, parse).Some? ==>
      StartsWith(Trim(line), DataPrefix) && Trim(line) != Done && parse(Trim(line)[6..]) == Event(line, parse)
  {
    TrimEmpty(line);
  }

  /** The contents yielded for some lines, in order. */
  function Yields(lines: seq<string>, parse: Parser): seq<string> {
    if lines == [] then []
    else
      var rest := Yields(lines[..|lines| - 1], parse);
      match Event(lines[|lines| - 1], parse)
      case None => rest
      case Some(c) => rest + [c]
  }

  lemma {:induction false} YieldsAppend(a: seq<string>, b: seq<string>, parse: Parser)
    ensures Yields(a + b, parse) == Yields(a, parse) + Yields(b, parse)
    decreases |b|
  {
    if b == [] {
      assert a + b == a;
    } else {
      var b0 := b[..|b| - 1];
      assert (a + b)[..|a + b| - 1] == a + b0;
      assert (a + b)[|a + b| - 1] == b[|b| - 1];
      YieldsAppend(a, b0, parse);
    }
  }

  /** Every yielded piece is non-empty. */
  lemma {:induction false} YieldsNonEmpty(lines: seq<string>, parse: Parser)
    ensures forall i :: 0 <= i < |Yields(lines, parse)| ==> Yields(lines, parse)[i] != ""
    decreases |lines|
  {
    if lines != [] {
      YieldsNonEmpty(lines[..|lines| - 1], parse);
    }
  }

  function Concat(chunks: seq<string>): string {
    if chunks == [] then "" else Concat(chunks[..|chunks| - 1]) + chunks[|chunks| - 1]
  }

  /** The inner loop of lines 106-120 over the complete lines of one read. */
  method ExamineLines(lines: seq<string>, parse: Parser) returns (yielded: seq<string>)
    ensures yielded == Yields(lines, parse)
  {
    yielded := [];
    var k := 0;
    while k < |lines|
      invariant 0 <= k <= |lines|
      invariant yielded == Yields(lines[..k], parse)
    {
      assert lines[..k + 1][..k] == lines[..k];
      var trimmed := Trim(lines[k]);
      if trimmed != "" && trimmed != Done && StartsWith(trimmed, DataPrefix) {
        var content := parse(trimmed[6..]);
        if content.Some? && content.value != "" {
          yielded := yielded + [content.value];
        }
      }
      k := k + 1;
    }
    assert lines[..k] == lines;
  }

  /** The read loop of lines 97-121 over the decoded chunks: the pieces yielded,
      in order, and the text left in `buffer` at the end. */
  method ReadStream(chunks: seq<string>, parse: Parser) returns (yielded: seq<string>, buffer: string)
    ensures yielded == Yields(CompleteLines(Concat(chunks)), parse)
    ensures buffer == Remainder(Concat(chunks))
  {
    yielded := [];
    buffer := "";
    var n := 0;
    while n < |chunks|
      invariant 0 <= n <= |chunks|
      invariant yielded == Yields(CompleteLines(Concat(chunks[..n])), parse)
      invariant buffer == Remainder(Concat(chunks[..n]))
    {
      assert chunks[..n + 1][..n] == chunks[..n];
      ReadStep(Concat(chunks[..n]), chunks[n], parse);
      buffer := buffer + chunks[n];
      var lines := Split(buffer);
      buffer := lines[|lines| - 1];
      var found := ExamineLines(lines[..|lines| - 1], parse);
      yielded := yielded + found;
      n := n + 1;
    }
    assert chunks[..n] == chunks;
  }

  /** Lines 98-121: the examined lines are exactly the complete lines of the
      whole stream, in order, each examined once: together with the text left
      over they make up the stream. */
  lemma StreamFraming(chunks: seq<string>)
    ensures Concat(chunks) == Terminated(CompleteLines(Concat(chunks))) + Remainder(Concat(chunks))
    ensures '\n' !in Remainder(Concat(chunks))
    ensures forall i :: 0 <= i < |CompleteLines(Concat(chunks))| ==> '\n' !in CompleteLines(Concat(chunks))[i]
  {
    SplitJoin(Concat(chunks));
  }

  /** A line without a newline, then a newline, starts the split. */
  lemma {:induction false} SplitLine(x: string, y: string)
    requires '\n' !in x
    ensures Split(x + "\n" + y) == [x] + Split(y)
  {
    if x == [] {
      assert x + "\n" + y == "\n" + y;
      assert ("\n" + y)[1..] == y;
    } else {
      assert (x + "\n" + y)[1..] == x[1..] + "\n" + y;
      assert '\n' !in x[1..] by {
        forall i | 0 <= i < |x[1..]| ensures x[1..][i] != '\n' { assert x[1..][i] == x[i + 1]; }
      }
      SplitLine(x[1..], y);
      assert [x[0]] + x[1..] == x;
    }
  }

  /** A text that does not end in a newline: its last line is the remainder. */
  lemma {:induction false} SplitTerminated(lines: seq<string>, tail: string)
    requires forall i :: 0 <= i < |lines| ==> '\n' !in lines[i]
    requires '\n' !in tail
    ensures Split(Terminated(lines) + tail) == lines + [tail]
  {
    if lines == [] {
      SplitNoNewline(tail);
      assert Terminated(lines) + tail == tail;
    } else {
      SplitTerminated(lines[1..], tail);
      assert Terminated(lines) + tail == lines[0] + "\n" + (Terminated(lines[1..]) + tail);
      SplitLine(lines[0], Terminated(lines[1..]) + tail);
      assert lines == [lines[0]] + lines[1..];
    }
  }

  /** Lines 100 and 104: whatever follows the last newline of the stream, a
      complete `data:` event included, stays in the buffer and is never
      yielded. */
  lemma UnterminatedLastLine(lines: seq<string>, tail: string, parse: Parser)
    requires forall i :: 0 <= i < |lines| ==> '\n' !in lines[i]
    requires '\n' !in tail
    ensures Yields(CompleteLines(Terminated(lines) + tail), parse) == Yields(lines, parse)
    ensures Remainder(Terminated(lines) + tail) == tail
  {
    SplitTerminated(lines, tail);
    assert (lines + [tail])[..|lines|] == lines;
  }

  /** The outcome of `generateChatResponseStream`: what it yielded and whether
      it then threw. */
  datatype StreamRun = StreamRun(sent: Option<RequestBody>, yielded: seq<string>, error: Option<string>)

  /** `generateChatResponseStream` (lines 49-125). */
  method GenerateStream(apiKey: Option<string>, messages: seq<ChatMessage>, systemPrompt: string, context: string,
                        send: RequestBody -> Result<StreamReply>, parse: Parser) returns (run: StreamRun)
    ensures !HasKey(apiKey) ==> run == StreamRun(None, [], Some(NoApiKey))
    ensures HasKey(apiKey) ==> run.sent == Some(Request(messages, systemPrompt, context, true))
    ensures HasKey(apiKey) && send(run.sent.value).Ok? ==>
      var reply := send(run.sent.value).value;
      && (!reply.ok ==> run == StreamRun(run.sent, [], Some(ApiError(reply.status, reply.text))))
      && (reply.ok && reply.body.None? ==> run == StreamRun(run.sent, [], Some(NoBody)))
      && (reply.ok && reply.body.Some? ==>
            run == StreamRun(run.sent, Yields(CompleteLines(Concat(reply.body.value)), parse), None))
    ensures HasKey(apiKey) && send(run.sent.value).Err? ==>
      run == StreamRun(run.sent, [], Some(send(run.sent.value).msg))
  {
    if !HasKey(apiKey) {
      return StreamRun(None, [], Some(NoApiKey));
    }
    var body := Request(messages, systemPrompt, context, true);
    var response := send(body);
    if response.Err? {
      return StreamRun(Some(body), [], Some(response.msg));
    }
    if !response.value.ok {
      return StreamRun(Some(body), [], Some(ApiError(response.value.status, response.value.text)));
    }
    if response.value.body.None? {
      return StreamRun(Some(body), [], Some(NoBody));
    }
    var yielded, _ := ReadStream(response.value.body.value, parse);
    run := StreamRun(Some(body), yielded, None);
  }
}
