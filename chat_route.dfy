/** The chat endpoint of src/app/api/chat/route.ts: it picks the chatbot, finds
    or opens the conversation of a session, stores the visitor's message, asks
    the model with the conversation's history, and stores the reply. Database
    calls wrapped in `withRetry` are modelled by their net outcome. */
module ChatRoute {
  import opened Common
  import Accounts
  import Retry
  import Anthropic

  const MissingFields: string := "Missing message or sessionId"
  const Unauthorized: string := "Unauthorized"
  const NoChatbot: string := "Chatbot not found"
  const ConnectionFailure: string := "Database connection error"
  const DefaultSystemPrompt: string := "אתה עוזר וירטואלי מועיל. ענה על שאלות בצורה ברורה ומועילה."
  const HistoryLimit: nat := 20

  datatype Conversation = Conversation(id: string, chatbotId: string, sessionId: string)
  datatype StoredMessage = StoredMessage(conversationId: string, role: string, content: string, createdAt: int)

  /** The JSON body; an absent field is `None`. */
  datatype ChatBody = ChatBody(message: Option<string>, sessionId: Option<string>, chatbotId: Option<string>)

  /** The failures of the wrapped database calls, by call. */
  datatype ChatFaults = ChatFaults(lookupErr: Option<string>, findErr: Option<string>, createErr: Option<string>,
                                   saveQuestionErr: Option<string>, saveAnswerErr: Option<string>)

  /** The id of a conversation the handler opens and the creation times of the
      two messages it stores. */
  datatype Stamp = Stamp(conversationId: string, questionAt: int, answerAt: int)

  /** Everything outside the two tables: the chatbots, the signed-in user
      (`getCurrentUser()`, which may throw), the model endpoint and the faults. */
  datatype Env = Env(chatbots: seq<Accounts.Chatbot>, caller: Result<Option<Accounts.User>>,
                     apiKey: Option<string>, send: Anthropic.RequestBody -> Result<Anthropic.Reply>,
                     faults: ChatFaults, stamp: Stamp)

  /** A plain-text response; `cors` marks the `Access-Control-Allow-Origin: *`
      header of lines 114-119. */
  datatype Response = Text(status: nat, body: string, cors: bool)

  // ---------------------------------------------------------------------------
  // Error classification (lines 120-131)
  // ---------------------------------------------------------------------------

  /** Lines 122-126. */
  predicate ConnectionLike(m: string) {
    || Contains(m, "closed the connection")
    || Contains(m, "P1017")
    || Contains(m, "P1001")
    || Contains(m, "ECONNRESET")
  }

  /** Lines 128-130. */
  function Failure(m: string): (r: Response)
    ensures r.status == 503 <==> ConnectionLike(m)
    ensures r.status != 503 ==> r == Text(500, "Server error: " + m, false)
  {
    if ConnectionLike(m) then Text(503, ConnectionFailure, false) else Text(500, "Server error: " + m, false)
  }

  /** The handler answers 503 only for errors the retry wrapper also treats as
      a dropped connection, and not for all of them: a "P1002" error gets 500. */
  lemma ConnectionLikeNarrower()
    ensures forall m :: ConnectionLike(m) ==> Retry.IsConnectionError(m)
    ensures Retry.IsConnectionError("P1002") && !ConnectionLike("P1002")
  {
    assert StartsWith("P1002", "P1002");
    NotContainsLonger("P1002", "closed the connection");
    NotContainsLonger("P1002", "ECONNRESET");
    assert !StartsWith("P1002", "P1017") && !StartsWith("P1002", "P1001");
    NotContainsLonger("1002", "P1017");
    NotContainsLonger("1002", "P1001");
  }

  // ---------------------------------------------------------------------------
  // History (lines 46-59 and 88-92)
  // ---------------------------------------------------------------------------

  function InConversation(id: string): StoredMessage -> bool { (m: StoredMessage) => m.conversationId == id }
  function ByCreation(): StoredMessage -> int { (m: StoredMessage) => m.createdAt }

  /** The conversation's stored messages, oldest first. */
  function Ordered(messages: seq<StoredMessage>, id: string): seq<StoredMessage> {
    SortBy(Filter(messages, InConversation(id)), ByCreation())
  }

  /** Lines 53-56 as written: ascending order, then the first 20. */
  function AsWrittenHistory(messages: seq<StoredMessage>, id: string): seq<StoredMessage> {
    Take(Ordered(messages, id), HistoryLimit)
  }

  /** What the comment on line 55 asks for: the last 20, oldest first. */
  function History(messages: seq<StoredMessage>, id: string): seq<StoredMessage> {
    var all := Ordered(messages, id);
    all[|all| - Min(HistoryLimit, |all|)..]
  }

  /** Lines 53-56 as written: at most 20 messages of the conversation, in
      ascending creation order. */
  lemma AsWrittenHistoryShape(messages: seq<StoredMessage>, id: string)
    ensures var h := AsWrittenHistory(messages, id); var all := Filter(messages, InConversation(id));
      && |h| == Min(HistoryLimit, |all|)
      && SortedBy(h, ByCreation())
      && multiset(h) <= multiset(all)
  {
    var all := Filter(messages, InConversation(id));
    var o := Ordered(messages, id);
    SortByCorrect(all, ByCreation());
    SortedSlice(o, ByCreation(), 0, Min(HistoryLimit, |o|));
    assert o[0..Min(HistoryLimit, |o|)] == AsWrittenHistory(messages, id);
  }

  /** Lines 53-56 as written keep the 20 OLDEST messages: once a conversation
      has more than 20, some are left out, and every one left out is at least
      as new as every one kept, so the newest exchanges never reach the model. */
  lemma AsWrittenHistoryOldest(messages: seq<StoredMessage>, id: string)
    ensures var h := AsWrittenHistory(messages, id); var all := Filter(messages, InConversation(id));
      && (forall i, x :: 0 <= i < |h| && x in multiset(all) - multiset(h) ==> h[i].createdAt <= x.createdAt)
      && (|all| > HistoryLimit ==> |multiset(all) - multiset(h)| == |all| - HistoryLimit > 0)
  {
    var all := Filter(messages, InConversation(id));
    var o := Ordered(messages, id);
    SortByCorrect(all, ByCreation());
    SortedRest(o, ByCreation(), Min(HistoryLimit, |o|));
    AsWrittenHistoryShape(messages, id);
  }

  /** The corrected history: at most 20 messages of the conversation, oldest
      first. */
  lemma HistoryShape(messages: seq<StoredMessage>, id: string)
    ensures var h := History(messages, id); var all := Filter(messages, InConversation(id));
      && |h| == Min(HistoryLimit, |all|)
      && SortedBy(h, ByCreation())
      && multiset(h) <= multiset(all)
  {
    var all := Filter(messages, InConversation(id));
    var o := Ordered(messages, id);
    var k := |o| - Min(HistoryLimit, |o|);
    SortByCorrect(all, ByCreation());
    SortedSlice(o, ByCreation(), k, |o|);
    assert History(messages, id) == o[k..|o|];
  }

  /** The corrected history keeps the newest: no message left out is newer
      than one kept. */
  lemma HistoryNewest(messages: seq<StoredMessage>, id: string)
    ensures var h := History(messages, id); var all := Filter(messages, InConversation(id));
      forall i, x :: 0 <= i < |h| && x in multiset(all) - multiset(h) ==> x.createdAt <= h[i].createdAt
  {
    var all := Filter(messages, InConversation(id));
    var o := Ordered(messages, id);
    var k := |o| - Min(HistoryLimit, |o|);
    SortByCorrect(all, ByCreation());
    SortedRestSuffix(o, ByCreation(), k);
    forall i, x | 0 <= i < |o[k..]| && x in multiset(all) - multiset(o[k..])
      ensures x.createdAt <= o[k..][i].createdAt
    {
      assert o[k..][i] == o[k + i];
    }
  }

  /** The history as chat messages, then the new message (lines 88-92). */
  function Prompted(history: seq<StoredMessage>, message: string): (r: seq<Anthropic.ChatMessage>)
    ensures |r| == |history| + 1 && r[|history|] == Anthropic.ChatMessage("user", message)
    ensures forall i :: 0 <= i < |history| ==> r[i] == Anthropic.ChatMessage(history[i].role, history[i].content)
  {
    seq(|history|, i requires 0 <= i < |history| => Anthropic.ChatMessage(history[i].role, history[i].content))
      + [Anthropic.ChatMessage("user", message)]
  }

  // ---------------------------------------------------------------------------
  // The handler (lines 10-132)
  // ---------------------------------------------------------------------------

  /** The chatbot a request is for, or the early response (lines 12-43). */
  datatype Pick = Early(response: Response) | Bot(chatbot: Accounts.Chatbot)

  function Picked(body: Result<ChatBody>, env: Env): Pick {
    if body.Err? then Early(Failure(body.msg))
    else
      var b := body.value;
      if !Given(b.message) || !Given(b.sessionId) then Early(Text(400, MissingFields, false))
      else if Given(b.chatbotId) then
        if env.faults.lookupErr.Some? then Early(Failure(env.faults.lookupErr.value))
        else match Accounts.ChatbotById(env.chatbots, b.chatbotId.value)
          case None => Early(Text(404, NoChatbot, false))
          case Some(bot) => Bot(bot)
      else if env.caller.Err? then Early(Failure(env.caller.msg))
      else if env.caller.value.None? then Early(Text(401, Unauthorized, false))
      else if env.faults.lookupErr.Some? then Early(Failure(env.faults.lookupErr.value))
      else match Accounts.ChatbotOf(env.chatbots, env.caller.value.value.id)
        case None => Early(Text(404, NoChatbot, false))
        case Some(bot) => Bot(bot)
  }

  function Keyed(chatbotId: string, sessionId: string): Conversation -> bool {
    (c: Conversation) => c.chatbotId == chatbotId && c.sessionId == sessionId
  }

  /** Lines 95: the chatbot's prompt, or the default when it is empty. */
  function SystemPrompt(bot: Accounts.Chatbot): string {
    if bot.systemPrompt == "" then DefaultSystemPrompt else bot.systemPrompt
  }

  /** Lines 87-101: what the model replies to the history and the new
      message, under the chatbot's prompt with no knowledge context. */
  function ModelReply(history: seq<StoredMessage>, bot: Accounts.Chatbot, message: string, env: Env): Result<string> {
    Anthropic.Generated(env.apiKey, Prompted(history, message), SystemPrompt(bot), "", env.send).1
  }

  /** Lines 73-119 once the conversation is known: store the question, ask
      the model, store the answer. */
  function Answered(messages: seq<StoredMessage>, conv: Conversation, history: seq<StoredMessage>,
                    bot: Accounts.Chatbot, message: string, env: Env): (seq<StoredMessage>, Response)
  {
    if env.faults.saveQuestionErr.Some? then (messages, Failure(env.faults.saveQuestionErr.value))
    else
      var asked := messages + [StoredMessage(conv.id, "user", message, env.stamp.questionAt)];
      var reply := ModelReply(history, bot, message, env);
      if reply.Err? then (asked, Failure(reply.msg))
      else if env.faults.saveAnswerErr.Some? then (asked, Failure(env.faults.saveAnswerErr.value))
      else (asked + [StoredMessage(conv.id, "assistant", reply.value, env.stamp.answerAt)], Text(200, reply.value, true))
  }

  /** Lines 45-119 for the chatbot picked: find or open the conversation, then
      answer. */
  function Conversed(conversations: seq<Conversation>, messages: seq<StoredMessage>, bot: Accounts.Chatbot,
                     message: string, sessionId: string, env: Env): (seq<Conversation>, seq<StoredMessage>, Response)
  {
    if env.faults.findErr.Some? then (conversations, messages, Failure(env.faults.findErr.value))
    else match FindFirst(conversations, Keyed(bot.id, sessionId))
      case Some(conv) =>
        var (m, r) := Answered(messages, conv, History(messages, conv.id), bot, message, env);
        (conversations, m, r)
      case None =>
        if env.faults.createErr.Some? then (conversations, messages, Failure(env.faults.createErr.value))
        else
          var conv := Conversation(env.stamp.conversationId, bot.id, sessionId);
          var (m, r) := Answered(messages, conv, [], bot, message, env);
          (conversations + [conv], m, r)
  }

  /** `POST(req)`: the new tables and the response. */
  function Chatted(conversations: seq<Conversation>, messages: seq<StoredMessage>, body: Result<ChatBody>,
                   env: Env): (seq<Conversation>, seq<StoredMessage>, Response)
  {
    match Picked(body, env)
    case Early(r) => (conversations, messages, r)
    case Bot(bot) => Conversed(conversations, messages, bot, body.value.message.value, body.value.sessionId.value, env)
  }

  /** Lines 12-16: without a message or a session id the answer is 400 and
      nothing is looked up or stored. */
  lemma ChatNeedsFields(conversations: seq<Conversation>, messages: seq<StoredMessage>, b: ChatBody, env: Env)
    requires !Given(b.message) || !Given(b.sessionId)
    ensures Chatted(conversations, messages, Ok(b), env) == (conversations, messages, Text(400, MissingFields, false))
  {
  }

  /** Lines 21-33: a request naming a chatbot is served whoever is signed in,
      and one that does not needs a signed-in user. */
  lemma ChatbotChoice(conversations: seq<Conversation>, messages: seq<StoredMessage>, b: ChatBody, env: Env,
                      other: Result<Option<Accounts.User>>)
    ensures Given(b.chatbotId) ==>
      Chatted(conversations, messages, Ok(b), env) == Chatted(conversations, messages, Ok(b), env.(caller := other))
    ensures Given(b.message) && Given(b.sessionId) && !Given(b.chatbotId) && env.caller == Ok(None) ==>
      Chatted(conversations, messages, Ok(b), env) == (conversations, messages, Text(401, Unauthorized, false))
  {
    if Given(b.chatbotId) && Picked(Ok(b), env).Bot? {
      ConversedIgnoresCaller(conversations, messages, Picked(Ok(b), env).chatbot, b.message.value,
                             b.sessionId.value, env, other);
    }
  }

  /** The conversation step does not look at the signed-in user. */
  lemma ConversedIgnoresCaller(conversations: seq<Conversation>, messages: seq<StoredMessage>, bot: Accounts.Chatbot,
                               message: string, sessionId: string, env: Env, other: Result<Option<Accounts.User>>)
    ensures Conversed(conversations, messages, bot, message, sessionId, env)
      == Conversed(conversations, messages, bot, message, sessionId, env.(caller := other))
  {
    var env' := env.(caller := other);
    assert env'.faults == env.faults && env'.stamp == env.stamp && env'.apiKey == env.apiKey && env'.send == env.send;
  }

  /** Lines 41-43: no chatbot found, 404, and nothing stored. */
  lemma ChatbotMissing(conversations: seq<Conversation>, messages: seq<StoredMessage>, b: ChatBody, env: Env)
    requires Given(b.message) && Given(b.sessionId) && Given(b.chatbotId) && env.faults.lookupErr.None?
    requires forall i :: 0 <= i < |env.chatbots| ==> env.chatbots[i].id != b.chatbotId.value
    ensures Chatted(conversations, messages, Ok(b), env) == (conversations, messages, Text(404, NoChatbot, false))
  {
  }

  /** Lines 73-112: the question is appended before the model is asked and
      the answer only once the model has replied; the stored and returned
      answer is the model's reply, and each failure (storing the question,
      the model, storing the answer) is answered with its own error and
      stores nothing after it. */
  lemma AnsweredSpec(messages: seq<StoredMessage>, conv: Conversation, history: seq<StoredMessage>,
                     bot: Accounts.Chatbot, message: string, env: Env)
    ensures var (ms, r) := Answered(messages, conv, history, bot, message, env);
      var g := ModelReply(history, bot, message, env);
      var question := StoredMessage(conv.id, "user", message, env.stamp.questionAt);
      var f := env.faults;
      && (ms == messages || |ms| == |messages| + 1 || |ms| == |messages| + 2)
      && messages <= ms
      && (|ms| > |messages| ==> ms[|messages|] == question)
      && (f.saveQuestionErr.Some? ==> ms == messages && r == Failure(f.saveQuestionErr.value))
      && (f.saveQuestionErr.None? && g.Err? ==> ms == messages + [question] && r == Failure(g.msg))
      && (f.saveQuestionErr.None? && g.Ok? && f.saveAnswerErr.Some? ==>
            ms == messages + [question] && r == Failure(f.saveAnswerErr.value))
      && (|ms| == |messages| + 2 <==> f.saveQuestionErr.None? && g.Ok? && f.saveAnswerErr.None?)
      && (|ms| == |messages| + 2 ==>
            && ms[|messages| + 1] == StoredMessage(conv.id, "assistant", g.value, env.stamp.answerAt)
            && r == Text(200, g.value, true))
      && (r.status == 200 ==> |ms| == |messages| + 2)
  {
  }

  /** Lines 45-112 for a chatbot that was found: the conversation is the one
      of the chatbot and the session, opened only when there is none; the
      question is stored before the model is asked, and the answer only once
      it has replied. */
  lemma ConversedSpec(conversations: seq<Conversation>, messages: seq<StoredMessage>, bot: Accounts.Chatbot,
                      message: string, sessionId: string, env: Env)
    requires env.faults.findErr.None?
    ensures var (cs, ms, r) := Conversed(conversations, messages, bot, message, sessionId, env);
      var existing := FindFirst(conversations, Keyed(bot.id, sessionId));
      && (existing.Some? ==> cs == conversations)
      && (existing.None? ==> cs == conversations || cs == conversations + [Conversation(env.stamp.conversationId, bot.id, sessionId)])
      && (ms == messages || |ms| == |messages| + 1 || |ms| == |messages| + 2)
      && messages <= ms
      && (|ms| > |messages| ==>
            && ms[|messages|].role == "user" && ms[|messages|].content == message
            && ms[|messages|].conversationId == (if existing.Some? then existing.value.id else env.stamp.conversationId))
      && (existing.None? && env.faults.createErr.Some? ==>
            cs == conversations && ms == messages && r == Failure(env.faults.createErr.value))
      && (existing.None? && env.faults.createErr.None? ==>
            cs == conversations + [Conversation(env.stamp.conversationId, bot.id, sessionId)])
      && (existing.Some? || env.faults.createErr.None? ==>
            var g := ModelReply(if existing.Some? then History(messages, existing.value.id) else [], bot, message, env);
            && (env.faults.saveQuestionErr.Some? ==> ms == messages && r == Failure(env.faults.saveQuestionErr.value))
            && (env.faults.saveQuestionErr.None? && g.Err? ==> |ms| == |messages| + 1 && r == Failure(g.msg))
            && (|ms| == |messages| + 2 <==> env.faults.saveQuestionErr.None? && g.Ok? && env.faults.saveAnswerErr.None?)
            && (|ms| == |messages| + 2 ==>
                  && ms[|messages| + 1].role == "assistant" && ms[|messages| + 1].content == g.value
                  && r == Text(200, g.value, true)))
      && (r.status == 200 ==> |ms| == |messages| + 2)
  {
    var existing := FindFirst(conversations, Keyed(bot.id, sessionId));
    if existing.Some? {
      AnsweredSpec(messages, existing.value, History(messages, existing.value.id), bot, message, env);
    } else {
      AnsweredSpec(messages, Conversation(env.stamp.conversationId, bot.id, sessionId), [], bot, message, env);
    }
  }

  /** Lines 85-101: the model gets the chatbot's prompt (or the default) with
      no knowledge context, the stored history of the conversation, oldest
      first, and the new message once, last. */
  lemma AskedWith(messages: seq<StoredMessage>, conv: Conversation, bot: Accounts.Chatbot, message: string, env: Env)
    requires env.faults.saveQuestionErr.None? && Anthropic.HasKey(env.apiKey)
    ensures var (sent, _) := Anthropic.Generated(env.apiKey, Prompted(History(messages, conv.id), message),
                                                  SystemPrompt(bot), "", env.send);
      var h := History(messages, conv.id);
      && sent.Some?
      && sent.value.messages[0] == Anthropic.WireMessage("system", SystemPrompt(bot))
      && |sent.value.messages| == |h| + 2 <= HistoryLimit + 2
      && sent.value.messages[|h| + 1] == Anthropic.WireMessage("user", message)
      && (forall i :: 0 <= i < |h| ==> sent.value.messages[i + 1] == Anthropic.WireMessage(h[i].role, h[i].content))
  {
    HistoryShape(messages, conv.id);
  }

  /** The two tables the handler writes. */
  class ChatStore {
    var conversations: seq<Conversation>
    var messages: seq<StoredMessage>

    constructor (conversations: seq<Conversation>, messages: seq<StoredMessage>)
      ensures this.conversations == conversations && this.messages == messages
    {
      this.conversations := conversations;
      this.messages := messages;
    }

    /** Lines 73-112: store the question, ask, store the answer. */
    method Answer(conv: Conversation, history: seq<StoredMessage>, bot: Accounts.Chatbot, message: string, env: Env)
      returns (r: Response)
      modifies this
      ensures conversations == old(conversations)
      ensures (messages, r) == Answered(old(messages), conv, history, bot, message, env)
    {
      if env.faults.saveQuestionErr.Some? {
        return Failure(env.faults.saveQuestionErr.value);
      }
      messages := messages + [StoredMessage(conv.id, "user", message, env.stamp.questionAt)];
      var context := "";
      var chatMessages := Prompted(history, message);
      var (_, reply) := Anthropic.Generated(env.apiKey, chatMessages, SystemPrompt(bot), context, env.send);
      if reply.Err? {
        return Failure(reply.msg);
      }
      if env.faults.saveAnswerErr.Some? {
        return Failure(env.faults.saveAnswerErr.value);
      }
      messages := messages + [StoredMessage(conv.id, "assistant", reply.value, env.stamp.answerAt)];
      r := Text(200, reply.value, true);
    }

    /** `POST(req)` (lines 10-132). */
    method Post(body: Result<ChatBody>, env: Env) returns (r: Response)
      modifies this
      ensures (conversations, messages, r) == Chatted(old(conversations), old(messages), body, env)
    {
      var pick := Picked(body, env);
      if pick.Early? {
        return pick.response;
      }
      var bot := pick.chatbot;
      var message, sessionId := body.value.message.value, body.value.sessionId.value;
      if env.faults.findErr.Some? {
        return Failure(env.faults.findErr.value);
      }
      var found := FindFirst(conversations, Keyed(bot.id, sessionId));
      var conv: Conversation;
      var history: seq<StoredMessage>;
      if found.Some? {
        conv := found.value;
        history := History(messages, conv.id);
      } else {
        if env.faults.createErr.Some? {
          return Failure(env.faults.createErr.value);
        }
        conv := Conversation(env.stamp.conversationId, bot.id, sessionId);
        conversations := conversations + [conv];
        history := [];
      }
      r := Answer(conv, history, bot, message, env);
    }
  }

  /** `OPTIONS()` (lines 134-142): the CORS preflight headers. */
  function Preflight(): (headers: seq<(string, string)>)
    ensures |headers| == 3 && headers[0] == ("Access-Control-Allow-Origin", "*")
  {
    [("Access-Control-Allow-Origin", "*"),
     ("Access-Control-Allow-Methods", "POST, OPTIONS"),
     ("Access-Control-Allow-Headers", "Content-Type")]
  }
}
