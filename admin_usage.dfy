/** The admin usage report of src/app/api/admin/usage/route.ts: per-user token
    and message counts over the assistant replies of all their chatbots, the
    totals across users, and the ranking by tokens. Costs are floating point
    and are not modelled; every other field is. */
module AdminUsage {
  import opened Common
  import Accounts

  const NotAdmin: string := "אין הרשאות מנהל"
  const LoadFailed: string := "שגיאה בטעינת נתוני השימוש"

  /** A stored message, with the fields the report selects. */
  datatype UsageMessage = UsageMessage(role: string, promptTokens: Option<int>, completionTokens: Option<int>,
                                       totalTokens: Option<int>, createdAt: int)
  datatype Conversation = Conversation(id: string, messages: seq<UsageMessage>)
  datatype BotUsage = BotUsage(id: string, conversations: seq<Conversation>)
  datatype UserRecord = UserRecord(id: string, name: string, email: string, createdAt: int, chatbots: seq<BotUsage>)

  /** One row of the `users` list of the report. */
  datatype UserUsage = UserUsage(id: string, name: string, email: string, totalTokens: int, promptTokens: int,
                                 completionTokens: int, conversationsCount: nat, messagesCount: nat,
                                 lastActivity: Option<int>)

  /** The integer fields of `totals`. */
  datatype Totals = Totals(totalTokens: int, promptTokens: int, completionTokens: int, totalConversations: int,
                           totalMessages: int, activeUsers: nat)

  datatype Reply = Refused(status: nat, error: string) | Report(totals: Totals, users: seq<UserUsage>)

  // ---------------------------------------------------------------------------
  // The query (lines 17-50)
  // ---------------------------------------------------------------------------

  /** Lines 31-34: only assistant replies with a token count are selected. */
  function Counted(): UsageMessage -> bool {
    (m: UsageMessage) => m.role == "assistant" && m.totalTokens.Some?
  }

  /** Lines 27-43: every conversation, with only its counted messages. */
  function FetchedConversations(cs: seq<Conversation>): (r: seq<Conversation>)
    ensures |r| == |cs|
    ensures forall i :: 0 <= i < |cs| ==> r[i].id == cs[i].id && r[i].messages == Filter(cs[i].messages, Counted())
  {
    if cs == [] then []
    else
      var c := cs[|cs| - 1];
      FetchedConversations(cs[..|cs| - 1]) + [Conversation(c.id, Filter(c.messages, Counted()))]
  }

  /** Lines 24-45: every chatbot, with its fetched conversations. */
  function FetchedBots(bs: seq<BotUsage>): (r: seq<BotUsage>)
    ensures |r| == |bs|
    ensures forall i :: 0 <= i < |bs| ==>
      r[i].id == bs[i].id && r[i].conversations == FetchedConversations(bs[i].conversations)
  {
    if bs == [] then []
    else
      var b := bs[|bs| - 1];
      FetchedBots(bs[..|bs| - 1]) + [BotUsage(b.id, FetchedConversations(b.conversations))]
  }

  function Fetched(u: UserRecord): UserRecord {
    u.(chatbots := FetchedBots(u.chatbots))
  }

  /** Lines 17-50 before the ordering: every user, each with the fetched
      chatbots and the rest of the record as stored. */
  function FetchedAll(rs: seq<UserRecord>): (r: seq<UserRecord>)
    ensures |r| == |rs|
    ensures forall i :: 0 <= i < |rs| ==> r[i] == rs[i].(chatbots := FetchedBots(rs[i].chatbots))
  {
    if rs == [] then [] else FetchedAll(rs[..|rs| - 1]) + [Fetched(rs[|rs| - 1])]
  }

  function NewestFirst(): UserRecord -> int { (u: UserRecord) => -u.createdAt }

  /** `user.findMany(...)` over the stored rows (lines 17-50): the selected
      messages of each user, users newest first. */
  function Query(rows: seq<UserRecord>): seq<UserRecord> {
    SortBy(FetchedAll(rows), NewestFirst())
  }

  // ---------------------------------------------------------------------------
  // What one user's loop adds up (lines 53-90)
  // ---------------------------------------------------------------------------

  /** The messages of some conversations, in loop order. */
  function ConversationMessages(cs: seq<Conversation>): seq<UsageMessage> {
    if cs == [] then [] else ConversationMessages(cs[..|cs| - 1]) + cs[|cs| - 1].messages
  }

  /** The messages of some chatbots, in loop order. */
  function BotMessages(bs: seq<BotUsage>): seq<UsageMessage> {
    if bs == [] then [] else BotMessages(bs[..|bs| - 1]) + ConversationMessages(bs[|bs| - 1].conversations)
  }

  function ConversationCount(bs: seq<BotUsage>): nat {
    if bs == [] then 0 else ConversationCount(bs[..|bs| - 1]) + |bs[|bs| - 1].conversations|
  }

  function TotalOf(): UsageMessage -> Option<int> { (m: UsageMessage) => m.totalTokens }
  function PromptOf(): UsageMessage -> Option<int> { (m: UsageMessage) => m.promptTokens }
  function CompletionOf(): UsageMessage -> Option<int> { (m: UsageMessage) => m.completionTokens }

  /** The sum of one token field, a missing count adding 0 (`x || 0`). */
  function TokenSum(ms: seq<UsageMessage>, field: UsageMessage -> Option<int>): int {
    if ms == [] then 0 else TokenSum(ms[..|ms| - 1], field) + field(ms[|ms| - 1]).GetOr(0)
  }

  /** The running values of lines 54-60 other than `totalCost` and
      `conversationsCount`. */
  datatype Tally = Tally(totalTokens: int, promptTokens: int, completionTokens: int, messagesCount: nat,
                         lastActivity: Option<int>)

  /** One message of the innermost loop (lines 66-73): `lastActivity` moves
      only to a strictly later timestamp. */
  function Step(t: Tally, m: UsageMessage): Tally {
    Tally(t.totalTokens + m.totalTokens.GetOr(0), t.promptTokens + m.promptTokens.GetOr(0),
          t.completionTokens + m.completionTokens.GetOr(0), t.messagesCount + 1,
          if t.lastActivity.None? || m.createdAt > t.lastActivity.value then Some(m.createdAt) else t.lastActivity)
  }

  /** The tally after the messages in loop order, from `t`. */
  function Run(t: Tally, ms: seq<UsageMessage>): Tally {
    if ms == [] then t else Step(Run(t, ms[..|ms| - 1]), ms[|ms| - 1])
  }

  /** The tally of a user's messages, from the initial values of lines 54-60. */
  function TallyOf(ms: seq<UsageMessage>): Tally {
    Run(Tally(0, 0, 0, 0, None), ms)
  }

  /** Counting two runs of messages one after the other. */
  lemma {:induction false} RunAppend(t: Tally, a: seq<UsageMessage>, b: seq<UsageMessage>)
    ensures Run(t, a + b) == Run(Run(t, a), b)
    decreases |b|
  {
    if b == [] {
      assert a + b == a;
    } else {
      var b0 := b[..|b| - 1];
      assert (a + b)[..|a + b| - 1] == a + b0;
      assert (a + b)[|a + b| - 1] == b[|b| - 1];
      RunAppend(t, a, b0);
    }
  }

  /** The usage row of one fetched user (lines 78-89). */
  function Usage(u: UserRecord): UserUsage {
    var t := TallyOf(BotMessages(u.chatbots));
    UserUsage(u.id, u.name, u.email, t.totalTokens, t.promptTokens, t.completionTokens,
              ConversationCount(u.chatbots), t.messagesCount, t.lastActivity)
  }

  /** The counters are the field sums and the message count. */
  lemma {:induction false} TallySums(ms: seq<UsageMessage>)
    ensures var t := TallyOf(ms);
      && t.messagesCount == |ms|
      && t.totalTokens == TokenSum(ms, TotalOf())
      && t.promptTokens == TokenSum(ms, PromptOf())
      && t.completionTokens == TokenSum(ms, CompletionOf())
    decreases |ms|
  {
    if ms != [] {
      TallySums(ms[..|ms| - 1]);
    }
  }

  /** `lastActivity` is null exactly when there is no counted message, and is
      otherwise the greatest `createdAt`, the one of its first occurrence. */
  lemma {:induction false} LatestIsMax(ms: seq<UsageMessage>)
    ensures TallyOf(ms).lastActivity.None? <==> ms == []
    ensures var last := TallyOf(ms).lastActivity; last.Some? ==>
      (forall i :: 0 <= i < |ms| ==> ms[i].createdAt <= last.value)
      && exists i :: 0 <= i < |ms| && ms[i].createdAt == last.value
           && forall j :: 0 <= j < i ==> ms[j].createdAt < last.value
    decreases |ms|
  {
    if ms != [] {
      var init := ms[..|ms| - 1];
      var m := ms[|ms| - 1];
      var before := TallyOf(init).lastActivity;
      var last := TallyOf(ms).lastActivity;
      LatestIsMax(init);
      assert forall i :: 0 <= i < |init| ==> ms[i] == init[i];
      if before.Some? && m.createdAt <= before.value {
        var i :| 0 <= i < |init| && init[i].createdAt == before.value
                 && forall j :: 0 <= j < i ==> init[j].createdAt < before.value;
        assert ms[i].createdAt == last.value;
      } else {
        assert ms[|ms| - 1].createdAt == last.value;
      }
    }
  }

  lemma {:induction false} TokenSumAppend(a: seq<UsageMessage>, b: seq<UsageMessage>, field: UsageMessage -> Option<int>)
    ensures TokenSum(a + b, field) == TokenSum(a, field) + TokenSum(b, field)
    decreases |b|
  {
    if b == [] {
      assert a + b == a;
    } else {
      var b0 := b[..|b| - 1];
      assert (a + b)[..|a + b| - 1] == a + b0;
      assert (a + b)[|a + b| - 1] == b[|b| - 1];
      TokenSumAppend(a, b0, field);
    }
  }

  /** The loop over the messages of the fetched record counts exactly the
      assistant replies with a token count among the user's stored messages. */
  lemma {:induction false} FetchedConversationMessages(cs: seq<Conversation>)
    ensures ConversationMessages(FetchedConversations(cs)) == Filter(ConversationMessages(cs), Counted())
    decreases |cs|
  {
    if cs != [] {
      var init := cs[..|cs| - 1];
      var f := FetchedConversations(cs);
      assert f[..|f| - 1] == FetchedConversations(init);
      FetchedConversationMessages(init);
      FilterAppend(ConversationMessages(init), cs[|cs| - 1].messages, Counted());
    }
  }

  lemma {:induction false} FetchedBotMessages(bs: seq<BotUsage>)
    ensures BotMessages(FetchedBots(bs)) == Filter(BotMessages(bs), Counted())
    ensures ConversationCount(FetchedBots(bs)) == ConversationCount(bs)
    decreases |bs|
  {
    if bs != [] {
      var init := bs[..|bs| - 1];
      var f := FetchedBots(bs);
      assert f[..|f| - 1] == FetchedBots(init);
      FetchedBotMessages(init);
      FetchedConversationMessages(bs[|bs| - 1].conversations);
      FilterAppend(BotMessages(init), ConversationMessages(bs[|bs| - 1].conversations), Counted());
    }
  }

  /** Lines 31-34 and 62-76: a user's row counts all their conversations, and
      counts and sums exactly their assistant replies with a token count, a
      missing prompt or completion count adding 0. */
  lemma UsageCounts(u: UserRecord)
    ensures var r := Usage(Fetched(u)); var counted := Filter(BotMessages(u.chatbots), Counted());
      && r.conversationsCount == ConversationCount(u.chatbots)
      && r.messagesCount == |counted|
      && r.totalTokens == TokenSum(counted, TotalOf())
      && r.promptTokens == TokenSum(counted, PromptOf())
      && r.completionTokens == TokenSum(counted, CompletionOf())
      && (r.lastActivity.None? <==> counted == [])
  {
    FetchedBotMessages(u.chatbots);
    TallySums(Filter(BotMessages(u.chatbots), Counted()));
    LatestIsMax(Filter(BotMessages(u.chatbots), Counted()));
  }

  /** The innermost loop (lines 65-74) over one conversation's messages. */
  method CountMessages(t: Tally, messages: seq<UsageMessage>) returns (r: Tally)
    ensures r == Run(t, messages)
  {
    r := t;
    var k := 0;
    while k < |messages|
      invariant 0 <= k <= |messages|
      invariant r == Run(t, messages[..k])
    {
      var msg := messages[k];
      assert messages[..k + 1][..k] == messages[..k];
      r := r.(messagesCount := r.messagesCount + 1,
              totalTokens := r.totalTokens + msg.totalTokens.GetOr(0),
              promptTokens := r.promptTokens + msg.promptTokens.GetOr(0),
              completionTokens := r.completionTokens + msg.completionTokens.GetOr(0));
      if r.lastActivity.None? || msg.createdAt > r.lastActivity.value {
        r := r.(lastActivity := Some(msg.createdAt));
      }
      k := k + 1;
    }
    assert messages[..k] == messages;
  }

  /** The middle loop (lines 64-75) over one chatbot's conversations. */
  method CountConversations(t: Tally, conversations: seq<Conversation>) returns (r: Tally)
    ensures r == Run(t, ConversationMessages(conversations))
  {
    r := t;
    var j := 0;
    while j < |conversations|
      invariant 0 <= j <= |conversations|
      invariant r == Run(t, ConversationMessages(conversations[..j]))
    {
      var conv := conversations[j];
      assert conversations[..j + 1][..j] == conversations[..j];
      RunAppend(t, ConversationMessages(conversations[..j]), conv.messages);
      r := CountMessages(r, conv.messages);
      j := j + 1;
    }
    assert conversations[..j] == conversations;
  }

  /** `usersWithUsage`'s callback for one user (lines 53-90). */
  method UsageOf(u: UserRecord) returns (r: UserUsage)
    ensures r == Usage(u)
  {
    var tally := Tally(0, 0, 0, 0, None);
    var conversationsCount: nat := 0;
    var i := 0;
    while i < |u.chatbots|
      invariant 0 <= i <= |u.chatbots|
      invariant conversationsCount == ConversationCount(u.chatbots[..i])
      invariant tally == TallyOf(BotMessages(u.chatbots[..i]))
    {
      var chatbot := u.chatbots[i];
      assert u.chatbots[..i + 1][..i] == u.chatbots[..i];
      conversationsCount := conversationsCount + |chatbot.conversations|;
      RunAppend(Tally(0, 0, 0, 0, None), BotMessages(u.chatbots[..i]), ConversationMessages(chatbot.conversations));
      tally := CountConversations(tally, chatbot.conversations);
      i := i + 1;
    }
    assert u.chatbots[..i] == u.chatbots;
    r := UserUsage(u.id, u.name, u.email, tally.totalTokens, tally.promptTokens, tally.completionTokens,
                   conversationsCount, tally.messagesCount, tally.lastActivity);
  }

  // ---------------------------------------------------------------------------
  // Totals and ranking (lines 93-111)
  // ---------------------------------------------------------------------------

  /** `users.map(...)` over the queried users. */
  function Usages(us: seq<UserRecord>): (r: seq<UserUsage>)
    ensures |r| == |us|
  {
    if us == [] then [] else Usages(us[..|us| - 1]) + [Usage(us[|us| - 1])]
  }

  /** The `reduce` of lines 93-103, without `activeUsers`. */
  function Summed(rs: seq<UserUsage>): Totals {
    if rs == [] then Totals(0, 0, 0, 0, 0, 0)
    else
      var acc := Summed(rs[..|rs| - 1]);
      var u := rs[|rs| - 1];
      Totals(acc.totalTokens + u.totalTokens, acc.promptTokens + u.promptTokens,
             acc.completionTokens + u.completionTokens, acc.totalConversations + u.conversationsCount,
             acc.totalMessages + u.messagesCount, 0)
  }

  function Active(): UserUsage -> bool { (u: UserUsage) => u.totalTokens > 0 }
  function ByTokensDesc(): UserUsage -> int { (u: UserUsage) => -u.totalTokens }

  /** Every message of every user, in the order the report visits them. */
  function AllMessages(us: seq<UserRecord>): seq<UsageMessage> {
    if us == [] then [] else AllMessages(us[..|us| - 1]) + BotMessages(us[|us| - 1].chatbots)
  }

  /** Lines 93-103: the totals add up the same counts as one pass over all
      users' counted messages would. */
  lemma {:induction false} SummedMessages(us: seq<UserRecord>)
    ensures var t := Summed(Usages(us)); var ms := AllMessages(us);
      && t.totalMessages == |ms|
      && t.totalTokens == TokenSum(ms, TotalOf())
      && t.promptTokens == TokenSum(ms, PromptOf())
      && t.completionTokens == TokenSum(ms, CompletionOf())
    decreases |us|
  {
    if us != [] {
      var init := us[..|us| - 1];
      var r := Usages(us);
      assert r[..|r| - 1] == Usages(init);
      SummedMessages(init);
      var last := BotMessages(us[|us| - 1].chatbots);
      TallySums(last);
      TokenSumAppend(AllMessages(init), last, TotalOf());
      TokenSumAppend(AllMessages(init), last, PromptOf());
      TokenSumAppend(AllMessages(init), last, CompletionOf());
    }
  }

  /** `GET` (lines 8-117). The caller is `getCurrentUser()`'s outcome and the
      query's outcome after `withRetry`. */
  function Handled(caller: Result<Option<Accounts.User>>, rows: Result<seq<UserRecord>>): Reply {
    if caller.Err? then Refused(500, LoadFailed)
    else if caller.value.None? || !caller.value.value.isAdmin then Refused(403, NotAdmin)
    else if rows.Err? then Refused(500, LoadFailed)
    else
      var usages := Usages(Query(rows.value));
      Report(Summed(usages).(activeUsers := |Filter(usages, Active())|), SortBy(usages, ByTokensDesc()))
  }

  /** Lines 10-14: a caller who is missing or not an admin gets 403 whatever the
      database holds or does. */
  lemma HandledAdminOnly(caller: Result<Option<Accounts.User>>, rows: Result<seq<UserRecord>>)
    requires caller.Ok? && (caller.value.None? || !caller.value.value.isAdmin)
    ensures Handled(caller, rows) == Refused(403, NotAdmin)
    ensures Handled(caller, rows) == Handled(caller, Err("unused"))
  {
  }

  /** Lines 105-111: the report lists one row per user, the rows reordered by
      non-increasing `totalTokens`; `activeUsers` is the number of listed rows
      with a positive `totalTokens`. */
  lemma HandledReport(caller: Result<Option<Accounts.User>>, rows: Result<seq<UserRecord>>)
    requires caller.Ok? && caller.value.Some? && caller.value.value.isAdmin && rows.Ok?
    ensures Handled(caller, rows).Report?
    ensures var rep := Handled(caller, rows); var usages := Usages(Query(rows.value));
      && |rep.users| == |rows.value|
      && multiset(rep.users) == multiset(usages)
      && (forall i, j :: 0 <= i < j < |rep.users| ==> rep.users[i].totalTokens >= rep.users[j].totalTokens)
      && rep.totals.activeUsers == |Filter(rep.users, Active())| <= |rep.users|
      && (forall u :: u in Filter(rep.users, Active()) <==> u in rep.users && u.totalTokens > 0)
      && (forall u :: u in rep.users && u.totalTokens > 0 ==> u in Filter(usages, Active()))
  {
    var usages := Usages(Query(rows.value));
    var sorted := SortBy(usages, ByTokensDesc());
    SortByCorrect(usages, ByTokensDesc());
    FilterPermutationLength(sorted, usages, Active());
    FilterMembers(sorted, Active());
    FilterMembers(usages, Active());
    MultisetMembers(sorted, usages);
  }

  /** `GET`, building the per-user rows one user at a time. */
  method HandleGet(caller: Result<Option<Accounts.User>>, rows: Result<seq<UserRecord>>) returns (reply: Reply)
    ensures reply == Handled(caller, rows)
  {
    if caller.Err? {
      return Refused(500, LoadFailed);
    }
    if caller.value.None? || !caller.value.value.isAdmin {
      return Refused(403, NotAdmin);
    }
    if rows.Err? {
      return Refused(500, LoadFailed);
    }
    var users := Query(rows.value);
    var usages: seq<UserUsage> := [];
    var i := 0;
    while i < |users|
      invariant 0 <= i <= |users|
      invariant usages == Usages(users[..i])
    {
      var usage := UsageOf(users[i]);
      assert users[..i + 1][..i] == users[..i];
      usages := usages + [usage];
      i := i + 1;
    }
    assert users[..i] == users;
    var totals := Summed(usages);
    reply := Report(totals.(activeUsers := |Filter(usages, Active())|), SortBy(usages, ByTokensDesc()));
  }
}
