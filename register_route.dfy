/** The registration endpoint of src/app/api/auth/register/route.ts: it checks
    the configuration and the body, refuses a taken email, then creates the user
    and the user's default chatbot, each database call wrapped in the file's own
    retry helper. */
module RegisterRoute {
  import opened Common
  import Accounts
  import Retry

  const NotConfigured: string := "השרת לא מוגדר. חסר חיבור למסד נתונים."
  const MissingFields: string := "אימייל וסיסמה הם שדות חובה"
  const ShortPassword: string := "הסיסמה חייבת להכיל לפחות 6 תווים"
  const EmailTaken: string := "משתמש עם אימייל זה כבר קיים"
  const CreatedMessage: string := "המשתמש נוצר בהצלחה"
  const RegistrationFailed: string := "אירעה שגיאה בהרשמה"
  const DefaultBotName: string := "הצ'אטבוט שלי"
  const DefaultBotPrompt: string := "אתה עוזר וירטואלי מועיל. ענה על שאלות בצורה ברורה ומועילה בעברית."
  const DefaultBotWelcome: string := "שלום! איך אוכל לעזור לך היום?"
  const MinPasswordLength: nat := 6
  const MaxAttempts: int := 3

  // ---------------------------------------------------------------------------
  // The file's own retry helper (lines 8-33)
  // ---------------------------------------------------------------------------

  /** Lines 16-19: the messages this helper treats as a dropped connection. */
  predicate RegisterTransient(m: string) {
    || Contains(m, "closed the connection")
    || Contains(m, "P1001")
    || Contains(m, "P1002")
  }

  function RegisterErrors(): string -> bool { (m: string) => RegisterTransient(m) }

  /** Every error this helper retries the shared wrapper retries too, but not
      the other way round: an "ECONNRESET" is retried there and rethrown here. */
  lemma RegisterRetryNarrower()
    ensures forall m :: RegisterTransient(m) ==> Retry.IsConnectionError(m)
    ensures Retry.IsConnectionError("ECONNRESET") && !RegisterTransient("ECONNRESET")
  {
    assert StartsWith("ECONNRESET", "ECONNRESET");
    NotContainsLonger("ECONNRESET", "closed the connection");
    NotContainsByFirstChar("ECONNRESET", "P1001");
    NotContainsByFirstChar("ECONNRESET", "P1002");
  }

  /** `withRetry(operation)` of lines 8-33, with its default of three calls:
      the loop is the shared wrapper's, with this file's list of retried
      errors; `reconnect(j)` is the rejection, if any, of the
      `$disconnect()`/`$connect()` pair of lines 24-26 after call `j`. */
  method LocalWithRetry<T>(attempt: nat -> Result<T>, reconnect: nat -> Option<string>) returns (run: Retry.Run<T>)
    ensures run == Retry.Retried(attempt, reconnect, MaxAttempts, RegisterErrors(), 0)
    ensures 1 <= run.calls <= MaxAttempts && run.reconnects == run.calls - 1
    ensures forall j :: 0 <= j < run.calls - 1 ==>
      attempt(j).Err? && RegisterTransient(attempt(j).msg) && reconnect(j).None?
    ensures var last := attempt(run.calls - 1);
      if run.calls < MaxAttempts && last.Err? && RegisterTransient(last.msg)
      then reconnect(run.calls - 1).Some? && run.result == Err(reconnect(run.calls - 1).value)
      else run.result == last
  {
    run := Retry.WithRetry(attempt, reconnect, MaxAttempts, RegisterErrors());
    Retry.RetriedSpec(attempt, reconnect, MaxAttempts, RegisterErrors());
  }

  /** An operation whose first call fails with "ECONNRESET" is given up at
      once by this helper, while the shared wrapper calls it again. */
  lemma ResetNotRetried<T>(attempt: nat -> Result<T>, reconnect: nat -> Option<string>)
    requires attempt(0) == Err("ECONNRESET")
    ensures Retry.Retried(attempt, reconnect, MaxAttempts, RegisterErrors(), 0) == Retry.Run(Err("ECONNRESET"), 1, 0)
    ensures reconnect(0).None? ==>
      Retry.Retried(attempt, reconnect, Retry.DefaultMaxRetries, Retry.ConnectionErrors(), 0).calls >= 2
    ensures reconnect(0).Some? ==>
      Retry.Retried(attempt, reconnect, Retry.DefaultMaxRetries, Retry.ConnectionErrors(), 0)
      == Retry.Run(Err(reconnect(0).value), 1, 0)
  {
    RegisterRetryNarrower();
    Retry.RetriedFrom(attempt, reconnect, Retry.DefaultMaxRetries, Retry.ConnectionErrors(), 1);
  }

  // ---------------------------------------------------------------------------
  // The handler (lines 35-122)
  // ---------------------------------------------------------------------------

  /** The JSON body; an absent field is `None`. */
  datatype RegisterBody = RegisterBody(name: Option<string>, email: Option<string>, password: Option<string>)

  /** The failures of one wrapped operation: `call(j)` is the error of its
      call `j`, if it fails, and `reconnect(j)` the rejection, if any, of the
      reconnect after call `j`. A call that fails writes nothing. */
  datatype CallFaults = CallFaults(call: nat -> Option<string>, reconnect: nat -> Option<string>)

  /** The faults of the three wrapped operations. */
  datatype RegisterFaults = RegisterFaults(find: CallFaults, createUser: CallFaults, createBot: CallFaults)

  /** Everything outside the two tables: `DATABASE_URL`, whether `NODE_ENV` is
      "development", `bcrypt.hash(·, 12)`, the ids the database assigns and the
      faults. */
  datatype RegisterEnv = RegisterEnv(databaseUrl: Option<string>, development: bool, hash: string -> string,
                                     userId: string, chatbotId: string, faults: RegisterFaults)

  datatype Response =
    | Json(status: nat, error: string, details: Option<string>)
    | Registered(message: string)

  /** The successive calls of an operation that yields `v` unless its call
      fails. */
  function Attempts<T>(v: T, faults: nat -> Option<string>): nat -> Result<T> {
    (i: nat) => if faults(i).Some? then Err(faults(i).value) else Ok(v)
  }

  /** What `withRetry` ends with for such an operation. */
  function Wrapped<T>(v: T, faults: CallFaults): Result<T> {
    Retry.Retried(Attempts(v, faults.call), faults.reconnect, MaxAttempts, RegisterErrors(), 0).result
  }

  /** A wrapped operation either yields its value or fails with the message
      of one of its first three calls, or with the rejection of a reconnect
      that followed one of its first two calls. */
  lemma WrappedOutcome<T>(v: T, faults: CallFaults)
    ensures Wrapped(v, faults).Ok? ==> Wrapped(v, faults).value == v
    ensures Wrapped(v, faults).Err? ==>
      || (exists j :: 0 <= j < MaxAttempts && faults.call(j) == Some(Wrapped(v, faults).msg))
      || (exists j :: 0 <= j < MaxAttempts - 1 && faults.call(j).Some? &&
                      faults.reconnect(j) == Some(Wrapped(v, faults).msg))
    ensures (forall j :: 0 <= j < MaxAttempts - 1 ==> faults.reconnect(j).None?) && Wrapped(v, faults).Err? ==>
      exists j :: 0 <= j < MaxAttempts && faults.call(j) == Some(Wrapped(v, faults).msg)
  {
    var attempt := Attempts(v, faults.call);
    Retry.RetriedSpec(attempt, faults.reconnect, MaxAttempts, RegisterErrors());
    var run := Retry.Retried(attempt, faults.reconnect, MaxAttempts, RegisterErrors(), 0);
    var last := run.calls - 1;
    if run.result.Err? {
      if Retry.RetriesAfter(attempt, MaxAttempts, RegisterErrors(), last) {
        assert faults.call(last).Some? && faults.reconnect(last) == Some(run.result.msg);
      } else {
        assert faults.call(last) == Some(run.result.msg);
      }
    }
  }

  /** Line 107: a message that looks like a Prisma error. */
  predicate PrismaLike(m: string) {
    Contains(m, "prisma") || Contains(m, "P1001") || Contains(m, "P1002")
  }

  /** Lines 105-121: every thrown error becomes a 500 with the same text;
      the message is shown only in development or when it looks like a Prisma
      error. */
  function Failed(m: string, development: bool): (r: Response)
    ensures r.Json? && r.status == 500 && r.error == RegistrationFailed
    ensures r.details.Some? <==> development || PrismaLike(m)
    ensures r.details.Some? ==> r.details.value == m
  {
    if development || PrismaLike(m) then Json(500, RegistrationFailed, Some(m))
    else Json(500, RegistrationFailed, None)
  }

  /** The production reply to a connection error this file retries shows its
      message, except for a dropped connection reported in words only. */
  lemma RetriedErrorsShown(m: string)
    requires RegisterTransient(m) && !Contains(m, "closed the connection")
    ensures Failed(m, false).details == Some(m)
  {
  }

  /** The user row lines 79-87 create; a new user is not an administrator
      (prisma/schema.prisma is not part of this model). */
  function NewUser(body: RegisterBody, env: RegisterEnv): Accounts.User
    requires body.email.Some? && body.password.Some?
  {
    Accounts.User(env.userId, body.name.GetOr(""), body.email.value, env.hash(body.password.value), false)
  }

  /** The chatbot row lines 90-99 create for a new user. */
  function DefaultBot(env: RegisterEnv, userId: string): Accounts.Chatbot {
    Accounts.Chatbot(env.chatbotId, userId, DefaultBotName, DefaultBotPrompt, DefaultBotWelcome)
  }

  /** The checks of lines 37-59, which touch no table. */
  predicate Rejected(body: Result<RegisterBody>, env: RegisterEnv) {
    || !Given(env.databaseUrl)
    || body.Err?
    || !Given(body.value.email) || !Given(body.value.password)
    || |body.value.password.value| < MinPasswordLength
  }

  /** `POST(req)`: the new users and chatbots tables and the response. */
  function Register(users: seq<Accounts.User>, chatbots: seq<Accounts.Chatbot>, body: Result<RegisterBody>,
                    env: RegisterEnv): (seq<Accounts.User>, seq<Accounts.Chatbot>, Response)
  {
    if !Given(env.databaseUrl) then (users, chatbots, Json(503, NotConfigured, None))
    else if body.Err? then (users, chatbots, Failed(body.msg, env.development))
    else if !Given(body.value.email) || !Given(body.value.password) then (users, chatbots, Json(400, MissingFields, None))
    else if |body.value.password.value| < MinPasswordLength then (users, chatbots, Json(400, ShortPassword, None))
    else
      var found := Wrapped(Accounts.UserByEmail(users, body.value.email.value), env.faults.find);
      if found.Err? then (users, chatbots, Failed(found.msg, env.development))
      else if found.value.Some? then (users, chatbots, Json(400, EmailTaken, None))
      else
        var user := Wrapped(NewUser(body.value, env), env.faults.createUser);
        if user.Err? then (users, chatbots, Failed(user.msg, env.development))
        else
          var bot := Wrapped(DefaultBot(env, user.value.id), env.faults.createBot);
          if bot.Err? then (users + [user.value], chatbots, Failed(bot.msg, env.development))
          else (users + [user.value], chatbots + [bot.value], Registered(CreatedMessage))
  }

  /** Lines 37-59: a missing `DATABASE_URL` is answered 503 before the body
      is read, then an unreadable body 500, then a missing email or password
      400, then a short password 400; none of them reads or writes a table, so
      the reply depends on neither the tables nor the database faults. */
  lemma ChecksFirst(users: seq<Accounts.User>, chatbots: seq<Accounts.Chatbot>, body: Result<RegisterBody>,
                    env: RegisterEnv, users': seq<Accounts.User>, chatbots': seq<Accounts.Chatbot>,
                    faults': RegisterFaults)
    requires Rejected(body, env)
    ensures var (us, bs, r) := Register(users, chatbots, body, env);
      && us == users && bs == chatbots
      && r == Register(users', chatbots', body, env.(faults := faults')).2
      && (!Given(env.databaseUrl) ==> r == Json(503, NotConfigured, None))
      && (Given(env.databaseUrl) && body.Err? ==> r == Failed(body.msg, env.development))
      && ((Given(env.databaseUrl) && body.Ok? && (!Given(body.value.email) || !Given(body.value.password)))
            ==> r == Json(400, MissingFields, None))
      && ((Given(env.databaseUrl) && body.Ok? && Given(body.value.email) && Given(body.value.password))
            ==> r == Json(400, ShortPassword, None))
  {
  }

  /** Lines 62-73: when a user with the email exists, no user or chatbot is
      created, whatever the lookup's faults; the reply is 400 unless the
      lookup itself fails. */
  lemma TakenEmail(users: seq<Accounts.User>, chatbots: seq<Accounts.Chatbot>, body: Result<RegisterBody>,
                   env: RegisterEnv)
    requires !Rejected(body, env)
    requires Accounts.UserByEmail(users, body.value.email.value).Some?
    ensures var (us, bs, r) := Register(users, chatbots, body, env);
      && us == users && bs == chatbots
      && (r == Json(400, EmailTaken, None) || (r.Json? && r.status == 500 && r.error == RegistrationFailed))
      && (env.faults.find.call(0).None? ==> r == Json(400, EmailTaken, None))
  {
    var found := Accounts.UserByEmail(users, body.value.email.value);
    WrappedOutcome(found, env.faults.find);
    Retry.RetriedFirstCall(Attempts(found, env.faults.find.call), env.faults.find.reconnect, MaxAttempts,
                           RegisterErrors());
  }

  /** Lines 62-104: a registration succeeds exactly when the email is free
      and all three wrapped calls succeed; it then adds one user, with the
      hashed password, and one default chatbot owned by that user. A failure
      after the user's creation leaves the user without a chatbot. */
  lemma RegisterSpec(users: seq<Accounts.User>, chatbots: seq<Accounts.Chatbot>, body: Result<RegisterBody>,
                     env: RegisterEnv)
    requires !Rejected(body, env)
    ensures var (us, bs, r) := Register(users, chatbots, body, env);
      var user := NewUser(body.value, env);
      && (r.Registered? <==>
            && Wrapped(Accounts.UserByEmail(users, body.value.email.value), env.faults.find) == Ok(None)
            && Wrapped(user, env.faults.createUser).Ok?
            && Wrapped(DefaultBot(env, env.userId), env.faults.createBot).Ok?)
      && (r.Registered? ==>
            && Accounts.UserByEmail(users, body.value.email.value).None?
            && us == users + [user] && bs == chatbots + [DefaultBot(env, env.userId)]
            && user.email == body.value.email.value && user.password == env.hash(body.value.password.value)
            && r == Registered(CreatedMessage))
      && (!r.Registered? ==> bs == chatbots && (us == users || us == users + [user]) && r.Json?)
  {
    var found := Accounts.UserByEmail(users, body.value.email.value);
    var user := NewUser(body.value, env);
    WrappedOutcome(found, env.faults.find);
    WrappedOutcome(user, env.faults.createUser);
    WrappedOutcome(DefaultBot(env, env.userId), env.faults.createBot);
  }

  /** The user and chatbot tables the handler writes. */
  class Directory {
    var users: seq<Accounts.User>
    var chatbots: seq<Accounts.Chatbot>

    constructor (users: seq<Accounts.User>, chatbots: seq<Accounts.Chatbot>)
      ensures this.users == users && this.chatbots == chatbots
    {
      this.users := users;
      this.chatbots := chatbots;
    }

    /** `POST(req)` (lines 35-122). */
    method Post(body: Result<RegisterBody>, env: RegisterEnv) returns (r: Response)
      modifies this
      ensures (users, chatbots, r) == Register(old(users), old(chatbots), body, env)
    {
      if !Given(env.databaseUrl) {
        return Json(503, NotConfigured, None);
      }
      if body.Err? {
        return Failed(body.msg, env.development);
      }
      var b := body.value;
      if !Given(b.email) || !Given(b.password) {
        return Json(400, MissingFields, None);
      }
      if |b.password.value| < MinPasswordLength {
        return Json(400, ShortPassword, None);
      }
      var found := LocalWithRetry(Attempts(Accounts.UserByEmail(users, b.email.value), env.faults.find.call),
                                  env.faults.find.reconnect);
      if found.result.Err? {
        return Failed(found.result.msg, env.development);
      }
      if found.result.value.Some? {
        return Json(400, EmailTaken, None);
      }
      var user := LocalWithRetry(Attempts(NewUser(b, env), env.faults.createUser.call), env.faults.createUser.reconnect);
      if user.result.Err? {
        return Failed(user.result.msg, env.development);
      }
      users := users + [user.result.value];
      var bot := LocalWithRetry(Attempts(DefaultBot(env, user.result.value.id), env.faults.createBot.call),
                                env.faults.createBot.reconnect);
      if bot.result.Err? {
        return Failed(bot.result.msg, env.development);
      }
      chatbots := chatbots + [bot.result.value];
      r := Registered(CreatedMessage);
    }
  }
}
