/** `POST /api/knowledge/process` (src/app/api/knowledge/process/route.ts):
    re-index one knowledge source of the caller's chatbot, moving it to
    processing and then to ready or failed. */
module KnowledgeProcess {
  import opened Common
  import opened Vectors
  import opened Sources
  import opened Accounts
  import opened Queue

  /** Line 71: only this many characters of the content are indexed. */
  const MaxContentLength: nat := 100000

  const Unauthorized: string := "לא מורשה"
  const MissingSourceId: string := "חסר מזהה מקור"
  const NoChatbot: string := "צ'אטבוט לא נמצא"
  const NoSource: string := "מקור לא נמצא"
  const NothingToProcess: string := "אין תוכן לעיבוד"
  const NoContent: string := "אין תוכן"
  const ProcessingFailed: string := "העיבוד נכשל"
  const ServerError: string := "שגיאת שרת"

  /** The response: an error object with its status, or the updated row (200). */
  datatype Reply = Refused(status: nat, error: string) | Json(source: Source)

  /** The caller and the parsed body. `user` is `getCurrentUser()`'s outcome:
      `Err` when it throws, `None` when nobody is signed in, else the user's id.
      `body` is `Err` when `req.json()` throws and `None` when `sourceId` is
      absent. */
  datatype Request = Request(user: Result<Option<string>>, body: Result<Option<string>>)

  /** The chatbot table and what the two `withRetry`-wrapped lookups report. */
  datatype Lookups = Lookups(chatbots: seq<Chatbot>, chatbotErr: Option<string>, sourceErr: Option<string>)

  /** Lines 104-110: anything thrown outside the inner `try`. */
  function Crash(m: string): Reply {
    Refused(500, MessageOr(m, ServerError))
  }

  /** Line 51: `!source.content?.trim()`. */
  predicate Blank(content: Option<string>) {
    content.None? || AllSpace(content.value)
  }

  /** The `sourceId` of the body, `""` when there is none. */
  function RequestedId(rq: Request): string {
    if rq.body.Ok? && rq.body.value.Some? then rq.body.value.value else ""
  }

  /** Lines 61-102 for the caller's source `id` with content: processing with
      the error cleared, index the first 100000 characters, then ready (the
      error column untouched); if indexing or that write throws, failed with the
      message or the fallback. */
  function Reprocessed(sources: seq<Source>, chunks: seq<Chunk>, chatbotId: string, id: string,
                       content: string, f: Faults): (seq<Source>, seq<Chunk>, Reply)
  {
    var (s1, r1) := StatusWrite(sources, id, Processing, Clear, f.writeErr(Processing));
    if r1.Fail? then (s1, chunks, Crash(r1.msg))
    else
      var (c2, r2) := Indexed(chunks, chatbotId, id, Take(content, MaxContentLength),
                              f.provider, f.deleteErr, f.insertErr);
      var (s3, r3) := if r2.Fail? then (s1, r2) else StatusWrite(s1, id, Ready, Keep, f.writeErr(Ready));
      if r3.Pass? then (s3, c2, Json(RowOf(s3, id).value))
      else
        var (s4, r4) := StatusWrite(s3, id, Failed, SetTo(MessageOr(r3.msg, ProcessingFailed)), f.writeErr(Failed));
        if r4.Fail? then (s4, c2, Crash(r4.msg)) else (s4, c2, Json(RowOf(s4, id).value))
  }

  /** Lines 51-102 once the caller's source `src` is found. */
  function OnSource(sources: seq<Source>, chunks: seq<Chunk>, chatbotId: string, src: Source,
                    f: Faults): (seq<Source>, seq<Chunk>, Reply)
  {
    if Blank(src.content) then
      var (s, r) := StatusWrite(sources, src.id, Failed, SetTo(NothingToProcess), f.writeErr(Failed));
      (s, chunks, if r.Fail? then Crash(r.msg) else Refused(400, NoContent))
    else Reprocessed(sources, chunks, chatbotId, src.id, src.content.value, f)
  }

  /** What `POST` (lines 10-111) leaves in the source and chunk tables and
      what it answers. */
  function Handled(sources: seq<Source>, chunks: seq<Chunk>, rq: Request, lk: Lookups,
                   f: Faults): (seq<Source>, seq<Chunk>, Reply)
  {
    if rq.user.Err? then (sources, chunks, Crash(rq.user.msg))
    else if rq.user.value.None? then (sources, chunks, Refused(401, Unauthorized))
    else if rq.body.Err? then (sources, chunks, Crash(rq.body.msg))
    else if RequestedId(rq) == "" then (sources, chunks, Refused(400, MissingSourceId))
    else if lk.chatbotErr.Some? then (sources, chunks, Crash(lk.chatbotErr.value))
    else match ChatbotOf(lk.chatbots, rq.user.value.value)
      case None => (sources, chunks, Refused(404, NoChatbot))
      case Some(bot) =>
        if lk.sourceErr.Some? then (sources, chunks, Crash(lk.sourceErr.value))
        else match FindOwned(sources, RequestedId(rq), bot.id)
          case None => (sources, chunks, Refused(404, NoSource))
          case Some(src) => OnSource(sources, chunks, bot.id, src, f)
  }

  /** The source the request may change: the requested one, if the caller's
      chatbot owns it. */
  function Target(sources: seq<Source>, rq: Request, lk: Lookups): Option<Source> {
    if rq.user.Err? || rq.user.value.None? || RequestedId(rq) == "" then None
    else match ChatbotOf(lk.chatbots, rq.user.value.value)
      case None => None
      case Some(bot) => FindOwned(sources, RequestedId(rq), bot.id)
  }

  /** Lines 13-22 and 104-110: when `getCurrentUser()` throws the answer is
      500 with its message (or the fallback), without a user it is 401, and
      without a `sourceId` it is 400, before anything is looked up or changed. */
  lemma HandledGuards(sources: seq<Source>, chunks: seq<Chunk>, rq: Request, lk: Lookups, f: Faults)
    ensures rq.user.Err? ==>
      Handled(sources, chunks, rq, lk, f) == (sources, chunks, Refused(500, MessageOr(rq.user.msg, ServerError)))
    ensures rq.user == Ok(None) ==> Handled(sources, chunks, rq, lk, f) == (sources, chunks, Refused(401, Unauthorized))
    ensures rq.user.Ok? && rq.user.value.Some? && rq.body.Ok? && RequestedId(rq) == "" ==>
      Handled(sources, chunks, rq, lk, f) == (sources, chunks, Refused(400, MissingSourceId))
  {
  }

  /** Lines 27-49: a request changes nothing unless the caller's chatbot owns
      the requested source and both lookups succeed; then it does what lines
      51-102 do to that source. */
  lemma HandledTarget(sources: seq<Source>, chunks: seq<Chunk>, rq: Request, lk: Lookups, f: Faults)
    ensures Target(sources, rq, lk).None? || lk.chatbotErr.Some? || lk.sourceErr.Some? ==>
      Handled(sources, chunks, rq, lk, f).0 == sources && Handled(sources, chunks, rq, lk, f).1 == chunks
    ensures Target(sources, rq, lk).Some? && lk.chatbotErr.None? && lk.sourceErr.None? ==>
      && rq.body.Ok? && Target(sources, rq, lk).value.id == RequestedId(rq)
      && Handled(sources, chunks, rq, lk, f)
         == OnSource(sources, chunks, ChatbotOf(lk.chatbots, rq.user.value.value).value.id, Target(sources, rq, lk).value, f)
  {
  }

  /** Lines 61-102 leave the chunks either as they were or as indexing left
      them, and change no row but the source's own. */
  lemma ReprocessedTables(sources: seq<Source>, chunks: seq<Chunk>, chatbotId: string, id: string,
                          content: string, f: Faults)
    ensures var h := Reprocessed(sources, chunks, chatbotId, id, content, f);
      && (h.1 == chunks
          || h.1 == Indexed(chunks, chatbotId, id, Take(content, MaxContentLength), f.provider, f.deleteErr, f.insertErr).0)
      && |h.0| == |sources|
      && forall i :: 0 <= i < |sources| && sources[i].id != id ==> h.0[i] == sources[i]
  {
  }

  /** Lines 51-102 change only the row and the chunks of the source itself. */
  lemma OnSourceFrame(sources: seq<Source>, chunks: seq<Chunk>, chatbotId: string, src: Source, f: Faults,
                      other: string)
    requires other != src.id
    ensures |OnSource(sources, chunks, chatbotId, src, f).0| == |sources|
    ensures forall i :: 0 <= i < |sources| && sources[i].id != src.id ==>
      OnSource(sources, chunks, chatbotId, src, f).0[i] == sources[i]
    ensures OfSource(OnSource(sources, chunks, chatbotId, src, f).1, other) == OfSource(chunks, other)
  {
    if !Blank(src.content) {
      var id := src.id;
      var content := Take(src.content.value, MaxContentLength);
      ReprocessedTables(sources, chunks, chatbotId, id, src.content.value, f);
      var r := Indexed(chunks, chatbotId, id, content, f.provider, f.deleteErr, f.insertErr);
      if r.1.Pass? {
        IndexedSuccess(chunks, chatbotId, id, content, f.provider, f.insertErr, other);
      } else {
        IndexedFailure(chunks, chatbotId, id, content, f.provider, f.deleteErr, f.insertErr, other);
      }
    }
  }

  /** Lines 51-59: blank content marks the source failed with "no content to
      process" and answers 400, without indexing. */
  lemma OnSourceBlank(sources: seq<Source>, chunks: seq<Chunk>, chatbotId: string, src: Source, f: Faults, i: nat)
    requires Blank(src.content) && f.writeErr(Failed).None?
    requires i < |sources| && sources[i].id == src.id
    ensures OnSource(sources, chunks, chatbotId, src, f).2 == Refused(400, NoContent)
    ensures OnSource(sources, chunks, chatbotId, src, f).1 == chunks
    ensures OnSource(sources, chunks, chatbotId, src, f).0[i].status == Failed
    ensures OnSource(sources, chunks, chatbotId, src, f).0[i].error == Some(NothingToProcess)
  {
    assert HasId(sources, src.id);
  }

  /** Lines 61-102: once the processing write went through, the first 100000
      characters are indexed and the answer is the updated row: ready with no
      error when indexing and the ready write succeed, failed otherwise with the
      message of whichever of the two threw, or "processing failed" when that
      message is empty. */
  lemma ReprocessedOutcome(sources: seq<Source>, chunks: seq<Chunk>, chatbotId: string, id: string,
                           content: string, f: Faults)
    requires HasId(sources, id)
    requires f.writeErr(Processing).None? && f.writeErr(Failed).None?
    ensures var h := Reprocessed(sources, chunks, chatbotId, id, content, f);
      var ix := Indexed(chunks, chatbotId, id, Take(content, MaxContentLength), f.provider, f.deleteErr, f.insertErr);
      && h.1 == ix.0
      && h.2.Json? && h.2.source.id == id && h.2.source in h.0
      && (ix.1 == Pass && f.writeErr(Ready).None? ==> h.2.source.status == Ready && h.2.source.error == None)
      && (ix.1.Fail? || f.writeErr(Ready).Some? ==>
            h.2.source.status == Failed && h.2.source.error.Some? && h.2.source.error.value != "")
      && (ix.1.Fail? ==> h.2.source.error == Some(MessageOr(ix.1.msg, ProcessingFailed)))
      && (ix.1 == Pass && f.writeErr(Ready).Some? ==>
            h.2.source.error == Some(MessageOr(f.writeErr(Ready).value, ProcessingFailed)))
  {
    var w1 := StatusWrite(sources, id, Processing, Clear, f.writeErr(Processing));
    var ix := Indexed(chunks, chatbotId, id, Take(content, MaxContentLength), f.provider, f.deleteErr, f.insertErr);
    if ix.1.Pass? {
      var w3 := StatusWrite(w1.0, id, Ready, Keep, f.writeErr(Ready));
      if w3.1.Pass? {
        RowOfUniform(w3.0, id, Ready, None);
      } else {
        var w4 := StatusWrite(w3.0, id, Failed, SetTo(MessageOr(w3.1.msg, ProcessingFailed)), f.writeErr(Failed));
        RowOfUniform(w4.0, id, Failed, Some(MessageOr(w3.1.msg, ProcessingFailed)));
      }
    } else {
      var w4 := StatusWrite(w1.0, id, Failed, SetTo(MessageOr(ix.1.msg, ProcessingFailed)), f.writeErr(Failed));
      RowOfUniform(w4.0, id, Failed, Some(MessageOr(ix.1.msg, ProcessingFailed)));
    }
  }

  /** The row an update returns when every row with that id has the same
      status and error. */
  lemma RowOfUniform(rows: seq<Source>, id: string, st: Status, e: Option<string>)
    requires HasId(rows, id)
    requires forall i :: 0 <= i < |rows| && rows[i].id == id ==> rows[i].status == st && rows[i].error == e
    ensures RowOf(rows, id).value.status == st && RowOf(rows, id).value.error == e
  {
    var j :| 0 <= j < |rows| && rows[j] == RowOf(rows, id).value;
  }

  /** `POST` (lines 10-111), with the early returns of the source. */
  method HandlePost(sources: SourceTable, store: ChunkStore, rq: Request, lk: Lookups, f: Faults)
    returns (reply: Reply)
    modifies sources, store
    ensures (sources.rows, store.rows, reply) == Handled(old(sources.rows), old(store.rows), rq, lk, f)
  {
    if rq.user.Err? {
      return Crash(rq.user.msg);
    }
    if rq.user.value.None? {
      return Refused(401, Unauthorized);
    }
    if rq.body.Err? {
      return Crash(rq.body.msg);
    }
    var sourceId := RequestedId(rq);
    if sourceId == "" {
      return Refused(400, MissingSourceId);
    }
    if lk.chatbotErr.Some? {
      return Crash(lk.chatbotErr.value);
    }
    var chatbot := ChatbotOf(lk.chatbots, rq.user.value.value);
    if chatbot.None? {
      return Refused(404, NoChatbot);
    }
    if lk.sourceErr.Some? {
      return Crash(lk.sourceErr.value);
    }
    var source := FindOwned(sources.rows, sourceId, chatbot.value.id);
    if source.None? {
      return Refused(404, NoSource);
    }
    if Blank(source.value.content) {
      var w := sources.Update(source.value.id, Failed, SetTo(NothingToProcess), f.writeErr(Failed));
      if w.Fail? {
        return Crash(w.msg);
      }
      return Refused(400, NoContent);
    }
    var w := sources.Update(sourceId, Processing, Clear, f.writeErr(Processing));
    if w.Fail? {
      return Crash(w.msg);
    }
    // The inner try of lines 69-102.
    var processedContent := Take(source.value.content.value, MaxContentLength);
    var thrown := store.IndexKnowledge(chatbot.value.id, sourceId, processedContent,
                                       f.provider, f.deleteErr, f.insertErr);
    if thrown.Pass? {
      thrown := sources.Update(sourceId, Ready, Keep, f.writeErr(Ready));
      if thrown.Pass? {
        return Json(RowOf(sources.rows, sourceId).value);
      }
    }
    var failed := sources.Update(sourceId, Failed, SetTo(MessageOr(thrown.msg, ProcessingFailed)), f.writeErr(Failed));
    if failed.Fail? {
      return Crash(failed.msg);
    }
    reply := Json(RowOf(sources.rows, sourceId).value);
  }
}
