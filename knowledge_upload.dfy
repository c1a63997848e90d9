/** `POST /api/knowledge/upload` and `processKnowledge`
    (src/app/api/knowledge/upload/route.ts): create one `processing` source per
    accepted file and start indexing it in the background. */
module KnowledgeUpload {
  import opened Common
  import opened Vectors
  import opened Sources
  import opened Accounts
  import opened Queue

  /** Line 33: `10 * 1024 * 1024` bytes. */
  const MaxFileSize: nat := 10485760

  const Unauthorized: string := "Unauthorized"
  const NoChatbot: string := "Chatbot not found"
  const NoFiles: string := "No files provided"
  const UploadFailed: string := "Upload failed"
  const NoContentFound: string := "No content found"

  /** An uploaded file: its name, its size in bytes, its bytes decoded as UTF-8,
      and what the PDF parser makes of them (`Err` when it throws). */
  datatype UploadFile = UploadFile(name: string, size: nat, text: string, pdfText: Result<string>)

  /** The id and creation time the database gives the `i`-th created row. */
  datatype Stamp = Stamp(id: string, createdAt: int)

  /** The response: an error object with its status, or the created rows. */
  datatype Reply = Refused(status: nat, error: string) | Created(sources: seq<Source>)

  /** Line 33: a file is skipped only when it is larger than 10 MiB. */
  predicate Fits(file: UploadFile) { file.size <= MaxFileSize }

  function Fitting(): UploadFile -> bool { (file: UploadFile) => Fits(file) }

  /** Lines 38-56: the text of a `.txt` or other file, the parsed text of a
      `.pdf`, or `""` when the parser throws. */
  function FileContent(file: UploadFile): (content: string)
    ensures !EndsWith(file.name, ".pdf") ==> content == file.text
    ensures EndsWith(file.name, ".pdf") && !EndsWith(file.name, ".txt") ==>
      content == if file.pdfText.Ok? then file.pdfText.value else ""
  {
    if EndsWith(file.name, ".txt") then file.text
    else if EndsWith(file.name, ".pdf") then (if file.pdfText.Ok? then file.pdfText.value else "")
    else file.text
  }

  /** Lines 59-67: the row created for an accepted file. */
  function NewSource(chatbotId: string, file: UploadFile, st: Stamp): Source {
    Source(st.id, chatbotId, "file", file.name, Some(FileContent(file)), Processing, None, st.createdAt)
  }

  /** The loop of lines 31-73 so far: the table, the rows pushed to `results`,
      and the error of a `create` that threw (which ends the loop). */
  datatype Progress = Progress(rows: seq<Source>, results: seq<Source>, failure: Option<string>)

  /** The loop after its first `n` files. */
  function Uploads(rows: seq<Source>, chatbotId: string, files: seq<UploadFile>, stamp: nat -> Stamp,
                   createErr: nat -> Option<string>, n: nat): Progress
    requires n <= |files|
  {
    if n == 0 then Progress(rows, [], None)
    else
      var p := Uploads(rows, chatbotId, files, stamp, createErr, n - 1);
      if p.failure.Some? || !Fits(files[n - 1]) then p
      else if createErr(n - 1).Some? then p.(failure := createErr(n - 1))
      else
        var src := NewSource(chatbotId, files[n - 1], stamp(n - 1));
        Progress(p.rows + [src], p.results + [src], None)
  }

  /** Once a `create` has thrown, the loop does nothing more. */
  lemma {:induction false} UploadsStop(rows: seq<Source>, chatbotId: string, files: seq<UploadFile>,
                                       stamp: nat -> Stamp, createErr: nat -> Option<string>, j: nat, n: nat)
    requires j <= n <= |files|
    requires Uploads(rows, chatbotId, files, stamp, createErr, j).failure.Some?
    ensures Uploads(rows, chatbotId, files, stamp, createErr, n) == Uploads(rows, chatbotId, files, stamp, createErr, j)
    decreases n
  {
    if n > j {
      UploadsStop(rows, chatbotId, files, stamp, createErr, j, n - 1);
    }
  }

  /** Lines 31-73: every row the loop creates is appended to the table and to
      `results`. */
  lemma {:induction false} UploadsRows(rows: seq<Source>, chatbotId: string, files: seq<UploadFile>,
                                       stamp: nat -> Stamp, createErr: nat -> Option<string>, n: nat)
    requires n <= |files|
    ensures var p := Uploads(rows, chatbotId, files, stamp, createErr, n);
      p.rows == rows + p.results
  {
    if n > 0 {
      UploadsRows(rows, chatbotId, files, stamp, createErr, n - 1);
    }
  }

  /** Lines 31-73: unless a `create` threw, the rows created are, in order,
      one per file of at most 10 MiB, each a `processing` file source of the
      caller's chatbot with the file's name and content. */
  lemma {:induction false} UploadsShape(rows: seq<Source>, chatbotId: string, files: seq<UploadFile>,
                                        stamp: nat -> Stamp, createErr: nat -> Option<string>, n: nat)
    requires n <= |files|
    ensures var p := Uploads(rows, chatbotId, files, stamp, createErr, n);
      var accepted := Filter(files[..n], Fitting());
      p.failure.None? ==>
        && |p.results| == |accepted|
        && forall k :: 0 <= k < |p.results| ==>
             && p.results[k].name == accepted[k].name
             && p.results[k].content == Some(FileContent(accepted[k]))
             && p.results[k].kind == "file" && p.results[k].status == Processing
             && p.results[k].chatbotId == chatbotId
  {
    if n > 0 {
      UploadsShape(rows, chatbotId, files, stamp, createErr, n - 1);
      assert files[..n] == files[..n - 1] + [files[n - 1]];
      FilterAppend(files[..n - 1], [files[n - 1]], Fitting());
    }
  }

  /** What `POST` (lines 6-80) leaves in the source table, what it answers,
      and the rows whose `processKnowledge` it started, in order. `user` is
      `getCurrentUser()`'s outcome: `Err` when it throws, `None` when nobody
      is signed in, else the user's id. */
  function Uploaded(rows: seq<Source>, user: Result<Option<string>>, chatbots: seq<Chatbot>,
                    chatbotErr: Option<string>, form: Result<seq<UploadFile>>, stamp: nat -> Stamp,
                    createErr: nat -> Option<string>): (seq<Source>, Reply, seq<Source>)
  {
    if user.Err? then (rows, Refused(500, UploadFailed), [])
    else if user.value.None? then (rows, Refused(401, Unauthorized), [])
    else if chatbotErr.Some? then (rows, Refused(500, UploadFailed), [])
    else match ChatbotOf(chatbots, user.value.value)
      case None => (rows, Refused(404, NoChatbot), [])
      case Some(bot) =>
        if form.Err? then (rows, Refused(500, UploadFailed), [])
        else if form.value == [] then (rows, Refused(400, NoFiles), [])
        else
          var p := Uploads(rows, bot.id, form.value, stamp, createErr, |form.value|);
          (p.rows, if p.failure.Some? then Refused(500, UploadFailed) else Created(p.results), p.results)
  }

  /** Lines 8-27 and 75-79: a caller who cannot be loaded gets 500 and one
      who is not signed in 401; an empty upload by a caller with a chatbot gets
      400 "No files provided", and no empty upload creates anything; otherwise
      the answer lists exactly the rows that were created and started. */
  lemma UploadedSpec(rows: seq<Source>, user: Result<Option<string>>, chatbots: seq<Chatbot>,
                     chatbotErr: Option<string>, form: Result<seq<UploadFile>>, stamp: nat -> Stamp,
                     createErr: nat -> Option<string>)
    ensures user.Err? ==>
      Uploaded(rows, user, chatbots, chatbotErr, form, stamp, createErr) == (rows, Refused(500, UploadFailed), [])
    ensures user == Ok(None) ==>
      Uploaded(rows, user, chatbots, chatbotErr, form, stamp, createErr) == (rows, Refused(401, Unauthorized), [])
    ensures user.Ok? && user.value.Some? && chatbotErr.None? && ChatbotOf(chatbots, user.value.value).Some?
            && form == Ok([]) ==>
      Uploaded(rows, user, chatbots, chatbotErr, form, stamp, createErr).1 == Refused(400, NoFiles)
    ensures form == Ok([]) ==> Uploaded(rows, user, chatbots, chatbotErr, form, stamp, createErr).0 == rows
    ensures var u := Uploaded(rows, user, chatbots, chatbotErr, form, stamp, createErr);
      && u.0 == rows + u.2
      && (u.1.Created? ==> u.1.sources == u.2)
  {
    if user.Ok? && user.value.Some? && chatbotErr.None? && ChatbotOf(chatbots, user.value.value).Some?
       && form.Ok? && form.value != [] {
      var bot := ChatbotOf(chatbots, user.value.value).value;
      UploadsRows(rows, bot.id, form.value, stamp, createErr, |form.value|);
      UploadsShape(rows, bot.id, form.value, stamp, createErr, |form.value|);
    }
  }

  /** `POST` (lines 6-80): the early returns, then the file loop. */
  method HandleUpload(sources: SourceTable, user: Result<Option<string>>, chatbots: seq<Chatbot>,
                      chatbotErr: Option<string>, form: Result<seq<UploadFile>>, stamp: nat -> Stamp,
                      createErr: nat -> Option<string>) returns (reply: Reply, started: seq<Source>)
    modifies sources
    ensures (sources.rows, reply, started)
      == Uploaded(old(sources.rows), user, chatbots, chatbotErr, form, stamp, createErr)
  {
    started := [];
    if user.Err? {
      return Refused(500, UploadFailed), started;
    }
    if user.value.None? {
      return Refused(401, Unauthorized), started;
    }
    if chatbotErr.Some? {
      return Refused(500, UploadFailed), started;
    }
    var chatbot := ChatbotOf(chatbots, user.value.value);
    if chatbot.None? {
      return Refused(404, NoChatbot), started;
    }
    if form.Err? {
      return Refused(500, UploadFailed), started;
    }
    var files := form.value;
    if files == [] {
      return Refused(400, NoFiles), started;
    }
    var i := 0;
    while i < |files|
      invariant i <= |files|
      invariant Uploads(old(sources.rows), chatbot.value.id, files, stamp, createErr, i)
        == Progress(sources.rows, started, None)
    {
      var file := files[i];
      if !Fits(file) {
        i := i + 1;
        continue;
      }
      var created := sources.Create(NewSource(chatbot.value.id, file, stamp(i)), createErr(i));
      if created.Err? {
        UploadsStop(old(sources.rows), chatbot.value.id, files, stamp, createErr, i + 1, |files|);
        return Refused(500, UploadFailed), started;
      }
      // processKnowledge(chatbot.id, source.id, content) is started here and
      // not awaited; `started` records it.
      started := started + [created.value];
      i := i + 1;
    }
    reply := Created(started);
  }

  // ---------------------------------------------------------------------------
  // processKnowledge (lines 82-105)
  // ---------------------------------------------------------------------------

  /** What `processKnowledge(chatbotId, id, content)` leaves and whether it
      rejects: blank content marks the row failed, anything else is indexed in
      full and marked ready (the error column untouched); whatever the `try`
      throws is written, unchanged, as the error of a failed row. Two `failed`
      writes can happen in one call, so the blank-content write of lines 85-88
      has its own fault `blankErr`, and `f.writeErr(Failed)` is the fault of
      the `catch`'s write. */
  function Knowledge(sources: seq<Source>, chunks: seq<Chunk>, chatbotId: string, id: string,
                     content: string, f: Faults, blankErr: Option<string>): (seq<Source>, seq<Chunk>, Outcome)
  {
    var (s, c, thrown) :=
      if AllSpace(content) then
        var (s1, r1) := StatusWrite(sources, id, Failed, SetTo(NoContentFound), blankErr);
        (s1, chunks, if r1.Fail? then Some(r1.msg) else None)
      else
        var (c2, r2) := Indexed(chunks, chatbotId, id, content, f.provider, f.deleteErr, f.insertErr);
        if r2.Fail? then (sources, c2, Some(r2.msg))
        else
          var (s3, r3) := StatusWrite(sources, id, Ready, Keep, f.writeErr(Ready));
          (s3, c2, if r3.Fail? then Some(r3.msg) else None);
    if thrown.None? then (s, c, Pass)
    else
      var (s4, r4) := StatusWrite(s, id, Failed, SetTo(thrown.value), f.writeErr(Failed));
      (s4, c, r4)
  }

  /** Lines 84-90 and 98-103: blank content indexes nothing and marks the row
      failed with "No content found"; if that write throws, the `catch` marks
      it failed with the write's message instead, and the call rejects only
      when that second write throws too. */
  lemma KnowledgeBlank(sources: seq<Source>, chunks: seq<Chunk>, chatbotId: string, id: string,
                       content: string, f: Faults, blankErr: Option<string>, i: nat)
    requires AllSpace(content)
    requires i < |sources| && sources[i].id == id
    ensures var k := Knowledge(sources, chunks, chatbotId, id, content, f, blankErr);
      && k.1 == chunks
      && (blankErr.None? ==> k.2 == Pass && k.0[i].status == Failed && k.0[i].error == Some(NoContentFound))
      && (blankErr.Some? && f.writeErr(Failed).None? ==>
            k.2 == Pass && k.0[i].status == Failed && k.0[i].error == Some(blankErr.value))
      && (blankErr.Some? && f.writeErr(Failed).Some? ==> k.2 == Fail(f.writeErr(Failed).value) && k.0 == sources)
  {
    assert HasId(sources, id);
  }

  /** Lines 92-103: other content is indexed in full, with no truncation; the
      row ends ready with its error untouched when indexing and the write
      succeed, and failed with exactly the thrown message otherwise. */
  lemma KnowledgeIndexed(sources: seq<Source>, chunks: seq<Chunk>, chatbotId: string, id: string,
                         content: string, f: Faults, blankErr: Option<string>, i: nat)
    requires !AllSpace(content) && f.writeErr(Failed).None?
    requires i < |sources| && sources[i].id == id
    ensures var k := Knowledge(sources, chunks, chatbotId, id, content, f, blankErr);
      var ix := Indexed(chunks, chatbotId, id, content, f.provider, f.deleteErr, f.insertErr);
      && k.1 == ix.0
      && k.2 == Pass
      && (ix.1 == Pass && f.writeErr(Ready).None? ==>
            k.0[i].status == Ready && k.0[i].error == sources[i].error)
      && (ix.1.Fail? ==> k.0[i].status == Failed && k.0[i].error == Some(ix.1.msg))
      && (ix.1 == Pass && f.writeErr(Ready).Some? ==>
            k.0[i].status == Failed && k.0[i].error == Some(f.writeErr(Ready).value))
  {
    assert HasId(sources, id);
  }

  /** `processKnowledge` (lines 82-105). */
  method ProcessKnowledge(sources: SourceTable, store: ChunkStore, chatbotId: string, sourceId: string,
                          content: string, f: Faults, blankErr: Option<string>) returns (r: Outcome)
    modifies sources, store
    ensures (sources.rows, store.rows, r)
      == Knowledge(old(sources.rows), old(store.rows), chatbotId, sourceId, content, f, blankErr)
  {
    var thrown: Outcome;
    if AllSpace(content) {
      thrown := sources.Update(sourceId, Failed, SetTo(NoContentFound), blankErr);
    } else {
      thrown := store.IndexKnowledge(chatbotId, sourceId, content, f.provider, f.deleteErr, f.insertErr);
      if thrown.Pass? {
        thrown := sources.Update(sourceId, Ready, Keep, f.writeErr(Ready));
      }
    }
    if thrown.Fail? {
      r := sources.Update(sourceId, Failed, SetTo(thrown.msg), f.writeErr(Failed));
    } else {
      r := Pass;
    }
  }
}
