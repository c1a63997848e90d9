/** The background queue of src/lib/queue.ts: `processSource` drives one source
    through processing -> ready | failed around `indexKnowledge`,
    `processPendingJobs` runs the oldest pending sources one after another, and
    `getQueueStats` is `Sources.GetQueueStats`. */
module Queue {
  import opened Common
  import opened Embeddings
  import opened Vectors
  import opened Sources

  /** Line 23: only this many characters of the content are indexed. */
  const MaxQueuedChars: nat := 75000
  /** Line 46: the error recorded when the thrown error has no message. */
  const QueueFailure: string := "Processing failed"

  /** What one `processSource` call meets from the outside: the embedding
      provider, the chunk delete, the insert of chunk row `i`, and the outcome of
      each `withRetry`-wrapped status write, keyed by the status it writes
      (`processSource` writes each status at most once). */
  datatype Faults = Faults(
    provider: Provider,
    deleteErr: Option<string>,
    insertErr: nat -> Option<string>,
    writeErr: Status -> Option<string>)

  /** The `try` block of lines 13-36: the tables it leaves and the error it
      throws, if any. */
  function TryBlock(sources: seq<Source>, chunks: seq<Chunk>, id: string, chatbotId: string,
                    content: string, f: Faults): (seq<Source>, seq<Chunk>, Option<string>)
  {
    var (s1, r1) := StatusWrite(sources, id, Processing, Clear, f.writeErr(Processing));
    if r1.Fail? then (s1, chunks, Some(r1.msg))
    else
      var (c2, r2) := Indexed(chunks, chatbotId, id, Take(content, MaxQueuedChars),
                              f.provider, f.deleteErr, f.insertErr);
      if r2.Fail? then (s1, c2, Some(r2.msg))
      else
        var (s3, r3) := StatusWrite(s1, id, Ready, Clear, f.writeErr(Ready));
        if r3.Fail? then (s3, c2, Some(r3.msg)) else (s3, c2, None)
  }

  /** `processSource(id, chatbotId, content)` (lines 6-51): the try block, then,
      if it threw, the write of `failed` with the message or the fallback, whose
      own failure is the only thing the call rethrows. Every other source keeps
      its row. */
  function Processed(sources: seq<Source>, chunks: seq<Chunk>, id: string, chatbotId: string,
                     content: string, f: Faults): (r: (seq<Source>, seq<Chunk>, Outcome))
    ensures |r.0| == |sources|
    ensures forall i :: 0 <= i < |sources| && sources[i].id != id ==> r.0[i] == sources[i]
  {
    var (s, c, thrown) := TryBlock(sources, chunks, id, chatbotId, content, f);
    if thrown.None? then (s, c, Pass)
    else
      var (s', r) := StatusWrite(s, id, Failed, SetTo(MessageOr(thrown.value, QueueFailure)), f.writeErr(Failed));
      (s', c, r)
  }

  /** Lines 13-36 all succeed exactly when the row exists and none of the three
      steps fails. */
  predicate Succeeds(sources: seq<Source>, chunks: seq<Chunk>, id: string, chatbotId: string,
                     content: string, f: Faults)
  {
    && HasId(sources, id)
    && f.writeErr(Processing).None?
    && Indexed(chunks, chatbotId, id, Take(content, MaxQueuedChars), f.provider, f.deleteErr, f.insertErr).1 == Pass
    && f.writeErr(Ready).None?
  }

  /** Lines 13-49. For an existing source whose final `failed` write does not
      fail, the call returns normally and the source ends `ready` with no error
      when every step succeeded, and `failed` otherwise, its error the message of
      the first step that threw (the `processing` write, the indexing, the
      `ready` write), or "Processing failed" when that message is empty. */
  lemma ProcessedSettles(sources: seq<Source>, chunks: seq<Chunk>, id: string, chatbotId: string,
                         content: string, f: Faults, i: nat)
    requires i < |sources| && sources[i].id == id
    requires f.writeErr(Failed).None?
    ensures var r := Processed(sources, chunks, id, chatbotId, content, f);
      && r.2 == Pass
      && (Succeeds(sources, chunks, id, chatbotId, content, f) ==> r.0[i].status == Ready && r.0[i].error == None)
      && (!Succeeds(sources, chunks, id, chatbotId, content, f) ==>
            r.0[i].status == Failed && r.0[i].error.Some? && r.0[i].error.value != "")
    ensures var r := Processed(sources, chunks, id, chatbotId, content, f);
      var ix := Indexed(chunks, chatbotId, id, Take(content, MaxQueuedChars), f.provider, f.deleteErr, f.insertErr).1;
      && (f.writeErr(Processing).Some? ==>
            r.0[i].error == Some(MessageOr(f.writeErr(Processing).value, QueueFailure)))
      && (f.writeErr(Processing).None? && ix.Fail? ==>
            r.0[i].error == Some(MessageOr(ix.msg, QueueFailure)))
      && (f.writeErr(Processing).None? && ix == Pass && f.writeErr(Ready).Some? ==>
            r.0[i].error == Some(MessageOr(f.writeErr(Ready).value, QueueFailure)))
  {
    var (s1, r1) := StatusWrite(sources, id, Processing, Clear, f.writeErr(Processing));
    assert HasId(sources, id);
    assert HasId(s1, id) by { assert s1[i].id == id; }
    var (s, c, thrown) := TryBlock(sources, chunks, id, chatbotId, content, f);
    assert HasId(s, id) by { assert s[i].id == id; }
  }

  /** Lines 37-49. The call throws only when its final `failed` write throws:
      then the error is that write's, or Prisma's not-found error when the row
      does not exist. */
  lemma ProcessedRethrows(sources: seq<Source>, chunks: seq<Chunk>, id: string, chatbotId: string,
                          content: string, f: Faults)
    requires Processed(sources, chunks, id, chatbotId, content, f).2.Fail?
    ensures !Succeeds(sources, chunks, id, chatbotId, content, f)
    ensures || (f.writeErr(Failed).Some? && Processed(sources, chunks, id, chatbotId, content, f).2.msg == f.writeErr(Failed).value)
            || (!HasId(sources, id) && Processed(sources, chunks, id, chatbotId, content, f).2.msg == NotFound)
  {
    var (s1, r1) := StatusWrite(sources, id, Processing, Clear, f.writeErr(Processing));
    if HasId(sources, id) {
      var i :| 0 <= i < |sources| && sources[i].id == id;
      assert HasId(s1, id) by { assert s1[i].id == id; }
    }
  }

  /** Lines 15-34. When the source exists and its first write succeeds, the chunk
      table is what `indexKnowledge` makes of the first 75000 characters of the
      content; otherwise nothing is indexed. */
  lemma ProcessedIndexesPrefix(sources: seq<Source>, chunks: seq<Chunk>, id: string, chatbotId: string,
                               content: string, f: Faults)
    ensures Processed(sources, chunks, id, chatbotId, content, f).1
      == if HasId(sources, id) && f.writeErr(Processing).None?
         then Indexed(chunks, chatbotId, id, Take(content, MaxQueuedChars), f.provider, f.deleteErr, f.insertErr).0
         else chunks
    ensures |Take(content, MaxQueuedChars)| <= MaxQueuedChars
  {
  }

  /** Lines 23-34 with src/lib/embeddings.ts:70-72. Whitespace-only content is
      not rejected: when nothing fails the source's chunks are deleted, none are
      written, and the source ends `ready`. */
  lemma ProcessedBlank(sources: seq<Source>, chunks: seq<Chunk>, id: string, chatbotId: string,
                       content: string, f: Faults, i: nat)
    requires i < |sources| && sources[i].id == id
    requires AllSpace(content)
    requires f.writeErr(Processing).None? && f.writeErr(Ready).None? && f.deleteErr.None?
    ensures Processed(sources, chunks, id, chatbotId, content, f).2 == Pass
    ensures Processed(sources, chunks, id, chatbotId, content, f).0[i].status == Ready
    ensures OfSource(Processed(sources, chunks, id, chatbotId, content, f).1, id) == []
  {
    var t := Take(content, MaxQueuedChars);
    assert AllSpace(t) by {
      forall k | 0 <= k < |t| ensures IsSpace(t[k]) { assert t[k] == content[k]; }
    }
    IndexedBlank(chunks, chatbotId, id, t, f.provider, f.insertErr);
    var (s1, r1) := StatusWrite(sources, id, Processing, Clear, f.writeErr(Processing));
    assert HasId(sources, id);
    assert HasId(s1, id) by { assert s1[i].id == id; }
  }

  /** Lines 15-20 and 29-49. If both the `ready` and the `failed` writes fail
      after the first write succeeded, the source is left `processing`, with
      the error cleared by the first write, and the call throws. */
  lemma ProcessedStuck(sources: seq<Source>, chunks: seq<Chunk>, id: string, chatbotId: string,
                       content: string, f: Faults, i: nat)
    requires i < |sources| && sources[i].id == id
    requires f.writeErr(Processing).None? && f.writeErr(Failed).Some?
    requires !Succeeds(sources, chunks, id, chatbotId, content, f)
    requires Indexed(chunks, chatbotId, id, Take(content, MaxQueuedChars), f.provider, f.deleteErr, f.insertErr).1 == Pass
    ensures Processed(sources, chunks, id, chatbotId, content, f).0[i].status == Processing
    ensures Processed(sources, chunks, id, chatbotId, content, f).0[i].error == None
    ensures Processed(sources, chunks, id, chatbotId, content, f).2 == Fail(f.writeErr(Failed).value)
  {
    assert HasId(sources, id);
  }

  /** `processSource` (lines 6-51): the status writes and the indexing in the
      order of the source, with the `catch` of lines 37-49. */
  method ProcessSource(sources: SourceTable, store: ChunkStore, sourceId: string, chatbotId: string,
                       content: string, f: Faults) returns (r: Outcome)
    modifies sources, store
    ensures (sources.rows, store.rows, r)
      == Processed(old(sources.rows), old(store.rows), sourceId, chatbotId, content, f)
  {
    var thrown: Option<string> := None;
    var w := sources.Update(sourceId, Processing, Clear, f.writeErr(Processing));
    if w.Fail? {
      thrown := Some(w.msg);
    } else {
      var processedContent := Take(content, MaxQueuedChars);
      var ix := store.IndexKnowledge(chatbotId, sourceId, processedContent, f.provider, f.deleteErr, f.insertErr);
      if ix.Fail? {
        thrown := Some(ix.msg);
      } else {
        var w2 := sources.Update(sourceId, Ready, Clear, f.writeErr(Ready));
        if w2.Fail? {
          thrown := Some(w2.msg);
        }
      }
    }
    if thrown.Some? {
      r := sources.Update(sourceId, Failed, SetTo(MessageOr(thrown.value, QueueFailure)), f.writeErr(Failed));
    } else {
      r := Pass;
    }
  }

  // ---------------------------------------------------------------------------
  // processPendingJobs (lines 54-75)
  // ---------------------------------------------------------------------------

  function ByCreation(): Source -> int { (s: Source) => s.createdAt }

  /** Lines 56-60: `findMany({where: {status: "pending"}, take: limit,
      orderBy: {createdAt: "asc"}})`. */
  function Selected(rows: seq<Source>, limit: nat): seq<Source> {
    Take(SortBy(Filter(rows, WithStatus(Pending)), ByCreation()), limit)
  }

  /** The selection holds `min(limit, #pending)` distinct pending rows of the
      table (each at most as often as the table holds it), in ascending
      creation order. */
  lemma SelectedSpec(rows: seq<Source>, limit: nat)
    ensures |Selected(rows, limit)| == Min(limit, CountStatus(rows, Pending))
    ensures forall i :: 0 <= i < |Selected(rows, limit)| ==>
      Selected(rows, limit)[i] in rows && Selected(rows, limit)[i].status == Pending
    ensures multiset(Selected(rows, limit)) <= multiset(Filter(rows, WithStatus(Pending)))
    ensures SortedBy(Selected(rows, limit), ByCreation())
  {
    var p := Filter(rows, WithStatus(Pending));
    var sorted := SortBy(p, ByCreation());
    var sel := Selected(rows, limit);
    SortByCorrect(p, ByCreation());
    SortedSlice(sorted, ByCreation(), 0, |sel|);
    assert sel == sorted[0..|sel|];
    FilterMembers(rows, WithStatus(Pending));
    MultisetMembers(sorted, p);
    forall i | 0 <= i < |sel| ensures sel[i] in rows && sel[i].status == Pending {
      assert sel[i] == sorted[i];
      assert sorted[i] in p;
    }
  }

  /** None of the pending rows left out of the selection was created before
      one that was taken. */
  lemma SelectedOldest(rows: seq<Source>, limit: nat)
    ensures forall i, x ::
      0 <= i < |Selected(rows, limit)| && x in multiset(Filter(rows, WithStatus(Pending))) - multiset(Selected(rows, limit))
      ==> Selected(rows, limit)[i].createdAt <= x.createdAt
  {
    var p := Filter(rows, WithStatus(Pending));
    var sorted := SortBy(p, ByCreation());
    SortByCorrect(p, ByCreation());
    SortedRest(sorted, ByCreation(), |Selected(rows, limit)|);
  }

  /** One job of the loop of lines 65-72: the tables after a `processSource`
      call on it, and whether the call returned normally. */
  type Step = (seq<Source>, seq<Chunk>, Source, Faults) -> (seq<Source>, seq<Chunk>, Outcome)

  function ProcessStep(): Step {
    (s: seq<Source>, c: seq<Chunk>, job: Source, f: Faults) =>
      Processed(s, c, job.id, job.chatbotId, job.content.GetOr(""), f)
  }

  /** A step that keeps every row but the job's own. */
  ghost predicate Framed(step: Step) {
    forall s: seq<Source>, c: seq<Chunk>, job: Source, f: Faults ::
      && |step(s, c, job, f).0| == |s|
      && forall i :: 0 <= i < |s| && s[i].id != job.id ==> step(s, c, job, f).0[i] == s[i]
  }

  lemma ProcessStepFramed()
    ensures Framed(ProcessStep())
  {
    forall s: seq<Source>, c: seq<Chunk>, job: Source, f: Faults ensures
      && |ProcessStep()(s, c, job, f).0| == |s|
      && forall i :: 0 <= i < |s| && s[i].id != job.id ==> ProcessStep()(s, c, job, f).0[i] == s[i]
    {
      var p := Processed(s, c, job.id, job.chatbotId, job.content.GetOr(""), f);
      assert ProcessStep()(s, c, job, f) == p;
    }
  }

  /** The tables after the first `n` jobs of lines 65-72, and how many of those
      calls returned normally; a call that throws does not stop the next. */
  function Ran(step: Step, sources: seq<Source>, chunks: seq<Chunk>, jobs: seq<Source>, faults: nat -> Faults,
               n: nat): (r: (seq<Source>, seq<Chunk>, nat))
    requires n <= |jobs|
    ensures r.2 <= n
  {
    if n == 0 then (sources, chunks, 0)
    else
      var (s, c, k) := Ran(step, sources, chunks, jobs, faults, n - 1);
      var (s', c', r) := step(s, c, jobs[n - 1], faults(n - 1));
      (s', c', if r == Pass then k + 1 else k)
  }

  /** One more job: the step `Ran` takes from `n` jobs to `n + 1`. */
  lemma RanStep(step: Step, sources: seq<Source>, chunks: seq<Chunk>, jobs: seq<Source>, faults: nat -> Faults,
                n: nat, s: seq<Source>, c: seq<Chunk>, k: nat)
    requires n < |jobs| && (s, c, k) == Ran(step, sources, chunks, jobs, faults, n)
    ensures var p := step(s, c, jobs[n], faults(n));
      Ran(step, sources, chunks, jobs, faults, n + 1) == (p.0, p.1, if p.2 == Pass then k + 1 else k)
  {
  }

  /** What `processPendingJobs(limit)` leaves and returns: the selection query's
      error, or the number of jobs that returned normally. */
  function PendingRun(sources: seq<Source>, chunks: seq<Chunk>, limit: nat, findErr: Option<string>,
                      faults: nat -> Faults): (seq<Source>, seq<Chunk>, Result<nat>)
  {
    if findErr.Some? then (sources, chunks, Err(findErr.value))
    else
      var jobs := Selected(sources, limit);
      var (s, c, k) := Ran(ProcessStep(), sources, chunks, jobs, faults, |jobs|);
      (s, c, Ok(k))
  }

  /** Lines 65-72: a source that is not one of the jobs keeps its row. */
  lemma {:induction false} RanOthers(step: Step, sources: seq<Source>, chunks: seq<Chunk>, jobs: seq<Source>,
                                     faults: nat -> Faults, n: nat, i: nat)
    requires Framed(step)
    requires n <= |jobs| && i < |sources|
    requires forall j :: 0 <= j < n ==> jobs[j].id != sources[i].id
    ensures |Ran(step, sources, chunks, jobs, faults, n).0| == |sources|
    ensures Ran(step, sources, chunks, jobs, faults, n).0[i] == sources[i]
  {
    if n > 0 {
      RanOthers(step, sources, chunks, jobs, faults, n - 1, i);
    }
  }

  /** Lines 54-75: the count returned is at most `min(limit, #pending)`, and
      every source that is not pending, or was not selected, keeps its row. */
  lemma PendingRunSpec(sources: seq<Source>, chunks: seq<Chunk>, limit: nat, findErr: Option<string>,
                       faults: nat -> Faults, i: nat)
    requires i < |sources|
    requires forall j :: 0 <= j < |Selected(sources, limit)| ==> Selected(sources, limit)[j].id != sources[i].id
    ensures PendingRun(sources, chunks, limit, findErr, faults).2.Ok? ==>
      PendingRun(sources, chunks, limit, findErr, faults).2.value <= Min(limit, CountStatus(sources, Pending))
    ensures |PendingRun(sources, chunks, limit, findErr, faults).0| == |sources|
    ensures PendingRun(sources, chunks, limit, findErr, faults).0[i] == sources[i]
  {
    var jobs := Selected(sources, limit);
    SelectedSpec(sources, limit);
    ProcessStepFramed();
    RanOthers(ProcessStep(), sources, chunks, jobs, faults, |jobs|, i);
  }

  /** `processPendingJobs(limit)` (lines 54-75). */
  method ProcessPendingJobs(sources: SourceTable, store: ChunkStore, limit: nat, findErr: Option<string>,
                            faults: nat -> Faults) returns (r: Result<nat>)
    modifies sources, store
    ensures (sources.rows, store.rows, r)
      == PendingRun(old(sources.rows), old(store.rows), limit, findErr, faults)
  {
    if findErr.Some? {
      return Err(findErr.value);
    }
    var pendingSources := Selected(sources.rows, limit);
    var processed: nat := 0;
    var i := 0;
    while i < |pendingSources|
      invariant i <= |pendingSources|
      invariant (sources.rows, store.rows, processed)
        == Ran(ProcessStep(), old(sources.rows), old(store.rows), pendingSources, faults, i)
    {
      var source := pendingSources[i];
      RanStep(ProcessStep(), old(sources.rows), old(store.rows), pendingSources, faults, i,
              sources.rows, store.rows, processed);
      assert ProcessStep()(sources.rows, store.rows, source, faults(i))
        == Processed(sources.rows, store.rows, source.id, source.chatbotId, source.content.GetOr(""), faults(i));
      var o := ProcessSource(sources, store, source.id, source.chatbotId, source.content.GetOr(""), faults(i));
      if o == Pass {
        processed := processed + 1;
      }
      i := i + 1;
    }
    r := Ok(processed);
  }
}
