/** The chunk store of src/lib/vectors.ts: the `KnowledgeChunk` table as an
    in-memory sequence of rows, rewritten by `indexKnowledge` and
    `deleteKnowledge` and searched by `queryKnowledge`.

    Database faults are parameters: `deleteErr` is what the `deleteMany` call
    throws (if anything) and `insertErr(i)` what the insert of row `i` throws.
    The pgvector distance `<=>` is an abstract integer key `dist`. */
module Vectors {
  import opened Common
  import opened Embeddings

  /** One `KnowledgeChunk` row (`createdAt` is not modelled). */
  datatype Chunk = Chunk(
    id: string,
    sourceId: string,
    chatbotId: string,
    content: string,
    embedding: Option<Vector>,
    chunkIndex: nat)

  /** What `embeddings[i].join(",")` throws when the embedder returned fewer
      vectors than there are chunks. */
  const JoinOfMissing: string := "Cannot read properties of undefined (reading 'join')"

  /** The row id of line 24: `chunk_<sourceId>_<i>`. */
  function ChunkId(sourceId: string, i: nat): string {
    "chunk_" + sourceId + "_" + NatToString(i)
  }

  /** In `s + "_" + d` the separator sits at `|s|`, and every later position
      holds a character of `d`. */
  lemma SeparatorAt(s: string, d: string, p: nat)
    requires forall i :: 0 <= i < |d| ==> IsDigit(d[i])
    requires |s| <= p < |s| + 1 + |d|
    ensures (s + "_" + d)[p] == '_' <==> p == |s|
  {
    if p > |s| {
      assert (s + "_" + d)[p] == d[p - |s| - 1];
    }
  }

  /** Row ids never collide: the decimal index holds no '_', so the last '_'
      of an id separates the source id from the index. */
  lemma ChunkIdInjective(s1: string, i1: nat, s2: string, i2: nat)
    requires ChunkId(s1, i1) == ChunkId(s2, i2)
    ensures s1 == s2 && i1 == i2
  {
    var d1, d2 := NatToString(i1), NatToString(i2);
    var x1, x2 := s1 + "_" + d1, s2 + "_" + d2;
    assert ChunkId(s1, i1) == "chunk_" + x1;
    assert ChunkId(s2, i2) == "chunk_" + x2;
    assert x1 == ChunkId(s1, i1)[6..];
    assert x2 == ChunkId(s2, i2)[6..];
    NatToStringDigits(i1);
    NatToStringDigits(i2);
    if |s1| < |s2| {
      SeparatorAt(s1, d1, |s2|);
      assert false;
    } else if |s2| < |s1| {
      SeparatorAt(s2, d2, |s1|);
      assert false;
    }
    assert d1 == x1[|s1| + 1..] && d2 == x2[|s2| + 1..];
    assert s1 == x1[..|s1|] && s2 == x2[..|s2|];
    NatToStringInjective(i1, i2);
  }

  // ---------------------------------------------------------------------------
  // Rows of one source, and the table without them
  // ---------------------------------------------------------------------------

  function IsOf(s: string): Chunk -> bool { (c: Chunk) => c.sourceId == s }

  function NotOf(s: string): Chunk -> bool { (c: Chunk) => c.sourceId != s }

  /** The rows `WHERE sourceId = s`, in table order. */
  function OfSource(rows: seq<Chunk>, s: string): seq<Chunk> {
    Filter(rows, IsOf(s))
  }

  /** The table after `deleteMany({ where: { sourceId: s } })`. */
  function Without(rows: seq<Chunk>, s: string): seq<Chunk> {
    Filter(rows, NotOf(s))
  }

  /** After the delete no row of `s` is left, and the rows of every other source
      are exactly what they were, in the same order. */
  lemma WithoutSources(rows: seq<Chunk>, s: string, s': string)
    ensures OfSource(Without(rows, s), s) == []
    ensures s' != s ==> OfSource(Without(rows, s), s') == OfSource(rows, s')
  {
    FilterMembers(rows, NotOf(s));
    FilterNone(Without(rows, s), IsOf(s));
    if s' != s {
      FilterCommute(rows, NotOf(s), IsOf(s'));
      FilterMembers(rows, IsOf(s'));
      FilterAll(OfSource(rows, s'), NotOf(s));
    }
  }

  /** The delete keeps exactly the rows of other sources. */
  lemma WithoutMembers(rows: seq<Chunk>, s: string)
    ensures forall c :: c in Without(rows, s) <==> c in rows && c.sourceId != s
  {
    FilterMembers(rows, NotOf(s));
  }

  /** Deleting a source twice is the same as deleting it once. */
  lemma WithoutIdempotent(rows: seq<Chunk>, s: string)
    ensures Without(Without(rows, s), s) == Without(rows, s)
  {
    FilterMembers(rows, NotOf(s));
    FilterAll(Without(rows, s), NotOf(s));
  }

  // ---------------------------------------------------------------------------
  // indexKnowledge (lines 4-34)
  // ---------------------------------------------------------------------------

  /** The rows the loop of lines 18-33 inserts for its first `k` chunks. */
  function NewRows(chatbotId: string, s: string, chunks: seq<string>, vecs: seq<Vector>, k: nat): (r: seq<Chunk>)
    requires k <= |chunks| && k <= |vecs|
    ensures |r| == k
  {
    seq(k, i requires 0 <= i < k => Chunk(ChunkId(s, i), s, chatbotId, chunks[i], Some(vecs[i]), i))
  }

  /** The new rows all belong to `s`: `s` has exactly them and nobody else any. */
  lemma NewRowsSource(chatbotId: string, s: string, chunks: seq<string>, vecs: seq<Vector>, k: nat, s': string)
    requires k <= |chunks| && k <= |vecs|
    ensures OfSource(NewRows(chatbotId, s, chunks, vecs, k), s) == NewRows(chatbotId, s, chunks, vecs, k)
    ensures s' != s ==> OfSource(NewRows(chatbotId, s, chunks, vecs, k), s') == []
    ensures Without(NewRows(chatbotId, s, chunks, vecs, k), s) == []
  {
    var r := NewRows(chatbotId, s, chunks, vecs, k);
    assert forall c :: c in r ==> c.sourceId == s;
    FilterAll(r, IsOf(s));
    FilterNone(r, NotOf(s));
    if s' != s {
      FilterNone(r, IsOf(s'));
    }
  }

  /** How many rows the insert loop writes, counting from row `i`: it stops at the
      first row whose vector is missing or whose insert throws. */
  function Inserted(n: nat, nv: nat, insertErr: nat -> Option<string>, i: nat): (k: nat)
    requires i <= n
    ensures i <= k <= n && k <= Max(i, nv)
    ensures k < n ==> k >= nv || insertErr(k).Some?
    ensures forall j :: i <= j < k ==> j < nv && insertErr(j).None?
    decreases n - i
  {
    if i == n || i >= nv || insertErr(i).Some? then i
    else Inserted(n, nv, insertErr, i + 1)
  }

  /** The outcome of the insert loop once it has written `k` of `n` rows. */
  function InsertOutcome(n: nat, nv: nat, insertErr: nat -> Option<string>, k: nat): Outcome {
    if k >= n then Pass
    else if k >= nv then Fail(JoinOfMissing)
    else if insertErr(k).Some? then Fail(insertErr(k).value)
    else Pass
  }

  /** The table and outcome `indexKnowledge(chatbotId, s, content)` leaves: on an
      embedding or delete failure the table is untouched; otherwise the rows of
      `s` are replaced by the rows the loop managed to insert. */
  function Indexed(rows: seq<Chunk>, chatbotId: string, s: string, content: string,
                   provider: Provider, deleteErr: Option<string>,
                   insertErr: nat -> Option<string>): (seq<Chunk>, Outcome)
  {
    var chunks := Chunks(content, DefaultChunkSize, DefaultOverlap);
    match EmbedAll(chunks, provider)
    case Err(m) => (rows, Fail(m))
    case Ok(vecs) =>
      if deleteErr.Some? then (rows, Fail(deleteErr.value))
      else
        var k := Inserted(|chunks|, |vecs|, insertErr, 0);
        (Without(rows, s) + NewRows(chatbotId, s, chunks, vecs, k),
         InsertOutcome(|chunks|, |vecs|, insertErr, k))
  }

  /** The rows `indexKnowledge` writes for `s` when every step succeeds. */
  function FreshRows(chatbotId: string, s: string, content: string, vecs: seq<Vector>): seq<Chunk>
    requires |vecs| >= |Chunks(content, DefaultChunkSize, DefaultOverlap)|
  {
    var chunks := Chunks(content, DefaultChunkSize, DefaultOverlap);
    NewRows(chatbotId, s, chunks, vecs, |chunks|)
  }

  /** Lines 9-33. A successful run leaves `s` with exactly one row per chunk of
      the content: row `i` has index `i`, the id `chunk_<s>_<i>`, chunk `i` as
      content, its vector and the given chatbot; every other source keeps its
      rows. */
  lemma IndexedSuccess(rows: seq<Chunk>, chatbotId: string, s: string, content: string,
                       provider: Provider, insertErr: nat -> Option<string>, s': string)
    requires Indexed(rows, chatbotId, s, content, provider, None, insertErr).1 == Pass
    ensures EmbedAll(Chunks(content, DefaultChunkSize, DefaultOverlap), provider).Ok?
    ensures |EmbedAll(Chunks(content, DefaultChunkSize, DefaultOverlap), provider).value|
      >= |Chunks(content, DefaultChunkSize, DefaultOverlap)|
    ensures OfSource(Indexed(rows, chatbotId, s, content, provider, None, insertErr).0, s)
      == FreshRows(chatbotId, s, content, EmbedAll(Chunks(content, DefaultChunkSize, DefaultOverlap), provider).value)
    ensures s' != s ==>
      OfSource(Indexed(rows, chatbotId, s, content, provider, None, insertErr).0, s') == OfSource(rows, s')
  {
    var chunks := Chunks(content, DefaultChunkSize, DefaultOverlap);
    var vecs := EmbedAll(chunks, provider).value;
    var k := Inserted(|chunks|, |vecs|, insertErr, 0);
    var added := NewRows(chatbotId, s, chunks, vecs, k);
    FilterAppend(Without(rows, s), added, IsOf(s));
    FilterAppend(Without(rows, s), added, IsOf(s'));
    WithoutSources(rows, s, s');
    NewRowsSource(chatbotId, s, chunks, vecs, k, s');
  }

  /** Lines 9-15 and 18-33. A failed run leaves every other source untouched and
      leaves `s` either as it was (the embedder or the delete failed) or with
      only the rows for the first `k` chunks and their vectors, `k` short of the
      number of chunks (an insert failed, or a vector was missing). */
  lemma IndexedFailure(rows: seq<Chunk>, chatbotId: string, s: string, content: string,
                       provider: Provider, deleteErr: Option<string>,
                       insertErr: nat -> Option<string>, s': string)
    requires Indexed(rows, chatbotId, s, content, provider, deleteErr, insertErr).1.Fail?
    ensures s' != s ==>
      OfSource(Indexed(rows, chatbotId, s, content, provider, deleteErr, insertErr).0, s') == OfSource(rows, s')
    ensures EmbedAll(Chunks(content, DefaultChunkSize, DefaultOverlap), provider).Err? || deleteErr.Some? ==>
      Indexed(rows, chatbotId, s, content, provider, deleteErr, insertErr).0 == rows
    ensures || Indexed(rows, chatbotId, s, content, provider, deleteErr, insertErr).0 == rows
            || (&& EmbedAll(Chunks(content, DefaultChunkSize, DefaultOverlap), provider).Ok?
                && (exists k: nat ::
                      && k < |Chunks(content, DefaultChunkSize, DefaultOverlap)|
                      && k <= |EmbedAll(Chunks(content, DefaultChunkSize, DefaultOverlap), provider).value|
                      && OfSource(Indexed(rows, chatbotId, s, content, provider, deleteErr, insertErr).0, s)
                         == NewRows(chatbotId, s, Chunks(content, DefaultChunkSize, DefaultOverlap),
                                    EmbedAll(Chunks(content, DefaultChunkSize, DefaultOverlap), provider).value, k)))
  {
    var chunks := Chunks(content, DefaultChunkSize, DefaultOverlap);
    var e := EmbedAll(chunks, provider);
    if e.Ok? && deleteErr.None? {
      var vecs := e.value;
      var k := Inserted(|chunks|, |vecs|, insertErr, 0);
      var added := NewRows(chatbotId, s, chunks, vecs, k);
      FilterAppend(Without(rows, s), added, IsOf(s));
      FilterAppend(Without(rows, s), added, IsOf(s'));
      WithoutSources(rows, s, s');
      NewRowsSource(chatbotId, s, chunks, vecs, k, s');
      assert OfSource(Indexed(rows, chatbotId, s, content, provider, deleteErr, insertErr).0, s) == added;
    }
  }

  /** Lines 9-15 with src/lib/embeddings.ts:70-72. Whitespace-only content
      succeeds without calling the embedder on anything: the old rows of `s`
      are deleted and none are written. */
  lemma IndexedBlank(rows: seq<Chunk>, chatbotId: string, s: string, content: string,
                     provider: Provider, insertErr: nat -> Option<string>)
    requires AllSpace(content)
    ensures Indexed(rows, chatbotId, s, content, provider, None, insertErr) == (Without(rows, s), Pass)
    ensures OfSource(Without(rows, s), s) == []
  {
    ChunksShape(content, DefaultChunkSize, DefaultOverlap);
    WithoutSources(rows, s, s);
    assert Without(rows, s) + NewRows(chatbotId, s, [], [], 0) == Without(rows, s);
  }

  /** Indexing the same content again with the same (deterministic) embedder
      and no faults gives the same table: no duplicate rows accumulate. */
  lemma IndexedTwice(rows: seq<Chunk>, chatbotId: string, s: string, content: string,
                     provider: Provider, insertErr: nat -> Option<string>)
    requires Indexed(rows, chatbotId, s, content, provider, None, insertErr).1 == Pass
    ensures Indexed(Indexed(rows, chatbotId, s, content, provider, None, insertErr).0,
                    chatbotId, s, content, provider, None, insertErr)
      == Indexed(rows, chatbotId, s, content, provider, None, insertErr)
  {
    var chunks := Chunks(content, DefaultChunkSize, DefaultOverlap);
    var vecs := EmbedAll(chunks, provider).value;
    var k := Inserted(|chunks|, |vecs|, insertErr, 0);
    var added := NewRows(chatbotId, s, chunks, vecs, k);
    FilterAppend(Without(rows, s), added, NotOf(s));
    WithoutIdempotent(rows, s);
    NewRowsSource(chatbotId, s, chunks, vecs, k, s);
    assert Without(Without(rows, s) + added, s) == Without(rows, s) + [];
    assert Without(rows, s) + [] == Without(rows, s);
  }

  // ---------------------------------------------------------------------------
  // queryKnowledge (lines 42-63)
  // ---------------------------------------------------------------------------

  function Searchable(b: string): Chunk -> bool { (c: Chunk) => c.chatbotId == b && c.embedding.Some? }

  /** The rows `WHERE chatbotId = b AND embedding IS NOT NULL`, in table order. */
  function Candidates(rows: seq<Chunk>, b: string): seq<Chunk> {
    Filter(rows, Searchable(b))
  }

  /** The distance of a row from the query vector (`embedding <=> q`). */
  function Distance(dist: (Vector, Vector) -> int, q: Vector, c: Chunk): int {
    if c.embedding.Some? then dist(c.embedding.value, q) else 0
  }

  function Contents(cs: seq<Chunk>): (r: seq<string>)
    ensures |r| == |cs| && forall i :: 0 <= i < |cs| ==> r[i] == cs[i].content
  {
    seq(|cs|, i requires 0 <= i < |cs| => cs[i].content)
  }

  /** The distance from the query vector as a sort key. */
  function ByDistance(dist: (Vector, Vector) -> int, q: Vector): Chunk -> int {
    c => Distance(dist, q, c)
  }

  /** The candidates ordered by distance (`ORDER BY embedding <=> q`); ties keep
      table order. */
  function Ranked(rows: seq<Chunk>, b: string, dist: (Vector, Vector) -> int, q: Vector): seq<Chunk> {
    SortBy(Candidates(rows, b), ByDistance(dist, q))
  }

  /** The ranking holds every candidate exactly once, nothing else, nearest
      first. */
  lemma RankedSpec(rows: seq<Chunk>, b: string, dist: (Vector, Vector) -> int, q: Vector)
    ensures multiset(Ranked(rows, b, dist, q)) == multiset(Candidates(rows, b))
    ensures forall i, j :: 0 <= i < j < |Ranked(rows, b, dist, q)| ==>
      Distance(dist, q, Ranked(rows, b, dist, q)[i]) <= Distance(dist, q, Ranked(rows, b, dist, q)[j])
    ensures forall c :: c in Ranked(rows, b, dist, q) <==> c in rows && c.chatbotId == b && c.embedding.Some?
  {
    var key := ByDistance(dist, q);
    SortByCorrect(Candidates(rows, b), key);
    MultisetMembers(Ranked(rows, b, dist, q), Candidates(rows, b));
    FilterMembers(rows, Searchable(b));
  }

  // ---------------------------------------------------------------------------
  // The table
  // ---------------------------------------------------------------------------

  class ChunkStore {
    /** The `KnowledgeChunk` rows, in insertion order. */
    var rows: seq<Chunk>

    constructor ()
      ensures rows == []
    {
      rows := [];
    }

    /** `deleteKnowledge(sourceId)` (lines 36-40). */
    method DeleteKnowledge(sourceId: string, deleteErr: Option<string>) returns (r: Outcome)
      modifies this
      ensures deleteErr.Some? ==> r == Fail(deleteErr.value) && rows == old(rows)
      ensures deleteErr.None? ==> r == Pass && rows == Without(old(rows), sourceId)
    {
      if deleteErr.Some? {
        return Fail(deleteErr.value);
      }
      rows := Without(rows, sourceId);
      r := Pass;
    }

    /** `indexKnowledge(chatbotId, sourceId, content)` (lines 4-34): chunk and
        embed first, then delete the source's rows, then insert row `i` for
        chunk `i` until a vector is missing or an insert throws. */
    method IndexKnowledge(chatbotId: string, sourceId: string, content: string, provider: Provider,
                          deleteErr: Option<string>, insertErr: nat -> Option<string>)
      returns (r: Outcome)
      modifies this
      ensures (rows, r) == Indexed(old(rows), chatbotId, sourceId, content, provider, deleteErr, insertErr)
    {
      var chunks := ChunkText(content, DefaultChunkSize, DefaultOverlap);
      var embedded := CreateEmbeddings(chunks, provider);
      if embedded.Err? {
        return Fail(embedded.msg);
      }
      var embeddings := embedded.value;
      if deleteErr.Some? {
        return Fail(deleteErr.value);
      }
      rows := Without(rows, sourceId);
      r := InsertRows(chatbotId, sourceId, chunks, embeddings, insertErr);
    }

    /** The loop of lines 18-33: row `i` for chunk `i`, until a vector is
        missing or an insert throws. */
    method InsertRows(chatbotId: string, sourceId: string, chunks: seq<string>, embeddings: seq<Vector>,
                      insertErr: nat -> Option<string>)
      returns (r: Outcome)
      modifies this
      ensures rows == old(rows) + NewRows(chatbotId, sourceId, chunks, embeddings,
                                         Inserted(|chunks|, |embeddings|, insertErr, 0))
      ensures r == InsertOutcome(|chunks|, |embeddings|, insertErr, Inserted(|chunks|, |embeddings|, insertErr, 0))
    {
      var i: nat := 0;
      while i < |chunks|
        invariant i <= |chunks| && i <= |embeddings|
        invariant Inserted(|chunks|, |embeddings|, insertErr, 0) == Inserted(|chunks|, |embeddings|, insertErr, i)
        invariant rows == old(rows) + NewRows(chatbotId, sourceId, chunks, embeddings, i)
      {
        if i >= |embeddings| {
          return Fail(JoinOfMissing);
        }
        var err := insertErr(i);
        if err.Some? {
          return Fail(err.value);
        }
        rows := rows + [Chunk(ChunkId(sourceId, i), sourceId, chatbotId, chunks[i], Some(embeddings[i]), i)];
        i := i + 1;
      }
      r := Pass;
    }

    /** `queryKnowledge(chatbotId, query, topK)` (lines 42-63): the contents of
        the first `topK` ranked candidates, the embedder's error, or, when the
        embedding succeeded, the error `queryErr` the `$queryRaw` call throws. */
    function QueryKnowledge(chatbotId: string, query: string, topK: nat, provider: Provider,
                            dist: (Vector, Vector) -> int, queryErr: Option<string>): (r: Result<seq<string>>)
      reads this
      ensures EmbedOne(query, provider).Err? ==> r == Err(EmbedOne(query, provider).msg)
      ensures EmbedOne(query, provider).Ok? && queryErr.Some? ==> r == Err(queryErr.value)
      ensures EmbedOne(query, provider).Ok? && queryErr.None? ==> r.Ok?
      ensures r.Ok? ==> |r.value| == Min(topK, |Candidates(rows, chatbotId)|)
      ensures r.Ok? ==> forall i :: 0 <= i < |r.value| ==>
        r.value[i] == Ranked(rows, chatbotId, dist, EmbedOne(query, provider).value)[i].content
    {
      match EmbedOne(query, provider)
      case Err(m) => Err(m)
      case Ok(q) =>
        if queryErr.Some? then Err(queryErr.value)
        else Ok(Contents(Take(Ranked(rows, chatbotId, dist, q), topK)))
    }
  }

  /** A query returns at most `topK` contents, and none (not an error) exactly
      when `topK` is 0 or the chatbot has no row with an embedding. */
  lemma QueryKnowledgeCount(store: ChunkStore, chatbotId: string, query: string, topK: nat,
                            provider: Provider, dist: (Vector, Vector) -> int)
    requires EmbedOne(query, provider).Ok?
    ensures |store.QueryKnowledge(chatbotId, query, topK, provider, dist, None).value| <= topK
    ensures store.QueryKnowledge(chatbotId, query, topK, provider, dist, None).value == [] <==>
      topK == 0 || forall c :: c in store.rows ==> c.chatbotId != chatbotId || c.embedding.None?
  {
    var cands := Candidates(store.rows, chatbotId);
    FilterMembers(store.rows, Searchable(chatbotId));
    if cands != [] {
      assert cands[0] in cands;
    }
  }

  /** Result `i` is the content of the `i`-th nearest row of the chatbot that has
      an embedding. */
  lemma QueryKnowledgeRows(store: ChunkStore, chatbotId: string, query: string, topK: nat,
                           provider: Provider, dist: (Vector, Vector) -> int, i: nat)
    requires EmbedOne(query, provider).Ok?
    requires i < |store.QueryKnowledge(chatbotId, query, topK, provider, dist, None).value|
    ensures Ranked(store.rows, chatbotId, dist, EmbedOne(query, provider).value)[i] in store.rows
    ensures Ranked(store.rows, chatbotId, dist, EmbedOne(query, provider).value)[i].chatbotId == chatbotId
    ensures Ranked(store.rows, chatbotId, dist, EmbedOne(query, provider).value)[i].embedding.Some?
    ensures store.QueryKnowledge(chatbotId, query, topK, provider, dist, None).value[i]
      == Ranked(store.rows, chatbotId, dist, EmbedOne(query, provider).value)[i].content
  {
    var q := EmbedOne(query, provider).value;
    RankedSpec(store.rows, chatbotId, dist, q);
    assert Ranked(store.rows, chatbotId, dist, q)[i] in Ranked(store.rows, chatbotId, dist, q);
  }

  /** The results come nearest first, and every candidate left out is at least as
      far from the query as every one returned. */
  lemma QueryKnowledgeNearest(store: ChunkStore, chatbotId: string, query: string, topK: nat,
                              provider: Provider, dist: (Vector, Vector) -> int, i: nat, j: nat)
    requires EmbedOne(query, provider).Ok?
    requires i < |store.QueryKnowledge(chatbotId, query, topK, provider, dist, None).value|
    requires i < j < |Candidates(store.rows, chatbotId)|
    ensures Distance(dist, EmbedOne(query, provider).value, Ranked(store.rows, chatbotId, dist, EmbedOne(query, provider).value)[i])
      <= Distance(dist, EmbedOne(query, provider).value, Ranked(store.rows, chatbotId, dist, EmbedOne(query, provider).value)[j])
  {
    RankedSpec(store.rows, chatbotId, dist, EmbedOne(query, provider).value);
  }
}
