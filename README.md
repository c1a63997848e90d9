# Chat_Bot knowledge pipeline — a Dafny model

This project models the core of the Chat_Bot service: a multi-tenant chatbot
whose answers can draw on a knowledge base that its owner uploads. The model
covers:

- **The knowledge-ingestion pipeline.**
  - The text chunker (`chunkText`) and the batching embedder (`createEmbeddings`, `createEmbedding`).
  - The chunk store (`indexKnowledge`, `deleteKnowledge`, `queryKnowledge`).
  - The status machine of a knowledge source (`pending` → `processing` → `ready` / `failed`). It is driven by the queue (`processSource`, `processPendingJobs`, `getQueueStats`), by the manual reprocess handler and by the upload handler's `processKnowledge`.
- **The logic around the pipeline.**
  - The bounded database retry wrapper and the register route's narrower copy of it.
  - The fixed-window rate limiter and the routing chain of the middleware.
  - The relative-time formatter.
  - The integer part of the admin usage report.
  - The prompt composition and the line framing of the streamed model reply.
  - The chat handler.
  - The register handler.

One Dafny module models each source file:

| module | file |
|---|---|
| `Middleware` | src/middleware.ts |
| `DateUtils` | src/lib/date-utils.ts |
| `Retry` | src/lib/withRetry.ts |
| `Embeddings` | src/lib/embeddings.ts |
| `Vectors` | src/lib/vectors.ts |
| `Queue` | src/lib/queue.ts |
| `Anthropic` | src/lib/anthropic.ts |
| `AdminUsage` | src/app/api/admin/usage/route.ts |
| `ChatRoute` | src/app/api/chat/route.ts |
| `RegisterRoute` | src/app/api/auth/register/route.ts |
| `KnowledgeProcess` | src/app/api/knowledge/process/route.ts |
| `KnowledgeUpload` | src/app/api/knowledge/upload/route.ts |

Three modules hold what several files share:

- `Common`: Option/Result, the JavaScript string operations used (`trim`, `startsWith`, `includes`, decimal rendering), a stable sort by an integer key, and `find`/`filter`/`take`.
- `Sources`: the knowledge-source table, its status writes and `getQueueStats`.
- `Accounts`: users and chatbots.

### How the outside world appears

- **Database.** Tables are sequences of rows. Code that updates rows in place is a class whose fields are those sequences: `Sources.SourceTable`, `Vectors.ChunkStore`, `ChatRoute.ChatStore`, `RegisterRoute.Directory`.
- **Database failures.** Each failure is a parameter giving the message the call throws, if any.
  - For a status write or an insert it is an `Option<string>`, or a function from the attempt or row number to one.
  - Where the source wraps a call in `withRetry`, the parameter is what the call ends with after retrying. The register route is the exception: it passes per-attempt failures, and the rejection of each reconnect (`$disconnect()` or `$connect()`), through its own retry loop.
- **Remote calls.**
  - The embedding provider is a function from a batch of strings to a `Result` of vectors.
  - The chat completion endpoint is a function from the request body to a `Result` of the reply.
  - Each uploaded file carries its text decoded as UTF-8 and what the PDF parser makes of it: the text, or the error it throws.
  - The JSON parser of a stream event is a function from the payload to an `Option` of the delta content: `None` when the payload does not parse or has no content.
- **Signed-in user.** The outcome of `getCurrentUser()` (src/lib/auth.ts) is a parameter of type `Result<Option<…>>`: `Err` when it throws (its lookups and the default chatbot's creation can fail), `None` when nobody is signed in, else the user.
- **Clock.** Every time-dependent function takes an integer millisecond `now`.
- **pgvector.** The distance `<=>` is an abstract integer key per row.

## Model

| member | source | states |
|---|---|---|
| Middleware.Hit | src/middleware.ts:7-18 | Only the entry for `key` changes, and it exists afterwards. A call is blocked only inside an open window whose count had already reached `maxRequests`. |
| Middleware.HitsInWindow | src/middleware.ts:11-17 | Inside an open window, call `j` sees count `c + j + 1`. A call at exactly `resetTime` still belongs to the window. |
| Middleware.WindowBudget | src/middleware.ts:7-18 | In a window opened by the first call, exactly the first `maxRequests` calls pass. Blocked calls are still counted. |
| Middleware.RateLimiter.IsRateLimited | src/middleware.ts:7-18 | The map and the answer are those of `Hit`. |
| Middleware.RateLimiter.Sweep | src/middleware.ts:22-27 | The loop deletes exactly the entries with `now > resetTime` and keeps every other entry unchanged. |
| Middleware.ClientIp | src/middleware.ts:32 | The result is never empty and holds no comma. Without the header it is "unknown". |
| Middleware.FirstFieldEnds | src/middleware.ts:32 | `split(",")[0]` is the header up to its first comma, or all of it when it has none. |
| Middleware.ClientIpHeader | src/middleware.ts:32 | With the header present, a blank first field gives "unknown". Otherwise the address is that field trimmed, with no whitespace left at either end. |
| Middleware.HandleRequest | src/middleware.ts:30-94 | The limiter map and response are those of the routing chain `Routed`. |
| Middleware.PublicFirst | src/middleware.ts:39-47 | A public path passes before any other check and leaves the limiter unchanged. |
| Middleware.RegisterLimitUnreachable | src/middleware.ts:43-54 | `/api/auth/register` is caught by the public `/api/auth` prefix, so the registration limit never answers and never counts. |
| Middleware.LoginRedirectUnreachable | src/middleware.ts:41-91 | `/login` is public, so the redirect of logged-in users to the dashboard never happens. |
| Middleware.ChatBypassesLogin | src/middleware.ts:57-76 | Every `/api/chat` path, `/api/chatbot` included, skips the login checks. OPTIONS gets the CORS preflight. POST is limited to 20 per minute under `chat:<ip>`. Anything else passes. |
| Middleware.SessionRequired | src/middleware.ts:79-86 | Without a session cookie, a dashboard path redirects to `/login`. Any other non-public API path outside `/api/chat` gets 401. |
| Middleware.RoutedFrame | src/middleware.ts:49-76 | One request changes at most the limiter entry `chat:<ip>`. |
| DateUtils.ElapsedSeconds | src/lib/date-utils.ts:4 | The result is the floor of the millisecond difference over 1000, negative differences included. |
| DateUtils.BucketsUnderFourWeeks | src/lib/date-utils.ts:4-28 | Under a minute, a future date included, the label is "just now". Otherwise it shows whole elapsed units: 1-59 minutes, 1-23 hours, 1-6 days, 1-3 weeks. |
| DateUtils.BucketsFromFourWeeks | src/lib/date-utils.ts:25-36 | Months are shown from day 28 to day 359, as `days / 30`, at most 11. Years are shown from day 360, as `days / 365`. |
| DateUtils.AsWrittenZeroMonths | src/lib/date-utils.ts:30-33 | 28 and 29 days print "0 months". |
| DateUtils.AsWrittenZeroYears | src/lib/date-utils.ts:30-36 | 360 to 364 days print "0 years". |
| DateUtils.BucketCorrected | src/lib/date-utils.ts:25-36 | The corrected bucketing shows at least one unit and whole units elapsed. It differs from the code as written exactly on days 28-29 and 360-364. |
| Retry.RetriedSpec | src/lib/withRetry.ts:9-36 | With `maxRetries <= 0` nothing is called and the wrapper throws "Max retries reached". Otherwise it makes between 1 and `maxRetries` calls, with one completed reconnect fewer than calls. Every earlier call failed with a retried error and its reconnect succeeded. When the last call failed with a retried error before the final iteration, its reconnect rejected and the wrapper throws that rejection (lines 27-29 run inside the `catch`). Otherwise the outcome is the last call's: so the loop stops early only on success, on an error that is not retried, or on a rejected reconnect. With every reconnect succeeding, the outcome is the last call's. |
| Retry.RetriedFrom | src/lib/withRetry.ts:13-34 | The same, from any iteration of the loop on, including a reconnect that rejects at any iteration. |
| Retry.RetriedFirstCall | src/lib/withRetry.ts:15-32 | A first-call success is returned unchanged, and a first-call error that is not retried is rethrown, each after exactly one call and whatever the reconnects would do. |
| Retry.WithRetry | src/lib/withRetry.ts:9-36 | The loop's result, calls and completed reconnects are those of `Retried`, including the exit on a rejected `$disconnect()`/`$connect()`, and its properties follow. |
| Retry.WithDbRetry | src/lib/withRetry.ts:9-36 | With the default of three, it makes 1 to 3 calls. It throws the reconnect's rejection when the last call failed with one of the six connection messages before the third call, and otherwise ends with the last call's outcome. When no reconnect rejects, it gives up early on an error only when the error is not a connection message. |
| Common.TrimSlice | src/lib/embeddings.ts:89 | `trim` returns a contiguous slice of its input, with no whitespace at either end, and only whitespace was cut away. |
| Common.TrimEmpty | src/app/api/knowledge/process/route.ts:51 | `trim()` is empty exactly for whitespace-only input. |
| Common.SortByCorrect | src/app/api/admin/usage/route.ts:111 | The sort used for ordered queries and the report is a permutation of its input, ascending by key. |
| Common.FilterPermutation | src/app/api/admin/usage/route.ts:109-111 | Filtering two orderings of the same rows keeps the same rows. So counting the active users before the sort, as line 109 does, gives the number of active rows in the sorted list. |
| Embeddings.NormalizeShape | src/lib/embeddings.ts:67-72 | In the cleaned text, whitespace occurs only as single spaces, so no newline is left. It has no whitespace at either end, keeps every other character in order, and is empty exactly for whitespace-only input. |
| Embeddings.WindowEnd | src/lib/embeddings.ts:75-87 | A window never exceeds `chunkSize`. It reaches the end of the text exactly when `chunkSize` characters would, and a window that stops short keeps more than half of `chunkSize`. |
| Embeddings.WindowEndBreakPoint | src/lib/embeddings.ts:79-86 | A window that is not the last is cut just after its last '.' or newline when that break lies beyond half of `chunkSize`, and otherwise keeps `chunkSize` characters. |
| Embeddings.WindowEndCut | src/lib/embeddings.ts:79-86 | The same cut, stated without `lastIndexOf`. |
| Embeddings.WindowLinks | src/lib/embeddings.ts:94 | Each next window starts `overlap` characters before the end of the previous untrimmed one, and only the last window reaches the end of the text. |
| Embeddings.WindowsCover | src/lib/embeddings.ts:74-97 | Every character of the cleaned text lies in some window, so there is no gap. |
| Embeddings.ChunksShape | src/lib/embeddings.ts:63-100 | Every chunk is non-empty and equal to its own `trim()`. Each is at most `chunkSize` long and a contiguous slice of the cleaned text. Whitespace-only input gives no chunk, and any other input gives at least one. |
| Embeddings.ChunkStep | src/lib/embeddings.ts:75-96 | One loop pass on window `k` appends that window's piece. It says whether the window reached the end, and otherwise moves `start` to window `k + 1`. |
| Embeddings.ChunkWindows | src/lib/embeddings.ts:74-97 | The corrected loop returns the pieces of all the windows. |
| Embeddings.ChunkText | src/lib/embeddings.ts:63-100 | `chunkText` with the corrected loop exit returns `Chunks` of its input. |
| Embeddings.AsWrittenNeverExits | src/lib/embeddings.ts:74-96 | As written, with non-empty text and `overlap > 0`, `start` stays below the length after every pass, so the loop never exits. |
| Embeddings.AsWrittenStalls | src/lib/embeddings.ts:94-96 | Once `start` is `length - overlap`, the loop as written repeats that window forever. |
| Embeddings.AsWrittenAgreesBeforeEnd | src/lib/embeddings.ts:75-95 | On the windows the corrected loop visits, the loop as written measures the same chunk and computes the same next `start`. |
| Embeddings.CreateEmbeddings | src/lib/embeddings.ts:32-61 | The loop returns `EmbedAll` of its input: the batch replies concatenated in order, or the wrapped message of the first batch error. |
| Embeddings.BatchesPartition | src/lib/embeddings.ts:40-41 | The batches, concatenated, are the input. Each holds 1 to 20 inputs, and all but the last hold exactly 20. |
| Embeddings.EmbedAllFailsIffBatchFails | src/lib/embeddings.ts:43-60 | The call fails exactly when some batch fails, and never returns a partial result. |
| Embeddings.EmbedAllPointwise | src/lib/embeddings.ts:41-48 | A provider that answers each input separately gets each input truncated to 8000 characters, and the results come back in input order. |
| Embeddings.EmbedAllCount | src/lib/embeddings.ts:48 | The output has one vector per input when the provider returns one vector per input of every batch. |
| Embeddings.EmbedAllUnchecked | src/lib/embeddings.ts:48 | The count is never checked: a provider answering every batch with no vectors makes the call succeed with an empty list. |
| Embeddings.EmbedOneAgreesWithBatch | src/lib/embeddings.ts:18-25 | `createEmbedding` sends a single input truncated to 8000 characters and returns the first vector. On the wire its `input` is a bare string rather than a one-element array; the model treats the two request shapes as the same batch a one-element `createEmbeddings` would send. |
| Vectors.ChunkIdInjective | src/lib/vectors.ts:24 | Ids `chunk_<sourceId>_<i>` never collide, because the decimal index holds no '_'. |
| Vectors.WithoutSources | src/lib/vectors.ts:36-40 | After `deleteMany`, no row of the source is left, and every other source's rows are unchanged and in order. |
| Vectors.WithoutIdempotent | src/lib/vectors.ts:36-40 | Deleting a source twice is the same as deleting it once. |
| Vectors.IndexedSuccess | src/lib/vectors.ts:9-33 | After a successful run the source has one row per chunk. Row `i` has index `i`, id `chunk_<s>_<i>`, chunk `i` as content, its vector and the chatbot. Other sources are unchanged. |
| Vectors.IndexedFailure | src/lib/vectors.ts:9-33 | After a failed run, other sources are unchanged. When embedding or the delete failed the table is as it was. Otherwise the source holds only the rows for the first `k` chunks with the embedder's vectors, `k` short of the chunk count. |
| Vectors.IndexedBlank | src/lib/vectors.ts:9-15 | Whitespace-only content succeeds without embedding anything: the old rows are deleted and none are written. |
| Vectors.IndexedTwice | src/lib/vectors.ts:13-33 | Indexing the same content again with a deterministic embedder gives the same table, so no duplicates accumulate. |
| Vectors.RankedSpec | src/lib/vectors.ts:51-60 | The ranking is a permutation of the chatbot's rows that have an embedding, nearest first. |
| Vectors.ChunkStore.DeleteKnowledge | src/lib/vectors.ts:36-40 | The table loses exactly the source's rows. A failed delete changes nothing. |
| Vectors.ChunkStore.IndexKnowledge | src/lib/vectors.ts:4-34 | Chunk and embed first, then delete, then insert. The table and outcome are those of `Indexed`. |
| Vectors.ChunkStore.InsertRows | src/lib/vectors.ts:18-33 | The loop inserts rows `0..k-1` and stops at the first missing vector or failed insert. |
| Vectors.ChunkStore.QueryKnowledge | src/lib/vectors.ts:42-63 | The embedder's error fails the query, and after a successful embedding so does the `$queryRaw` error. Otherwise the result has `min(topK, #candidates)` entries, and entry `i` is the content of the `i`-th ranked candidate. |
| Vectors.QueryKnowledgeCount | src/lib/vectors.ts:51-62 | At most `topK` results. None (not an error) exactly when `topK` is 0 or the chatbot has no row with an embedding. |
| Vectors.QueryKnowledgeRows | src/lib/vectors.ts:51-62 | Result `i` is the content of the `i`-th nearest row of the chatbot that has an embedding. |
| Vectors.QueryKnowledgeNearest | src/lib/vectors.ts:51-62 | Results come nearest first, and every candidate left out is at least as far as every one returned. |
| Sources.StatusWrite | src/lib/queue.ts:15-20 | An `update` of status and error either changes only row `id`, as asked, or throws and changes nothing. A missing row throws. |
| Sources.GetQueueStats | src/lib/queue.ts:78-86 | Each of the four counts is the number of rows with that status. |
| Sources.StatsTotal | src/lib/queue.ts:78-86 | The four counts add up to the size of the table. |
| Sources.CountStatusMembers | src/lib/queue.ts:80-83 | A count is the number of times the status occurs in the `status` column, and it is zero exactly when no row has that status. |
| Sources.SourceTable.Update | src/lib/queue.ts:15-20 | The rows become those of `StatusWrite`. |
| Sources.SourceTable.Create | src/app/api/knowledge/upload/route.ts:59-67 | On success the row is appended. On failure the table is unchanged. |
| Queue.ProcessedSettles | src/lib/queue.ts:13-49 | When the source exists and its final `failed` write does not fail, the call returns normally. The source ends `ready` with no error if every step succeeded. Otherwise it ends `failed`, and its error is the message of the first step that threw (the `processing` write, the indexing of the first 75000 characters, or the `ready` write), or "Processing failed" when that message is empty. |
| Queue.ProcessedRethrows | src/lib/queue.ts:37-49 | The call throws only when its final `failed` write throws, and with that write's error. |
| Queue.ProcessedIndexesPrefix | src/lib/queue.ts:15-34 | Once the first write succeeds, the chunks are what indexing the first 75000 characters makes. Otherwise nothing is indexed. |
| Queue.ProcessedBlank | src/lib/queue.ts:23-34 | Whitespace-only content is not rejected: the source's chunks are deleted, none are written, and the source ends `ready`. |
| Queue.ProcessedStuck | src/lib/queue.ts:15-49 | If both the `ready` and the `failed` writes fail, the source stays `processing` with its error cleared, and the call throws. |
| Queue.Processed | src/lib/queue.ts:6-51 | Every other source keeps its row, and the table keeps its length. |
| Queue.ProcessSource | src/lib/queue.ts:6-51 | The writes and indexing in source order leave the tables and outcome of `Processed`. |
| Queue.SelectedSpec | src/lib/queue.ts:56-60 | The selection is `min(limit, #pending)` pending rows of the table, in ascending creation order. As a multiset it is contained in the pending rows, so no row is taken twice. |
| Queue.SelectedOldest | src/lib/queue.ts:56-60 | No pending row left out of the selection was created before one that was taken. |
| Queue.PendingRunSpec | src/lib/queue.ts:54-75 | The count is at most `min(limit, #pending)`. A source whose id is not among the selected jobs keeps its row. |
| Queue.RanOthers | src/lib/queue.ts:65-72 | A source that is not among the jobs keeps its row through the loop. |
| Queue.ProcessPendingJobs | src/lib/queue.ts:54-75 | The loop processes the jobs in order, counting normal returns. The tables and count are those of `PendingRun`. |
| KnowledgeProcess.HandledGuards | src/app/api/knowledge/process/route.ts:11-22 | When `getCurrentUser()` throws, the answer is 500 with its message, or "שגיאת שרת" when that is empty. Without a user it is 401, and without a `sourceId` it is 400. None of these looks anything up or changes anything. |
| KnowledgeProcess.HandledTarget | src/app/api/knowledge/process/route.ts:27-49 | Nothing changes unless the caller's chatbot owns the source and both lookups succeed. Then the request does what lines 51-102 do to that source. |
| KnowledgeProcess.OnSourceBlank | src/app/api/knowledge/process/route.ts:51-59 | Blank content marks the source `failed` with "אין תוכן לעיבוד" and answers 400, without indexing. |
| KnowledgeProcess.ReprocessedOutcome | src/app/api/knowledge/process/route.ts:61-102 | After the processing write, the first 100000 characters are indexed. The answer is the updated row: `ready` with the error still null on success. Otherwise it is `failed`, and its error is the message of whichever threw, the indexing or the `ready` write, or "העיבוד נכשל" when that message is empty. |
| KnowledgeProcess.ReprocessedTables | src/app/api/knowledge/process/route.ts:61-102 | The chunks are either unchanged or what indexing made, and no row but the source's changes. |
| KnowledgeProcess.OnSourceFrame | src/app/api/knowledge/process/route.ts:51-102 | Only the source's own row and chunks change. |
| KnowledgeProcess.HandlePost | src/app/api/knowledge/process/route.ts:10-111 | The method's early returns leave the tables and response of `Handled`. |
| KnowledgeUpload.FileContent | src/app/api/knowledge/upload/route.ts:38-56 | A `.pdf` gets the parser's text, or "" when it throws. Every other file is its text. |
| KnowledgeUpload.UploadsRows | src/app/api/knowledge/upload/route.ts:31-73 | Every row the loop creates is appended, in order, to both the table and `results`. |
| KnowledgeUpload.UploadsShape | src/app/api/knowledge/upload/route.ts:31-73 | Unless a `create` threw, the rows are one per file of at most 10 MiB, in order. Each is a `processing` file source of the caller's chatbot, with the file's name and content. |
| KnowledgeUpload.UploadsStop | src/app/api/knowledge/upload/route.ts:59-67 | After a `create` throws, the loop does nothing more. |
| KnowledgeUpload.UploadedSpec | src/app/api/knowledge/upload/route.ts:8-79 | When `getCurrentUser()` throws the answer is 500 "Upload failed", and without a user it is 401; neither creates anything. An empty upload by a caller with a chatbot answers 400 "No files provided", and no empty upload creates anything. Otherwise the table gains exactly the rows that were started, and a success lists exactly those rows. |
| KnowledgeUpload.HandleUpload | src/app/api/knowledge/upload/route.ts:6-80 | The method leaves the table and answer of `Uploaded`. |
| KnowledgeUpload.KnowledgeBlank | src/app/api/knowledge/upload/route.ts:84-103 | Blank content indexes nothing and marks the row `failed` with "No content found". If that write throws, the `catch` marks the row `failed` with the write's message instead. The call rejects only when that second write throws as well, and then nothing changes. |
| KnowledgeUpload.KnowledgeIndexed | src/app/api/knowledge/upload/route.ts:92-103 | Other content is indexed in full, with no truncation. The row ends `ready` with its error untouched, or `failed` with exactly the thrown message. |
| KnowledgeUpload.ProcessKnowledge | src/app/api/knowledge/upload/route.ts:82-105 | The writes leave the tables of `Knowledge`. |
| AdminUsage.FetchedConversations | src/app/api/admin/usage/route.ts:27-43 | Every conversation is fetched, with its id, keeping only the assistant replies that have a token count. |
| AdminUsage.FetchedBots | src/app/api/admin/usage/route.ts:24-45 | Every chatbot is fetched, with its id, and each of its conversations is fetched as above. |
| AdminUsage.FetchedAll | src/app/api/admin/usage/route.ts:17-47 | Every user is fetched, with the stored record except that the chatbots are fetched as above. |
| AdminUsage.TallySums | src/app/api/admin/usage/route.ts:62-76 | The counters are the sums of the token fields, a missing count adding 0, and the message count. |
| AdminUsage.LatestIsMax | src/app/api/admin/usage/route.ts:60-73 | `lastActivity` is null exactly when no message is counted. Otherwise it is the greatest `createdAt`, taken from its first occurrence. |
| AdminUsage.UsageCounts | src/app/api/admin/usage/route.ts:31-76 | A user's row counts all their conversations. It counts and sums exactly their assistant replies that have a token count. |
| AdminUsage.CountMessages | src/app/api/admin/usage/route.ts:65-74 | The innermost loop leaves the tally `Run` gives for the messages. |
| AdminUsage.CountConversations | src/app/api/admin/usage/route.ts:64-75 | The middle loop leaves the tally of all the conversations' messages, in order. |
| AdminUsage.UsageOf | src/app/api/admin/usage/route.ts:53-90 | The per-user callback returns `Usage` of the user. |
| AdminUsage.SummedMessages | src/app/api/admin/usage/route.ts:93-103 | The totals add up the same counts as one pass over all users' counted messages. |
| AdminUsage.HandledAdminOnly | src/app/api/admin/usage/route.ts:10-14 | A missing or non-admin caller gets 403, whatever the database holds or does. |
| AdminUsage.HandledReport | src/app/api/admin/usage/route.ts:105-111 | The report has one row per user, reordered by non-increasing `totalTokens`. `activeUsers` is exactly the number of listed rows with a positive `totalTokens`. |
| AdminUsage.HandleGet | src/app/api/admin/usage/route.ts:8-117 | Building the rows one user at a time gives the response of `Handled`. |
| Anthropic.FullSystemPromptShape | src/lib/anthropic.ts:15-17 | The prompt is the chatbot prompt when the context is empty. Otherwise it starts with the chatbot prompt, and the context reads back from between the fixed header and footer. |
| Anthropic.FullSystemPromptInjective | src/lib/anthropic.ts:58-60 | Two prompts with the same chatbot prompt and different contexts differ. |
| Anthropic.WireMessages | src/lib/anthropic.ts:28-34 | The system message comes first, then every input message in order, with role and content unchanged. |
| Anthropic.GeneratedSpec | src/lib/anthropic.ts:6-47 | Without a key nothing is sent. Otherwise exactly one non-streaming request goes out, to the fixed model, with 1024 max tokens. It carries the system prompt, then each conversation message with its role and content. A network failure is rethrown unchanged, and a non-ok reply throws with its status and text. An ok reply yields the first choice's content, or "" when there is none. |
| Anthropic.SplitJoin | src/lib/anthropic.ts:103 | `split("\n")` is undone by joining: the text is its complete lines, each followed by a newline, then the remainder. No piece holds a newline. |
| Anthropic.SplitAppend | src/lib/anthropic.ts:102-104 | As the buffer grows, the complete lines found so far stay, and the remainder is split again together with the new text. |
| Anthropic.ReadStep | src/lib/anthropic.ts:99-106 | One read appends a chunk to the buffer. The lines found are those of the old buffer joined with the chunk. |
| Anthropic.CompleteLinesAppend | src/lib/anthropic.ts:102-104 | The lines of a growing text are those found so far, then those of the remainder joined with the new text. |
| Anthropic.EventSkips | src/lib/anthropic.ts:107-109 | Blank lines, the `data: [DONE]` marker and lines not starting with `data: ` yield nothing. |
| Anthropic.YieldsNonEmpty | src/lib/anthropic.ts:111-119 | Every yielded piece is non-empty. |
| Anthropic.ExamineLines | src/lib/anthropic.ts:106-120 | The inner loop yields `Yields` of the lines, in order. |
| Anthropic.ReadStream | src/lib/anthropic.ts:97-121 | The read loop yields the events of all complete lines, in order. The buffer ends as the remainder of the whole stream. |
| Anthropic.StreamFraming | src/lib/anthropic.ts:98-121 | The lines examined are exactly the complete lines of the whole stream, each once and in order. Together with the leftover text they make up the stream. |
| Anthropic.UnterminatedLastLine | src/lib/anthropic.ts:100-104 | Whatever follows the last newline, a complete `data:` event included, stays in the buffer and is never yielded. |
| Anthropic.GenerateStream | src/lib/anthropic.ts:49-125 | Without a key nothing is sent. A non-ok reply throws with its status. Otherwise the pieces are those of `ReadStream` over the decoded chunks. |
| ChatRoute.Failure | src/app/api/chat/route.ts:120-130 | The answer is 503 exactly when the message contains one of the four connection substrings. Any other message gets 500 "Server error: <message>". |
| ChatRoute.ConnectionLikeNarrower | src/app/api/chat/route.ts:122-126 | Every error answered 503 is one the retry wrapper retries, but a "P1002" error gets 500. |
| ChatRoute.AsWrittenHistoryShape | src/app/api/chat/route.ts:53-56 | As written, the history holds at most 20 of the conversation's messages, in ascending creation order. |
| ChatRoute.AsWrittenHistoryOldest | src/app/api/chat/route.ts:53-56 | As written, the history keeps the 20 oldest messages. Past 20, some are left out, and each is at least as new as every one kept. |
| ChatRoute.HistoryShape | src/app/api/chat/route.ts:53-56 | The corrected history holds at most 20 of the conversation's messages, oldest first. |
| ChatRoute.HistoryNewest | src/app/api/chat/route.ts:55 | The corrected history keeps the newest: no message left out is newer than one kept. |
| ChatRoute.Prompted | src/app/api/chat/route.ts:88-92 | The history's messages with role and content unchanged, then the new message once, last. |
| ChatRoute.ChatNeedsFields | src/app/api/chat/route.ts:12-16 | Without a message or a session id the answer is 400, and nothing is looked up or stored. |
| ChatRoute.ChatbotChoice | src/app/api/chat/route.ts:21-39 | A request naming a chatbot is served whoever is signed in. One that names none needs a signed-in user (else 401) and uses that user's first chatbot. |
| ChatRoute.ChatbotMissing | src/app/api/chat/route.ts:41-43 | When no chatbot is found the answer is 404 and nothing is stored. |
| ChatRoute.AnsweredSpec | src/app/api/chat/route.ts:73-119 | The question is appended before the model is asked. The answer is stored exactly when storing the question, the model's generation (`Anthropic.Generated` on the history and the message) and storing the answer all succeed. The stored and returned answer is then the model's reply, with a 200. A failed question store stores nothing and answers with its error. A failed generation or answer store keeps only the question and answers with its error. |
| ChatRoute.ConversedSpec | src/app/api/chat/route.ts:45-112 | The conversation is the one for the chatbot and session, and a new one is opened only when none exists. A failed create stores nothing and answers with its error. Otherwise the stores and replies are those of `AnsweredSpec`: two messages are stored exactly when both stores and the generation succeed, and the stored and returned answer is the model's reply. |
| ChatRoute.AskedWith | src/app/api/chat/route.ts:85-101 | The model gets the chatbot's prompt (or the default) with an empty context, the stored history oldest first, and the new message once, last. |
| ChatRoute.ChatStore.Answer | src/app/api/chat/route.ts:73-112 | The stores leave the tables of `Answered`. |
| ChatRoute.ChatStore.Post | src/app/api/chat/route.ts:10-132 | The tables and response are those of `Chatted`. |
| ChatRoute.Preflight | src/app/api/chat/route.ts:134-142 | The preflight sends three CORS headers, the first allowing any origin. |
| RegisterRoute.LocalWithRetry | src/app/api/auth/register/route.ts:8-33 | At most 3 calls. Earlier calls failed with one of this file's three messages and were followed by a reconnect that succeeded. The outcome is the reconnect's rejection when the last call failed with one of those messages before the third call (lines 24-26), and otherwise the last call's. |
| RegisterRoute.RegisterRetryNarrower | src/app/api/auth/register/route.ts:16-19 | Every error this copy retries, the shared wrapper retries too. "ECONNRESET" is retried there but not here. |
| RegisterRoute.ResetNotRetried | src/app/api/auth/register/route.ts:16-29 | A first "ECONNRESET" makes this copy rethrow after one call. The shared wrapper calls again when its reconnect succeeds, and throws the reconnect's rejection otherwise. |
| RegisterRoute.WrappedOutcome | src/app/api/auth/register/route.ts:8-33 | A wrapped call yields its value, or fails with the message of one of its first three attempts or with the rejection of a reconnect after one of its first two. When no reconnect rejects, the message is an attempt's. |
| RegisterRoute.Failed | src/app/api/auth/register/route.ts:105-121 | Every thrown error becomes a 500 with the fixed text. The message is shown exactly in development or when it looks like a Prisma error. |
| RegisterRoute.RetriedErrorsShown | src/app/api/auth/register/route.ts:16-19 | In production, a connection error this file retries shows its message, except "closed the connection" alone. |
| RegisterRoute.ChecksFirst | src/app/api/auth/register/route.ts:37-59 | The checks run in order: no `DATABASE_URL` 503, unreadable body 500, missing email or password 400, short password 400. None touches a table, and the reply depends on neither the tables nor the faults. |
| RegisterRoute.TakenEmail | src/app/api/auth/register/route.ts:62-73 | A taken email creates no user or chatbot. The answer is 400 unless the lookup itself fails. |
| RegisterRoute.RegisterSpec | src/app/api/auth/register/route.ts:62-104 | Success happens exactly when the email is free and all three wrapped calls succeed. It adds one user with the hashed password, then one default chatbot owned by that user. A failure after the user's creation leaves the user without a chatbot. |
| RegisterRoute.Directory.Post | src/app/api/auth/register/route.ts:35-122 | The tables and response are those of `Register`. |

## Left out

- **Network, HTTP and JSON.** The HTTP exchange, JSON encoding and parsing, headers other than the CORS ones, and `TextDecoder` are left out. Decoded text, the parsed body fields and each SSE event's parsed content come in as values. A body that fails to parse is an `Err`.
- **Floating point.** Embedding vectors, the pgvector distance (an abstract integer key), and the admin report's `cost` sums and rounding are not modelled. The report's integer fields are.
- **Time.** Timers and sleeps are not modelled: the 100 ms pause between embedding batches, the one-second wait before a reconnect, and the five-minute `setInterval` (only the sweep's body is modelled). `Date.now()` and `new Date()` are parameters.
- **Concurrency.** The fire-and-forget `processKnowledge` of the upload handler is modelled as running after the handler returns, one file at a time, with no interleaving of the background tasks. `Promise.all` in `getQueueStats` is four reads of one table state.
- **Database.** Row ids, `createdAt` stamps and uniqueness are supplied by the caller, with no race between a lookup and the following create. Prisma's exact not-found message is a fixed constant. Ties in `orderBy: createdAt` keep table order. The order Postgres returns rows in for an unordered query is table order.
- **Retry.** The chat, reprocess and admin handlers see each `withRetry`-wrapped call only through its net outcome: the value, or the error `withRetry` ends with. `Retry` proves what that outcome can be.
- **String lengths.** Every length, slice and limit counts characters (Dafny `char`s), not JavaScript's UTF-16 code units. This covers the chunk windows of 1000 with overlap 200, the 8000-character embedding truncation, and the 75000 and 100000 content limits. For text outside the Basic Multilingual Plane, the source's cuts fall at other places than the model's.
- **pgvector ties.** Rows at equal distance keep table order in `Vectors.Ranked`. Postgres does not promise any order among ties in `ORDER BY embedding <=> q`.
- **Logging.** `console.log` and `console.error` are not modelled.
- **Unmodelled pieces.** `reader.read()` failures and `releaseLock` are not modelled. The upload handler's `formData()` and `arrayBuffer()` are not modelled either: the files arrive as a sequence of records.
- **bcrypt.** The register handler's `bcrypt.hash` is a parameter `hash`. Its cost factor 12 and its failures are not modelled.
- **Register edge cases.**
  - The "Unknown error" branch (line 106) for a thrown non-`Error` is not modelled, because every modelled failure is an `Error` with a message.
  - Password length counts characters, not UTF-16 code units.
  - A user created without a name stores `""` where the database would store null.
  - A new user's `isAdmin` is taken to be false, because prisma/schema.prisma is not part of this model.
- ChatRoute.Conversed: uses the corrected history (the newest 20 messages) rather than the oldest 20 the query as written returns. The as-written history is kept beside it and compared in the Findings below.
- Embeddings.ChunkText: adds an exit once a window reaches the end of the text, because the loop as written does not terminate. The as-written loop step is kept and compared in the Findings below.
- Embeddings.ChunkWindows: requires `0 < chunkSize` and `2 * overlap <= chunkSize`, so that every window moves `start` forward. Every caller uses the defaults 1000 and 200. Embeddings.ChunkText and Embeddings.ChunkStep carry the same requirement.
- DateUtils.FormatDistanceToNow: is the corrected bucketing. The as-written `AsWrittenFormatDistanceToNow` is kept beside it.

## Findings

| source | as written | input that shows it | evidently intended | confidence | as-written member | corrected member |
|---|---|---|---|---|---|---|
| src/lib/embeddings.ts:94-96 | After the window that reaches the end of the text, `start` becomes `length - overlap`, which is still below the length, so the loop never exits. | `chunkText("a")` with the default sizes: `start` goes 0, -199, -398, …, and the window "a" is pushed again on every pass. | Stop after the window that reaches the end of the text. | high (not executed) | Embeddings.AsWrittenNeverExits | Embeddings.ChunksShape |
| src/lib/date-utils.ts:25-36 | 28-29 days fall through the weeks test into months as `floor(days/30) = 0`. 360-364 days fall through the months test into years as `floor(days/365) = 0`. | 28 days ago prints "לפני 0 חודשים". 360 days ago prints "לפני 0 שנים". | Weeks until day 30 and months until day 365, so the label never shows 0. | high (not executed) | DateUtils.AsWrittenZeroMonths | DateUtils.BucketCorrected |
| src/app/api/chat/route.ts:53-56 | `orderBy createdAt asc` with `take: 20` selects the 20 oldest messages, although the comment says "Last 20 messages". | A conversation of 21 messages: the newest message is not sent to the model. | The newest 20 messages, oldest first. | high (not executed) | ChatRoute.AsWrittenHistoryOldest | ChatRoute.HistoryNewest |
