# CortexLayer support bot: a Dafny model of the retrieval and generation core

CortexLayer is a multi-tenant customer-support bot. A tenant uploads
documents or URLs. They are chunked, embedded and stored in the tenant's
FAISS index. A question, from the API or from WhatsApp, is embedded and
searched against that index. The grounded prompt built from the best chunks
is then answered by an LLM provider, and the usage is billed to the tenant.

This project models that core as pure Dafny functions over immutable data:

- **`VectorStore`** (`vectorstore.dfy`): the per-tenant index. It is a
  dimension plus the vectors in insertion order, with a parallel metadata list.
  - The store has three tiers: process cache, local files and remote object
    store, kept per file.
  - It models create, add (load-or-create, batch checks, append, save), save
    (four writes, then the cache), load (cache → mock → local → download)
    and the post-processing of the nearest-neighbour search.
  - The search itself is an oracle: a list of `(id, distance)` hits.
- **`Retriever`**: the blank-query guard, embedding and search failures
  degraded to no chunks, and the filter that keeps results with `text` and
  `metadata`.
- **`Prompt`**: the grounded prompt (context blocks in order, with their
  defaults) and the fallback prompt, as string functions.
- **`Generator`**: plan-aware provider dispatch with the single Groq → OpenAI
  fallback, the usage record and both cost formulas, over real arithmetic.
- **`Pipeline`**: the plan-to-preference mapping and `run_rag_pipeline`:
  - confidence from the best chunk;
  - citations of the first three chunks;
  - the escalation threshold;
  - every failure degraded to an empty retrieval or an apology.
- **`Embedder`**: `get_embeddings` (cost rule, local fallback) and
  `embed_and_index`, in two builds: as written (the un-awaited fallback and
  the in-place insert of the findings below) and corrected:
  - the empty-batch guard;
  - one metadata record per chunk;
  - one `add_to_index` call;
  - billing only when the cost is positive.
- **`FileUtils`**: the size check, `os.path.splitext`-based extension
  extraction and filename sanitising.
- **`Overage`** and **`Grace`**: the monthly overage/hard-cap decision and
  the grace-period sweep, which is also written as a loop with its
  invariants.
- **`WhatsApp`**: webhook payload filtering and the handler's ordered trace
  of effects (session, contact lookup, limit check, pipeline, logs, commit,
  reply, rollback, close).
- **`Upload`**: the two ingestion endpoints. This covers their check order,
  the document row's PROCESSING → READY/FAILED lifecycle and their error
  codes.

Everything the code obtains from outside is a parameter:

- providers' answers (`Some(response)`, or `None` when the call raises);
- the index oracle's hits;
- storage success flags;
- database lookups;
- whether each plan-limit check returns or raises;
- extractor, chunker and scraper outputs;
- the clock;
- float formatting.

The shared modules are `Wrappers` (`Option`, `Result`), `PyValues` (Python
values, `dict.get`, truthiness, `float()`, `str.strip`, `str()`) and
`Accounts` (the client row and model names).

## Model

| member | source | states |
|---|---|---|
| Accounts.DisableClient | backend/app/services/grace.py:25-26 | Switching a client off sets status DISABLED and the disabled flag, and keeps its id, plan and timestamp. |
| FileUtils.ValidateFileSizeWholeMb | backend/app/utils/file_utils.py:17-18 | A file passes exactly when its size, rounded up to whole MiB, is at most the limit. |
| FileUtils.ValidateFileSizeExamples | backend/tests/test_file_utils.py:10-13 | 2 MiB fits a 5 MB limit; 6 MiB does not. |
| FileUtils.SanitizeFilename | backend/app/utils/file_utils.py:33-43 | Length is min(len, 255). Every output character is in `[A-Za-z0-9._-]`. Safe characters keep their position and every other character becomes `_`. |
| FileUtils.SanitizeFilenameIdempotent | backend/app/utils/file_utils.py:42-43 | Sanitising twice equals sanitising once. |
| FileUtils.SanitizeFilenameNoSeparators | backend/app/utils/file_utils.py:42 | No `/` or space survives. |
| FileUtils.SanitizeFilenameExample | backend/tests/test_file_utils.py:22-24 | "hello world!.pdf" becomes "hello_world_.pdf". |
| FileUtils.SplitExtRoundTrip | backend/app/utils/file_utils.py:30 | root + ext rebuilds the path. A non-empty extension is a dot followed by no dot and no separator. |
| FileUtils.GetFileExtension | backend/app/utils/file_utils.py:21-30 | The result is empty or starts with a dot. It is the lower-cased tail of the name, with no further dot or `/`. |
| FileUtils.GetFileExtensionNonEmpty | backend/app/utils/file_utils.py:30 | The extension is non-empty iff the last dot follows the last `/` and some non-dot character of the base name precedes it, so leading dots do not count. |
| FileUtils.GetFileExtensionExamples | backend/tests/test_file_utils.py:16-19 | "document.pdf" → ".pdf", "photo.JPG" → ".jpg", ".bashrc" → "", "archive.d/README" → "". |
| PyValues.Strip | backend/app/services/whatsapp_service.py:29 | `strip()` keeps a slice of the text with only whitespace cut off before and after it. That slice is empty iff the text is all whitespace, and a non-empty one neither starts nor ends with whitespace. |
| VectorStore.CreateIndex | backend/app/core/vectorstore.py:28-30 | A new index has the requested dimension and no vectors. |
| VectorStore.EmptySnapshot | backend/app/core/vectorstore.py:41-43 | The fallback pair is a 1536-wide empty index with empty metadata, and it is aligned. |
| VectorStore.Save | backend/app/core/vectorstore.py:62-79 | Save succeeds iff all four writes do. Only then does the cache hold the pair. A failure leaves the cache unchanged, and a failure at step k leaves the later tiers untouched. Other tenants are untouched. |
| VectorStore.Download | backend/app/core/vectorstore.py:101-112 | The fetch succeeds iff both blobs exist remotely and download. It then copies them to the local tier and never touches the cache. |
| VectorStore.Load | backend/app/core/vectorstore.py:82-119 | Tier order: a cache hit returns with the store unchanged; mock mode caches an empty index; local files are cached. Otherwise both blobs are downloaded first: the load succeeds iff both fetches do, and then returns the remote pair and leaves it in the local files and the cache. A failure re-raises without caching. |
| VectorStore.LoadKeepsCacheAligned | backend/app/core/vectorstore.py:86-119 | Loading from aligned tiers keeps every cached pair aligned. |
| VectorStore.SaveThenLoad | backend/app/core/vectorstore.py:79 | After a successful save, load returns exactly the saved pair from the cache, whatever the fetches would do. |
| VectorStore.SaveThenLoadAfterRestart | backend/app/core/vectorstore.py:114-118 | With the cache emptied, the saved pair still loads from the local files. |
| VectorStore.CheckBatch | backend/app/core/vectorstore.py:45-49 | A batch is accepted iff it is non-empty, rectangular and as wide as the index. Then every row has the index's width. |
| VectorStore.Base | backend/app/core/vectorstore.py:39-43 | When loading raises, the add starts from the empty 1536-wide pair. |
| VectorStore.Appended | backend/app/core/vectorstore.py:51-52 | The old vectors are followed by the batch and the old metadata by the new records. The result is aligned if the input and the batch are. |
| VectorStore.Add | backend/app/core/vectorstore.py:33-59 | Succeeds iff the batch passes the checks and the save succeeds. On success the cache holds base ++ batch. A refused batch leaves the store exactly as the load left it. |
| VectorStore.AddAppends | backend/app/core/vectorstore.py:47-52 | After a successful add, metadata = existing ++ new, the vector count grows by the batch size, and alignment is kept. |
| VectorStore.AddDimensionMismatch | backend/app/core/vectorstore.py:47-49 | A batch of the wrong width raises DimensionMismatch with nothing appended or saved. |
| VectorStore.AddAfterFailedLoad | backend/app/core/vectorstore.py:39-43 | After a failed load, every tier holds just the new batch in a 1536-wide index. Earlier remote contents are replaced, not merged. |
| VectorStore.AddKeepsCacheAligned | backend/app/core/vectorstore.py:51-54 | Under every pattern of storage failures, the corrected add keeps every cached pair aligned. |
| VectorStore.AddAsWritten | backend/app/core/vectorstore.py:51 | As written: when the save fails after a cached load, the cache holds the grown index with the old metadata. When the save succeeds, it behaves like `Add`. |
| VectorStore.AddAsWrittenBreaksAlignment | backend/app/core/vectorstore.py:67-79 | As written, a failed save on an aligned cached tenant leaves the cache misaligned. |
| VectorStore.AddAsWrittenMisattributes | backend/app/core/vectorstore.py:141 | A concrete run: after a failed first batch, a second batch's metadata sits at position 0 while vector 0 is the failed batch's. |
| VectorStore.Score | backend/app/core/vectorstore.py:145 | `1/(1+d)` lies in (0, 1], and equals 1 iff d = 0. |
| VectorStore.ScoreNonIncreasing | backend/app/core/vectorstore.py:145 | A larger distance never scores higher. |
| VectorStore.Annotate | backend/app/core/vectorstore.py:144-146 | A result is the metadata record with `score` set, and every other key is copied. |
| VectorStore.FilterHits | backend/app/core/vectorstore.py:139-147 | At most one result per hit, exactly one when all hits are in range. Each result annotates an in-range hit. |
| VectorStore.FilterHitsAppend | backend/app/core/vectorstore.py:140-146 | The filter distributes over concatenation, so oracle order is kept. |
| VectorStore.FilterHitsDropsOutOfRange | backend/app/core/vectorstore.py:141-142 | `-1` padding and ids past the metadata contribute nothing. |
| VectorStore.Search | backend/app/core/vectorstore.py:123-149 | A failed load raises. A query of the wrong width raises DimensionMismatch. A successful load with a query of the index's width always succeeds, with the filtered hits: at most one per hit, and at most topK when the oracle returns at most topK hits. |
| VectorStore.SearchEmptyTenant | backend/app/core/vectorstore.py:89-95 | An empty tenant, such as mock mode, returns no results whatever the oracle pads with. |
| Retriever.ToChunk | backend/app/rag/retriever.py:70-74 | A chunk carries the item's text and metadata, and its `float` score, defaulting to 0.0. |
| Retriever.Clean | backend/app/rag/retriever.py:65-74 | Raises iff some usable item has an unconvertible score. Otherwise it is at most as long as the input, each chunk comes from a usable item, and it has full length when all items are usable. |
| Retriever.CleanAppend | backend/app/rag/retriever.py:66-74 | Cleaning distributes over concatenation, so the filter keeps search order. |
| Retriever.SearchResultsClean | backend/app/rag/retriever.py:73 | Search results always carry a float score, so the post-processing never raises on them. |
| Retriever.Retrieve | backend/app/rag/retriever.py:10-80 | A blank query gives [] with no embedding. A failed embedding gives [] with no search. A failed search gives []. A search runs iff the query is non-blank and an embedding came back. Otherwise the result is the cleaned search results, never more than the hits, and never an exception. |
| Retriever.RetrieveWidthMismatchIsEmpty | backend/app/rag/retriever.py:54-62 | A query vector whose width differs from the index's retrieves nothing. |
| Retriever.RetrieveMockWidthMismatch | backend/app/rag/retriever.py:36-62 | In mock mode, an uncached tenant has a 1536-wide index, so a query embedding of another width retrieves nothing. |
| Retriever.RetrievedScoresInUnitInterval | backend/app/rag/retriever.py:65-80 | Every retrieved chunk's score lies in (0, 1]. |
| Prompt.Blocks | backend/app/rag/prompt.py:9-14 | One block per chunk, in order, the i-th numbered from its position. |
| Prompt.ContextAppend | backend/app/rag/prompt.py:8-14 | The context of a ++ b is context(a) followed by context(b), with b's default ids continuing from |a|. |
| Prompt.ContextOfOne | backend/app/rag/prompt.py:9-14 | A single chunk's context is exactly its block. |
| Prompt.BlockDefaults | backend/app/rag/prompt.py:10-12 | Without metadata keys, the block reads `[Document: unknown, Chunk: <position>]`. |
| Prompt.BuildRagPrompt | backend/app/rag/prompt.py:6-36 | Defined iff every metadata is a dict. The prompt is the preamble, the context, the fixed rules, the query verbatim and "\n\nANSWER:", in that order, and each part is recovered by slicing. |
| Prompt.RagPromptNoChunks | backend/app/rag/prompt.py:16-34 | With no chunks the context is empty, but the rules and the query remain. |
| Prompt.BuildFallbackPrompt | backend/app/rag/prompt.py:39-52 | The query appears verbatim, unescaped, between two double quotes, after the fixed opening and before the fixed tail. |
| Prompt.FallbackPromptInjective | backend/app/rag/prompt.py:41-42 | Distinct queries give distinct fallback prompts. |
| Generator.NoUsage | backend/app/rag/generator.py:42-47 | The zero usage record: model "none", zero tokens, zero cost. |
| Generator.CostProperties | backend/app/rag/generator.py:78-85 | Cost is ≥ 0 and is 0 iff both counts are 0. It is monotone in both counts. |
| Generator.GroqCost | backend/app/rag/generator.py:77-80 | The Groq price of a response is ≥ 0, and is 0 iff both counts are 0. |
| Generator.OpenAiCost | backend/app/rag/generator.py:81-84 | The OpenAI price of a response is ≥ 0, and is 0 iff both counts are 0. |
| Generator.CostRates | backend/app/rag/generator.py:77-84 | A million tokens cost $0.27 on Groq, read or written alike. On OpenAI they cost $0.15 to read and $0.60 to write. The cost of two batches is the sum of their costs. |
| Generator.UsageOf | backend/app/rag/generator.py:74-84 | The usage names the producing model and copies both token counts. Its cost is the cost rule applied to that model and those counts: ≥ 0, and 0 iff both counts are 0. |
| Generator.GenerateAnswer | backend/app/rag/generator.py:36-91 | "groq" calls Groq only. "groq_with_fallback" calls OpenAI exactly once, only after Groq fails. Every other preference calls OpenAI only. It succeeds iff the last provider called answered, and model_used names that provider. |
| Generator.CheapOnlyNeverFallsBack | backend/app/rag/generator.py:56-62 | Under "groq", a Groq failure raises without calling OpenAI. |
| Generator.FallbackAnswersFromOpenAi | backend/app/rag/generator.py:56-65 | Under fallback, the answer is OpenAI's iff Groq failed and OpenAI answered. |
| Pipeline.SelectModelPreference | backend/app/rag/pipeline.py:16-24 | starter → groq, growth → groq_with_fallback, scale → openai_gpt4, any other plan → groq. |
| Pipeline.PlanProviders | backend/app/rag/pipeline.py:16-24 | Only scale starts with OpenAI. Only growth with a failed Groq calls both providers. Every other plan calls Groq alone. |
| Pipeline.BlankQueryResult | backend/app/rag/pipeline.py:38-53 | The canned answer, no citations, confidence 0, latency 0, zero usage, no escalation. |
| Pipeline.Confidence | backend/app/rag/pipeline.py:67-75 | Confidence is min(first score, 1.0), or 0.0 with no chunks. |
| Pipeline.CitationOf | backend/app/rag/pipeline.py:96-98 | The document defaults to "unknown" and the chunk index to 0. The relevance is the rounded score. |
| Pipeline.Citations | backend/app/rag/pipeline.py:94-101 | min(len, 3) citations, the i-th citing chunk i. |
| Pipeline.EscalationReason | backend/app/rag/pipeline.py:105-111 | Present iff confidence < 0.3 (strict), reading "Low confidence (" + formatted confidence + ")". |
| Pipeline.RunPipeline | backend/app/rag/pipeline.py:27-121 | A blank query gives the canned result with no retrieval or calls. A retrieval failure counts as no chunks. The prompt is grounded with chunks and the fallback without. The calls follow the plan. Citations, rounded confidence, escalation iff unrounded confidence < 0.3, and the reason iff escalating; the reason is the two-decimal message built from the unrounded confidence. Non-dict metadata raises. |
| Pipeline.EmptyRetrievalEscalates | backend/app/rag/pipeline.py:67-111 | With nothing retrieved: fallback prompt, no citations, confidence 0, escalated with its reason. |
| Pipeline.GenerationFailureApologises | backend/app/rag/pipeline.py:79-92 | A generation failure yields the apology and zero usage, and the pipeline does not raise. |
| Pipeline.GenerationSuccessAnswers | backend/app/rag/pipeline.py:79-83 | On success, the answer and usage are the provider's. |
| Pipeline.ConfidenceIsTopScore | backend/app/rag/pipeline.py:67-72 | With chunks, confidence is the first chunk's score itself, in (0, 1]. |
| Pipeline.EscalationFollowsTopScore | backend/app/rag/pipeline.py:105 | Escalation happens iff nothing was retrieved or the top score is below 0.3. |
| Embedder.EmbeddingCost | backend/app/ingestion/embedder.py:35-36 | Cost is non-negative, and zero iff there are no tokens. |
| Embedder.EmbeddingCostMonotone | backend/app/ingestion/embedder.py:35-36 | More tokens never cost less. A million tokens cost $0.02. |
| Embedder.GetEmbeddingsAsWritten | backend/app/ingestion/embedder.py:44-55 | As written, an OpenAI failure always fails the call, whatever the local model would answer. |
| Embedder.GetEmbeddings | backend/app/ingestion/embedder.py:19-55 | The OpenAI answer is used when there is one. Otherwise the local vectors are used at cost 0 with the local model's name. It fails iff both fail. |
| Embedder.FallbackNotAwaitedDiscards | backend/app/ingestion/embedder.py:49 | The un-awaited fallback never helps. The awaited one returns the local vectors. |
| Embedder.PaidEmbeddingIsOpenAi | backend/app/ingestion/embedder.py:35-55 | A positive cost means OpenAI answered with tokens and is named as the model. |
| Embedder.ChunkRecord | backend/app/ingestion/embedder.py:77-85 | Exactly the keys text, metadata (defaulting to {}), document_id and chunk_index, with the given values. |
| Embedder.MetadataRecords | backend/app/ingestion/embedder.py:77-85 | One record per chunk, in order, each carrying its position. |
| Embedder.EmbedAndIndex | backend/app/ingestion/embedder.py:58-102 | An empty batch gives zero usage and calls nothing. A missing text raises before any call. A failed embedding step raises with the store untouched. The batch is indexed iff it is non-empty, every text is present and the embedding step succeeds. It is then added once; the run succeeds iff the add does, and a failed add is reported as that storage error. Usage is returned unchanged and billed iff the cost is positive. `AsWritten` runs the un-awaited fallback and the aliasing insert; `Corrected` runs the awaited fallback and the copying insert. |
| Embedder.IngestAsWrittenNeedsOpenAi | backend/app/ingestion/embedder.py:44-55 | As written, a batch whose OpenAI call raises fails with the store untouched, whatever the local model answers. Corrected, the same batch reaches the index. |
| Embedder.BuildsAgreeOnHappyPath | backend/app/ingestion/embedder.py:58-102 | When OpenAI answers and the save completes, the as-written and corrected builds produce the same run. |
| Embedder.IngestAppendsRecords | backend/app/ingestion/embedder.py:75-91 | In either build, a successful ingest appends one record per chunk to the tenant's metadata, and keeps alignment when one vector comes back per chunk. |
| Embedder.IngestCallsProviderUnlessEmpty | backend/app/ingestion/embedder.py:70-75 | The provider is called iff the batch is non-empty. |
| Overage.TruncDiv2 | backend/app/services/overage.py:41 | Python `int()` of a half: truncation toward zero, for both signs. |
| Overage.HardCap | backend/app/services/overage.py:41 | The cap is 1.5 × limit truncated toward zero, and at least the limit for a non-negative limit. |
| Overage.HardCapExamples | backend/app/services/overage.py:41 | 100 → 150, 5 → 7, -5 → -7, 0 → 0. |
| Overage.CheckAndBillOverages | backend/app/services/overage.py:15-69 | An invoice is attempted iff count > limit, for count − limit ≥ 1 queries. The client is disabled iff count > hard cap and is otherwise unchanged. |
| Overage.BillingFailureKeepsCapDecision | backend/app/services/overage.py:47-64 | A billing failure changes neither the cap decision nor the attempt. |
| Overage.DisableImpliesInvoice | backend/app/services/overage.py:41-62 | Being switched off always comes with an invoice attempt. |
| Overage.OverageBoundaries | backend/app/services/overage.py:43-62 | At the limit nothing happens. One query over the limit is invoiced but not disabled. |
| Overage.MissingCountIsZero | backend/app/services/overage.py:39 | A NULL count behaves as 0. |
| Grace.Enforce | backend/app/services/grace.py:24-26 | An expired client is disabled and any other client is unchanged. The result is never expired. |
| Grace.EnforceGracePeriod | backend/app/services/grace.py:11-27 | The sweep maps `Enforce` over the table, position by position. |
| Grace.RunGracePeriod | backend/app/services/grace.py:23-27 | The loop computes the same table as the sweep. It commits once per client it disables, which is the number of rows the sweep changes. |
| Grace.CommitsCountChanges | backend/app/services/grace.py:23-27 | The number of commits equals the number of positions at which the table before and after the sweep differ. |
| Grace.GraceSweepChangesOnlyExpired | backend/app/services/grace.py:15-26 | A row changes iff it is in GRACE_PERIOD with `updated_at` before the cutoff. It is then disabled and keeps its id. |
| Grace.GraceSweepIdempotent | backend/app/services/grace.py:13-26 | A second sweep at the same time changes nothing. |
| Grace.GraceSweepMonotone | backend/app/services/grace.py:13-24 | A client disabled at `now` is disabled by every later sweep. |
| Grace.GraceBoundary | backend/app/services/grace.py:13-24 | Exactly seven days is not expired; one microsecond more is. |
| WhatsApp.BodyText | backend/app/services/whatsapp_service.py:29 | A missing `text` gives "". A dict `text` with no `body` gives "". A string body gives that body stripped. A `text` that is not a dict, or a body that is not a string, raises. |
| WhatsApp.ParsePayload | backend/app/services/whatsapp_service.py:20-32 | Missing or empty `messages` are ignored. A message is answered iff `messages[0]` is a dict of type "text" whose stripped body is non-empty; the text is that body, never blank. Another type is ignored, and so is an empty stripped body. The call raises iff a truthy `messages` has no dict first, or a text message has a `text`/`body` of the wrong kind. |
| WhatsApp.BlankBodyIgnored | backend/app/services/whatsapp_service.py:29-32 | A text message whose body is empty or all whitespace is ignored. |
| WhatsApp.StripIdempotent | backend/app/services/whatsapp_service.py:29-31 | A non-empty stripped body is not blank and strips to itself. |
| WhatsApp.Answering | backend/app/services/whatsapp_service.py:55-101 | The limit check comes first. A rollback happens iff the limit check raises, or the pipeline, the commit or the send fails. A check that returns, whatever it returns, lets the message through. |
| WhatsApp.Handle | backend/app/services/whatsapp_service.py:34-104 | Ignored or raised payloads have no effect. A message opens a session, looks up the sender and closes the session exactly once, last. A rollback happens iff some step raised. |
| WhatsApp.ProcessWhatsAppMessage | backend/app/services/whatsapp_service.py:18-33 | A payload without `messages` has no effect, and the handler raises only when the payload filtering does, never after the session opens. |
| WhatsApp.PipelineOnlyAfterLimitCheck | backend/app/services/whatsapp_service.py:56-62 | The pipeline runs only for a known sender that passed the limit check just before. It gets the stripped, non-blank text and the plan. |
| WhatsApp.ReplyOnlyAfterCommit | backend/app/services/whatsapp_service.py:91-97 | The reply is sent only right after the commit, and carries the pipeline's answer to the sender. |
| WhatsApp.UnknownSenderIsSilent | backend/app/services/whatsapp_service.py:46-51 | An unknown number opens, looks up and closes, with no limit check, pipeline or reply. |
| WhatsApp.StripHello | backend/app/services/whatsapp_service.py:29 | "  Hello " strips to "Hello". |
| WhatsApp.SingleTextMessageParses | backend/app/services/whatsapp_service.py:20-32 | A single non-blank text message parses to its sender and stripped body. |
| WhatsApp.HelloParses | backend/tests/test_whatsapp_service.py:56-64 | The test's payload is a message "Hello" from 1234567890. |
| WhatsApp.MessageReachesPipeline | backend/app/services/whatsapp_service.py:58-62 | A known sender within its limit has the pipeline call with the text and plan as the fourth effect. |
| WhatsApp.TextMessageExample | backend/tests/test_whatsapp_service.py:56-66 | End to end, the test payload reaches the pipeline with "Hello" on the tenant's plan. |
| Upload.AllowedFilenameExamples | backend/app/routes/upload.py:39-43 | ".pdf" and ".md" are accepted. "report.PDF" and ".png" are refused, because the check is case-sensitive. |
| Upload.Ingest | backend/app/routes/upload.py:85-121 | In the chosen build, the row goes PROCESSING → READY on success, or FAILED with a 500 when the ingest or the usage log raises. Usage is logged iff the ingest succeeded. |
| Upload.UploadDocument | backend/app/routes/upload.py:29-123 | Check order: 403 disabled, then 400 extension, document limit, size, 500 extraction, chunk limit. A limit check stops the request only by raising. A row exists iff all pass. `source_type` is pdf iff the name ends ".pdf", else text. Size and chunk count are recorded. An accepted upload is exactly the ingestion of that row, failing with "Document upload failed". READY iff the result is Ok. |
| Upload.RefusedUploadLeavesNoTrace | backend/app/routes/upload.py:36-83 | A refused upload creates no row, ingests nothing and logs nothing. |
| Upload.DisabledFirst | backend/app/routes/upload.py:36-37 | A disabled client gets the same 403 whatever the file or the world. |
| Upload.UploadIndexesChunks | backend/app/routes/upload.py:85-101 | A successful upload ends READY with one metadata record per chunk appended under the document's id. |
| Upload.UploadWithoutOpenAi | backend/app/routes/upload.py:85-121 | An accepted upload whose OpenAI call raises: as written it ends FAILED with a 500, nothing indexed and nothing logged. Corrected, it ends READY when the local vectors fit the index and the save and the log succeed. |
| Upload.Prefix50 | backend/app/routes/upload.py:156 | `url[:50]` is the prefix of length min(len, 50). |
| Upload.UploadUrlAsWritten | backend/app/routes/upload.py:133-145 | As written, every request past the first two checks fails with "URL scraping failed". Nothing is stored. |
| Upload.UploadUrl | backend/app/routes/upload.py:126-205 | Check order: 403, document limit, scrape, chunk limit. The row is `url`-typed with the source URL and the text length. It is named by the title, else `url[:50]`. An accepted URL is exactly the ingestion of that row, failing with "URL upload failed". PROCESSING → READY/FAILED. |
| Upload.UrlDocumentNamedByUrl | backend/app/ingestion/url_scraper.py:87-90 | The scraper's metadata holds only the URL, so the row is always named `url[:50]`. |
| Upload.UrlScrapingNeverAwaited | backend/app/routes/upload.py:138-145 | As written the request always fails; with the scraper awaited, the same request succeeds. |

## Left out

- FAISS's HNSW graph and its recall. `index.search` is an oracle returning
  `(id, distance)` hits, possibly padded with `-1`.
- VectorStore.Search: promises at most `topK` results only when the oracle
  returns at most `topK` hits. That bound is FAISS's contract and is not
  modelled.
- Pickle and FAISS serialisation, the `/tmp` paths, `os.path.exists` and
  S3. These are per-tenant maps with a success flag per write or fetch.
  Whether a local file exists is whether its map has the tenant.
- The network providers (Groq, OpenAI, the local SentenceTransformer model,
  httpx/trafilatura, the WhatsApp send API) are inputs. So are their
  `max_tokens` and `temperature` settings, which are recorded but not
  interpreted.
- Floating point. Scores and costs are reals. `round(x, 3)`, `f"{x:.2f}"`
  and `str()` of floats, lists and dicts are uninterpreted function
  parameters. The Stripe amount `int(overage_cost * 100)` is not modelled.
- PyValues.ToFloat: `float()` of a numeric string is not parsed and counts
  as raising. Search results always carry float scores, so retrieval never
  meets one.
- Prompt.BuildRagPrompt: chunks always carry a text, as the retriever
  produces them, so the `chunk.get("text", "")` default is not modelled.
- Timing and latency (`time.time`), `asyncio.to_thread`, and concurrent
  access to the index cache.
- The database. Queries, sessions, commits and rows become inputs or
  effects. The plan-limit checks (`usage_limits`: document, size, chunk and
  WhatsApp limits) are each a flag saying whether the check returns or
  raises. Their exceptions and status codes are not modelled. So are the chunker, the text extractors, the
  UUID, `log_usage`, the plan limits table and the month's usage
  aggregate.
- Grace.EnforceGracePeriod: the commit after each disabled client may bump
  `updated_at` in the database. The model keeps the timestamp, so only the
  sweep's own decision is stated.
- Logging, settings, schemas, the scheduler and the query route are
  plumbing with no decision logic.
- WhatsApp.Answering: the handler discards what `check_whatsapp_limit`
  returns (whatsapp_service.py:56), so the model stops a message only when
  the check raises. `usage_limits` is not part of this model. One test
  (backend/tests/test_whatsapp_limits.py:24-30) shows the check returning `False`
  for a tenant over its limit; if that is how it signals, such a tenant
  still reaches the pipeline, as the model's "returns" case says.
- Upload.UploadDocument: the same holds for `check_document_limit`,
  `check_file_size` and `check_chunk_limit` (upload.py:45, 50, 68), and
  for Upload.UploadUrl (upload.py:136, 149). A check that reports a breach
  by returning `False` lets the upload through.
- FileUtils.GetFileExtension: lower-cases ASCII letters only. Python's
  `str.lower()` is full Unicode and can change length (`"İ".lower()` has
  two characters), so for extensions with non-ASCII capitals the length
  bound and the character-wise clause do not describe Python.
- Embedder.GetEmbeddings: the local model catches its own encoding
  failure and returns no vectors with dimension 0. `None` for the local
  answer stands for an exception escaping it anyway. The caller files the
  returned dimension under `tokens`, and the model keeps that.
- Embedder.EmbedAndIndex: billing (`log_embedding_usage`, embedder.py:93-100)
  is treated as never failing. In Python its failure raises after the
  batch is already in the store, so the upload ends FAILED with the
  vectors kept. The model has no such run.
- WhatsApp.Handle: an exception raised by `close()` in the `finally` block
  is not modelled.

## Findings

| source | as written | input that shows it | evidently intended | confidence | as-written member | corrected member |
|---|---|---|---|---|---|---|
| backend/app/core/vectorstore.py:51 | `index.add` grows the cached index object in place. The cache's metadata is only replaced after all four writes of `save_index` succeed. | A cached tenant with 0 vectors. Add one vector whose first local write fails, then add another batch successfully. The cache and files then hold two vectors and one metadata record, and the record sits at position 0 next to the failed batch's vector. | Nothing reaches the cache unless the save completes, so every cached pair stays aligned. | not executed | VectorStore.AddAsWritten | VectorStore.Add |
| backend/app/ingestion/embedder.py:49 | The fallback calls the async local `get_embeddings` without `await`. Unpacking the coroutine into two names raises TypeError. | Any batch for which the OpenAI call raises, whatever the local model would return. | The local model's vectors are used at cost 0. | not executed | Embedder.GetEmbeddingsAsWritten | Embedder.GetEmbeddings |
| backend/app/routes/upload.py:139 | `scrape_url` is async and is called without `await`. Unpacking the coroutine raises TypeError, which becomes a 500 "URL scraping failed". | Any URL from an enabled tenant within its document limit. | The page is scraped and ingested like a file. | not executed | Upload.UploadUrlAsWritten | Upload.UploadUrl |
