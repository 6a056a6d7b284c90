/** The two ingestion endpoints: a file upload and a URL. Each runs its
    acceptance checks in a fixed order, creates the document row as
    PROCESSING, ingests the chunks, and marks the row READY or FAILED. The
    plan-limit checks, the text extractors, the chunker, the scraper, the
    usage logger and the document id are parameters. */
module Upload {
  import opened Wrappers
  import opened PyValues
  import opened Accounts
  import opened VectorStore
  import opened Embedder

  /** `DocumentStatus`. */
  datatype DocumentStatus = Processing | Ready | Failed

  /** The plan-limit checks. The endpoints discard what a check returns,
      so a check stops a request only by raising; which exception it
      raises, and with which status code, is not part of this model. */
  datatype LimitCheck = DocumentLimit | FileSizeLimit | ChunkLimit

  /** Why a request is refused. */
  datatype UploadError =
    | HttpError(status: int, detail: string)
    | LimitRejected(check: LimitCheck)

  /** The document row: its fields, and every status it was committed
      with, in order. */
  datatype Document = Document(
    id: string,
    clientId: string,
    filename: Value,
    sourceType: string,
    sourceUrl: Option<string>,
    fileSizeBytes: int,
    chunkCount: int,
    statuses: seq<DocumentStatus>)

  /** The outside world of one request: whether each plan-limit check
      returns rather than raises (what it returns, even `False`, is
      ignored), the text the extractor (or scraper) produces, the chunks
      of that text, the fresh document id, the embedding providers, the
      storage faults and whether `log_usage` returns. */
  datatype UploadWorld = UploadWorld(
    documentCheckReturns: bool,
    sizeCheckReturns: bool,
    chunks: seq<Record>,
    chunkCheckReturns: bool,
    documentId: string,
    openai: Option<EmbeddingResponse>,
    local: Option<LocalEmbedding>,
    lio: LoadIo,
    sio: SaveIo,
    logOk: bool)

  /** A request's outcome: the store after it, the document or the error,
      the document row as it is left (if one was created) and the usage
      passed to `log_usage` (if it was reached). */
  datatype UploadRun = UploadRun(
    store: Store,
    result: Result<Document, UploadError>,
    document: Option<Document>,
    usageLogged: Option<EmbedUsage>)

  function EndsWith(s: string, suffix: string): bool {
    |suffix| <= |s| && s[|s| - |suffix|..] == suffix
  }

  /** `filename.endswith((".pdf", ".txt", ".md"))`: case-sensitive. */
  predicate AllowedFilename(name: string) {
    EndsWith(name, ".pdf") || EndsWith(name, ".txt") || EndsWith(name, ".md")
  }

  /** The extension check is case-sensitive: "report.PDF" is refused,
      although its lower-cased extension is ".pdf". */
  lemma AllowedFilenameExamples()
    ensures AllowedFilename("report.pdf") && AllowedFilename("notes.md")
    ensures !AllowedFilename("report.PDF") && !AllowedFilename("image.png")
  {
    assert "report.pdf"[6..] == ".pdf";
    assert "notes.md"[5..] == ".md";
    assert "report.PDF"[6..] != ".pdf" by { assert "report.PDF"[6..][1] == 'P'; }
    assert "report.PDF"[6..] != ".txt" by { assert "report.PDF"[6..][1] == 'P'; }
    assert "report.PDF"[7..] != ".md" by { assert "report.PDF"[7..][0] == 'P'; }
    assert "image.png"[5..] != ".pdf" by { assert "image.png"[5..][1] == 'p'; }
    assert "image.png"[5..] != ".txt" by { assert "image.png"[5..][1] == 'p'; }
    assert "image.png"[6..] != ".md" by { assert "image.png"[6..][0] == 'p'; }
  }

  /** The tail shared by both endpoints once the checks pass: create the
      row as PROCESSING, ingest, log the usage, and mark the row READY, or
      FAILED with a 500 when the ingest or the logging raises. */
  function Ingest(b: Build, st: Store, client: Client, doc: Document, failDetail: string, w: UploadWorld)
    : (r: UploadRun)
    requires doc.statuses == [Processing]
    ensures r.document.Some? && |r.document.value.statuses| == 2 && r.document.value.statuses[0] == Processing
    ensures r.document.value == doc.(statuses := r.document.value.statuses)
    ensures var run := EmbedAndIndex(b, st, client.id, w.chunks, doc.id, w.openai, w.local, w.lio, w.sio);
      && r.store == run.store
      && (r.usageLogged.Some? <==> run.result.Ok?)
      && (r.usageLogged.Some? ==> r.usageLogged.value == run.result.value)
      && (r.result.Ok? <==> run.result.Ok? && w.logOk)
    ensures r.result.Ok? ==> r.result.value == r.document.value && r.document.value.statuses[1] == Ready
    ensures r.result.Err? ==> r.result.error == HttpError(500, failDetail) && r.document.value.statuses[1] == Failed
  {
    var run := EmbedAndIndex(b, st, client.id, w.chunks, doc.id, w.openai, w.local, w.lio, w.sio);
    if run.result.Err? then
      UploadRun(run.store, Err(HttpError(500, failDetail)), Some(doc.(statuses := [Processing, Failed])), None)
    else if !w.logOk then
      UploadRun(run.store, Err(HttpError(500, failDetail)), Some(doc.(statuses := [Processing, Failed])),
                Some(run.result.value))
    else
      var ready := doc.(statuses := [Processing, Ready]);
      UploadRun(run.store, Ok(ready), Some(ready), Some(run.result.value))
  }

  /** `upload_document`. `fileSize` is the length of the uploaded bytes
      and `extracted` the extractor's text (`None` when it raises). */
  function UploadDocument(b: Build, st: Store, client: Client, filename: string, fileSize: nat,
                          extracted: Option<string>, w: UploadWorld): (r: UploadRun)
    ensures client.isDisabled ==> r == UploadRun(st, Err(HttpError(403, "Account disabled")), None, None)
    ensures !client.isDisabled && !AllowedFilename(filename) ==>
      r == UploadRun(st, Err(HttpError(400, "Only PDF, TXT, and MD files are allowed")), None, None)
    ensures !client.isDisabled && AllowedFilename(filename) && !w.documentCheckReturns ==>
      r == UploadRun(st, Err(LimitRejected(DocumentLimit)), None, None)
    ensures !client.isDisabled && AllowedFilename(filename) && w.documentCheckReturns && !w.sizeCheckReturns ==>
      r == UploadRun(st, Err(LimitRejected(FileSizeLimit)), None, None)
    ensures !client.isDisabled && AllowedFilename(filename) && w.documentCheckReturns && w.sizeCheckReturns && extracted.None? ==>
      r == UploadRun(st, Err(HttpError(500, "Text extraction failed")), None, None)
    ensures !client.isDisabled && AllowedFilename(filename) && w.documentCheckReturns && w.sizeCheckReturns && extracted.Some?
            && !w.chunkCheckReturns ==>
      r == UploadRun(st, Err(LimitRejected(ChunkLimit)), None, None)
    ensures r.document.Some? <==>
      !client.isDisabled && AllowedFilename(filename) && w.documentCheckReturns && w.sizeCheckReturns && extracted.Some? && w.chunkCheckReturns
    ensures r.document.Some? ==>
      && r.document.value.id == w.documentId && r.document.value.clientId == client.id
      && r.document.value.filename == VStr(filename)
      && (r.document.value.sourceType == "pdf" <==> EndsWith(filename, ".pdf"))
      && (r.document.value.sourceType != "pdf" ==> r.document.value.sourceType == "text")
      && r.document.value.fileSizeBytes == fileSize
      && r.document.value.chunkCount == |w.chunks|
      && |r.document.value.statuses| == 2 && r.document.value.statuses[0] == Processing
      && (r.result.Ok? <==> r.document.value.statuses[1] == Ready)
    ensures r.result.Err? && r.document.Some? ==> r.result.error == HttpError(500, "Document upload failed")
    ensures r.document.Some? ==>
      var sourceType := if EndsWith(filename, ".pdf") then "pdf" else "text";
      r == Ingest(b, st, client,
                  Document(w.documentId, client.id, VStr(filename), sourceType, None, fileSize, |w.chunks|, [Processing]),
                  "Document upload failed", w)
  {
    if client.isDisabled then UploadRun(st, Err(HttpError(403, "Account disabled")), None, None)
    else if !AllowedFilename(filename) then
      UploadRun(st, Err(HttpError(400, "Only PDF, TXT, and MD files are allowed")), None, None)
    else if !w.documentCheckReturns then UploadRun(st, Err(LimitRejected(DocumentLimit)), None, None)
    else if !w.sizeCheckReturns then UploadRun(st, Err(LimitRejected(FileSizeLimit)), None, None)
    else if extracted.None? then UploadRun(st, Err(HttpError(500, "Text extraction failed")), None, None)
    else if !w.chunkCheckReturns then UploadRun(st, Err(LimitRejected(ChunkLimit)), None, None)
    else
      var sourceType := if EndsWith(filename, ".pdf") then "pdf" else "text";
      var doc := Document(w.documentId, client.id, VStr(filename), sourceType, None, fileSize, |w.chunks|, [Processing]);
      Ingest(b, st, client, doc, "Document upload failed", w)
  }

  /** A refused upload leaves no trace: no row, no ingest, no usage log,
      and the store untouched. */
  lemma RefusedUploadLeavesNoTrace(b: Build, st: Store, client: Client, filename: string, fileSize: nat,
                                   extracted: Option<string>, w: UploadWorld)
    requires UploadDocument(b, st, client, filename, fileSize, extracted, w).document.None?
    ensures var r := UploadDocument(b, st, client, filename, fileSize, extracted, w);
      r.store == st && r.result.Err? && r.usageLogged.None?
  {
  }

  /** A disabled client is refused before the file name is even looked
      at. */
  lemma DisabledFirst(b: Build, st: Store, client: Client, f1: string, f2: string, s1: nat, s2: nat,
                      e1: Option<string>, e2: Option<string>, w1: UploadWorld, w2: UploadWorld)
    requires client.isDisabled
    ensures UploadDocument(b, st, client, f1, s1, e1, w1) == UploadDocument(b, st, client, f2, s2, e2, w2)
  {
  }

  /** A successful file upload ends READY with every chunk indexed: the
      tenant's metadata grew by one record per chunk, tagged with the
      document's id. */
  lemma UploadIndexesChunks(b: Build, st: Store, client: Client, filename: string, fileSize: nat,
                            extracted: Option<string>, w: UploadWorld)
    requires |w.chunks| > 0
    requires UploadDocument(b, st, client, filename, fileSize, extracted, w).result.Ok?
    ensures var r := UploadDocument(b, st, client, filename, fileSize, extracted, w);
      && r.result.value.statuses == [Processing, Ready]
      && r.store.cache[client.id].metadata
         == Base(st, client.id, w.lio).metadata + MetadataRecords(w.chunks, w.documentId)
  {
    IngestAppendsRecords(b, st, client.id, w.chunks, w.documentId, w.openai, w.local, w.lio, w.sio);
  }

  /** An accepted upload whose OpenAI call raises: as written it ends
      FAILED with a 500 and nothing indexed, whatever the local model
      answers; corrected, it ends READY when the local vectors fit the
      tenant's index and the save and the usage log succeed. */
  lemma UploadWithoutOpenAi(st: Store, client: Client, filename: string, fileSize: nat,
                            text: string, local: LocalEmbedding, w: UploadWorld)
    requires !client.isDisabled && AllowedFilename(filename) && w.documentCheckReturns && w.sizeCheckReturns && w.chunkCheckReturns
    requires |w.chunks| > 0 && HasTexts(w.chunks) && w.openai.None? && w.local == Some(local)
    ensures var r := UploadDocument(AsWritten, st, client, filename, fileSize, Some(text), w);
      && r.result == Err(HttpError(500, "Document upload failed"))
      && r.document.value.statuses == [Processing, Failed]
      && r.store == st && r.usageLogged.None?
    ensures CheckBatch(Base(st, client.id, w.lio).index, local.embeddings).None? && SaveSucceeds(w.sio) && w.logOk ==>
      UploadDocument(Corrected, st, client, filename, fileSize, Some(text), w).result.Ok?
  {
    IngestAsWrittenNeedsOpenAi(st, client.id, w.chunks, w.documentId, local, w.lio, w.sio);
  }

  // ------------------------------------------------------------- URL ingest

  /** What the scraper returns: the text and its metadata dict. */
  datatype Scraped = Scraped(text: string, metadata: Record)

  /** `url[:50]`. */
  function Prefix50(url: string): (p: string)
    ensures |p| == if |url| < 50 then |url| else 50
    ensures p == url[..|p|]
  {
    if |url| < 50 then url else url[..50]
  }

  /** `upload_url` as written: `scrape_url` is async and is called without
      `await`, so unpacking its coroutine into `text, metadata` raises
      TypeError, which the handler turns into a 500. No URL is ever
      ingested. */
  function UploadUrlAsWritten(st: Store, client: Client, url: string, w: UploadWorld): (r: UploadRun)
    ensures client.isDisabled ==> r == UploadRun(st, Err(HttpError(403, "Account disabled")), None, None)
    ensures !client.isDisabled && !w.documentCheckReturns ==>
      r == UploadRun(st, Err(LimitRejected(DocumentLimit)), None, None)
    ensures r.store == st && r.result.Err? && r.document.None?
  {
    if client.isDisabled then UploadRun(st, Err(HttpError(403, "Account disabled")), None, None)
    else if !w.documentCheckReturns then UploadRun(st, Err(LimitRejected(DocumentLimit)), None, None)
    else UploadRun(st, Err(HttpError(500, "URL scraping failed")), None, None)
  }

  /** `upload_url` with the scraper awaited. `scraped` is its answer
      (`None` when it raises). The row's name is the scraped title when
      there is one, else the first 50 characters of the URL. */
  function UploadUrl(b: Build, st: Store, client: Client, url: string, scraped: Option<Scraped>, w: UploadWorld)
    : (r: UploadRun)
    ensures client.isDisabled ==> r == UploadRun(st, Err(HttpError(403, "Account disabled")), None, None)
    ensures !client.isDisabled && !w.documentCheckReturns ==>
      r == UploadRun(st, Err(LimitRejected(DocumentLimit)), None, None)
    ensures !client.isDisabled && w.documentCheckReturns && scraped.None? ==>
      r == UploadRun(st, Err(HttpError(500, "URL scraping failed")), None, None)
    ensures !client.isDisabled && w.documentCheckReturns && scraped.Some? && !w.chunkCheckReturns ==>
      r == UploadRun(st, Err(LimitRejected(ChunkLimit)), None, None)
    ensures r.document.Some? <==> !client.isDisabled && w.documentCheckReturns && scraped.Some? && w.chunkCheckReturns
    ensures r.document.Some? ==>
      && r.document.value.sourceType == "url"
      && r.document.value.sourceUrl == Some(url)
      && r.document.value.fileSizeBytes == |scraped.value.text|
      && r.document.value.chunkCount == |w.chunks|
      && ("title" in scraped.value.metadata ==> r.document.value.filename == scraped.value.metadata["title"])
      && ("title" !in scraped.value.metadata ==> r.document.value.filename == VStr(Prefix50(url)))
      && |r.document.value.statuses| == 2 && r.document.value.statuses[0] == Processing
      && (r.result.Ok? <==> r.document.value.statuses[1] == Ready)
    ensures r.result.Err? && r.document.Some? ==> r.result.error == HttpError(500, "URL upload failed")
    ensures r.document.Some? ==>
      var name := GetOr(scraped.value.metadata, "title", VStr(Prefix50(url)));
      r == Ingest(b, st, client,
                  Document(w.documentId, client.id, name, "url", Some(url), |scraped.value.text|, |w.chunks|, [Processing]),
                  "URL upload failed", w)
  {
    if client.isDisabled then UploadRun(st, Err(HttpError(403, "Account disabled")), None, None)
    else if !w.documentCheckReturns then UploadRun(st, Err(LimitRejected(DocumentLimit)), None, None)
    else match scraped
      case None => UploadRun(st, Err(HttpError(500, "URL scraping failed")), None, None)
      case Some(s) =>
        if !w.chunkCheckReturns then UploadRun(st, Err(LimitRejected(ChunkLimit)), None, None)
        else
          var name := GetOr(s.metadata, "title", VStr(Prefix50(url)));
          var doc := Document(w.documentId, client.id, name, "url", Some(url), |s.text|, |w.chunks|, [Processing]);
          Ingest(b, st, client, doc, "URL upload failed", w)
  }

  /** The scraper's metadata holds only the URL, so a URL document is
      always named after the URL's first 50 characters. */
  lemma UrlDocumentNamedByUrl(b: Build, st: Store, client: Client, url: string, text: string, w: UploadWorld)
    requires UploadUrl(b, st, client, url, Some(Scraped(text, map["url" := VStr(url)])), w).document.Some?
    ensures UploadUrl(b, st, client, url, Some(Scraped(text, map["url" := VStr(url)])), w).document.value.filename
         == VStr(Prefix50(url))
  {
  }

  /** As written, a request that passes the first two checks fails with
      "URL scraping failed" whatever the page holds; with the scraper
      awaited, the same request succeeds when every later step does. */
  lemma UrlScrapingNeverAwaited(b: Build, st: Store, client: Client, url: string, s: Scraped, w: UploadWorld)
    requires !client.isDisabled && w.documentCheckReturns && w.chunkCheckReturns && w.logOk
    requires EmbedAndIndex(b, st, client.id, w.chunks, w.documentId, w.openai, w.local, w.lio, w.sio).result.Ok?
    ensures UploadUrlAsWritten(st, client, url, w).result == Err(HttpError(500, "URL scraping failed"))
    ensures UploadUrl(b, st, client, url, Some(s), w).result.Ok?
  {
  }
}
