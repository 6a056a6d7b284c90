/** Ingestion of a document's chunks: embed their texts (OpenAI, falling
    back to the local model), build one metadata record per chunk, add the
    batch to the tenant's index and bill the embedding cost. The embedding
    providers are parameters: `Some(answer)` when the call returns, `None`
    when it raises. */
module Embedder {
  import opened Wrappers
  import opened PyValues
  import opened Accounts
  import opened VectorStore

  /** OpenAI embedding price: $0.02 per million tokens. */
  const EmbeddingPricePerMillion: real := 0.02

  /** What the OpenAI embeddings call returns that the code reads. */
  datatype EmbeddingResponse = EmbeddingResponse(embeddings: seq<Vector>, totalTokens: nat)

  /** What the local model returns: the vectors and the embedding dimension
      (the length of the first vector). A failed encode is caught there and
      comes back as no vectors and dimension 0; the caller still files the
      dimension under `tokens`. */
  datatype LocalEmbedding = LocalEmbedding(embeddings: seq<Vector>, dimension: nat)

  /** The usage dict: `model` is absent from the dict of the empty-batch
      guard. */
  datatype EmbedUsage = EmbedUsage(tokens: nat, costUsd: real, model: Option<ModelName>)

  datatype EmbedError =
    | FallbackNotAwaited  // unpacking the un-awaited coroutine raises TypeError
    | FallbackFailed      // an exception escaped the local model too
    | MissingText         // `chunk["text"]` raised KeyError
    | StoreFailed(e: StoreError)

  /** The embeddings of a batch with their usage. */
  datatype Embedded = Embedded(embeddings: seq<Vector>, usage: EmbedUsage)

  /** The OpenAI embedding cost of `tokens` tokens. */
  function EmbeddingCost(tokens: nat): (cost: real)
    ensures cost >= 0.0
    ensures cost == 0.0 <==> tokens == 0
  {
    tokens as real / 1000000.0 * EmbeddingPricePerMillion
  }

  /** More tokens never cost less, and a million tokens cost two cents. */
  lemma EmbeddingCostMonotone(t1: nat, t2: nat)
    requires t1 <= t2
    ensures EmbeddingCost(t1) <= EmbeddingCost(t2)
    ensures EmbeddingCost(1000000) == 0.02
  {
  }

  /** `get_embeddings` as written: the fallback calls the local model's
      async `get_embeddings` without `await`, and unpacking the coroutine
      into two names raises TypeError, so an OpenAI failure always fails the
      call whatever the local model would have answered. */
  function GetEmbeddingsAsWritten(openai: Option<EmbeddingResponse>): (r: Result<Embedded, EmbedError>)
    ensures openai.None? ==> r == Err(FallbackNotAwaited)
    ensures openai.Some? ==> (r.Ok? && r.value.embeddings == openai.value.embeddings
      && r.value.usage == EmbedUsage(openai.value.totalTokens, EmbeddingCost(openai.value.totalTokens), Some(OpenAiEmbedModel)))
  {
    match openai
    case Some(resp) =>
      Ok(Embedded(resp.embeddings, EmbedUsage(resp.totalTokens, EmbeddingCost(resp.totalTokens), Some(OpenAiEmbedModel))))
    case None => Err(FallbackNotAwaited)
  }

  /** `get_embeddings` with the fallback awaited: when OpenAI raises, the
      local model's vectors are used, at no cost. */
  function GetEmbeddings(openai: Option<EmbeddingResponse>, local: Option<LocalEmbedding>)
    : (r: Result<Embedded, EmbedError>)
    ensures openai.Some? ==> r == GetEmbeddingsAsWritten(openai)
    ensures openai.None? && local.Some? ==>
      r == Ok(Embedded(local.value.embeddings, EmbedUsage(local.value.dimension, 0.0, Some(HfEmbedModel))))
    ensures r.Err? <==> openai.None? && local.None?
    ensures r.Ok? ==> r.value.usage.costUsd >= 0.0
  {
    if openai.Some? then GetEmbeddingsAsWritten(openai)
    else match local
      case Some(l) => Ok(Embedded(l.embeddings, EmbedUsage(l.dimension, 0.0, Some(HfEmbedModel))))
      case None => Err(FallbackFailed)
  }

  /** The fallback as written never helps; awaited, it answers whenever the
      local model does. */
  lemma FallbackNotAwaitedDiscards(local: LocalEmbedding)
    ensures GetEmbeddingsAsWritten(None).Err?
    ensures GetEmbeddings(None, Some(local)).Ok?
    ensures GetEmbeddings(None, Some(local)).value.embeddings == local.embeddings
  {
  }

  /** A paid embedding came from OpenAI: the local model is free. */
  lemma PaidEmbeddingIsOpenAi(openai: Option<EmbeddingResponse>, local: Option<LocalEmbedding>)
    requires GetEmbeddings(openai, local).Ok? && GetEmbeddings(openai, local).value.usage.costUsd > 0.0
    ensures openai.Some? && openai.value.totalTokens > 0
    ensures GetEmbeddings(openai, local).value.usage.model == Some(OpenAiEmbedModel)
  {
  }

  /** Every chunk has a `text` key. */
  predicate HasTexts(chunks: seq<Record>) {
    forall i :: 0 <= i < |chunks| ==> "text" in chunks[i]
  }

  /** The metadata record stored for the chunk at position `idx`. */
  function ChunkRecord(chunk: Record, documentId: string, idx: int): (m: Record)
    requires "text" in chunk
    ensures m.Keys == {"text", "metadata", "document_id", "chunk_index"}
    ensures m["text"] == chunk["text"]
    ensures m["metadata"] == (if "metadata" in chunk then chunk["metadata"] else VDict(map[]))
    ensures m["document_id"] == VStr(documentId) && m["chunk_index"] == VInt(idx)
  {
    map["text" := chunk["text"],
        "metadata" := GetOr(chunk, "metadata", VDict(map[])),
        "document_id" := VStr(documentId),
        "chunk_index" := VInt(idx)]
  }

  /** `metadata_list`: one record per chunk, in order, each carrying its
      position. */
  function MetadataRecords(chunks: seq<Record>, documentId: string): (ms: seq<Record>)
    requires HasTexts(chunks)
    ensures |ms| == |chunks|
    ensures forall i :: 0 <= i < |ms| ==> ms[i] == ChunkRecord(chunks[i], documentId, i)
  {
    seq(|chunks|, i requires 0 <= i < |chunks| => ChunkRecord(chunks[i], documentId, i))
  }

  /** Which version of the ingest chain runs: the code as written (the
      un-awaited fallback of `GetEmbeddingsAsWritten` and the aliasing
      insert of `AddAsWritten`) or the corrected one. */
  datatype Build = AsWritten | Corrected

  /** The embedding step of the chosen build. */
  function Embed(b: Build, openai: Option<EmbeddingResponse>, local: Option<LocalEmbedding>)
    : Result<Embedded, EmbedError>
  {
    if b.AsWritten? then GetEmbeddingsAsWritten(openai) else GetEmbeddings(openai, local)
  }

  /** The insert of the chosen build. */
  function AddBy(b: Build, st: Store, c: string, es: seq<Vector>, ms: seq<Record>, lio: LoadIo, sio: SaveIo)
    : StoreOutcome<()>
  {
    if b.AsWritten? then AddAsWritten(st, c, es, ms, lio, sio) else Add(st, c, es, ms, lio, sio)
  }

  /** A run of `embed_and_index`: the store after it, the usage returned or
      the error, whether the embedding provider was called, whether the
      batch reached `add_to_index`, and whether usage was billed. */
  datatype IngestRun = IngestRun(
    store: Store,
    result: Result<EmbedUsage, EmbedError>,
    embedCalled: bool,
    indexed: bool,
    billed: bool)

  /** `embed_and_index` for tenant `c`, in build `b`. */
  function EmbedAndIndex(b: Build, st: Store, c: string, chunks: seq<Record>, documentId: string,
                         openai: Option<EmbeddingResponse>, local: Option<LocalEmbedding>,
                         lio: LoadIo, sio: SaveIo): (r: IngestRun)
    ensures |chunks| == 0 ==> r == IngestRun(st, Ok(EmbedUsage(0, 0.0, None)), false, false, false)
    ensures |chunks| > 0 && !HasTexts(chunks) ==> r == IngestRun(st, Err(MissingText), false, false, false)
    ensures |chunks| > 0 && HasTexts(chunks) ==> r.embedCalled
    ensures |chunks| > 0 && HasTexts(chunks) && Embed(b, openai, local).Err? ==>
      r == IngestRun(st, Err(Embed(b, openai, local).error), true, false, false)
    ensures r.indexed <==> |chunks| > 0 && HasTexts(chunks) && Embed(b, openai, local).Ok?
    ensures r.indexed ==>
      var batch := Embed(b, openai, local).value.embeddings;
      var add := AddBy(b, st, c, batch, MetadataRecords(chunks, documentId), lio, sio);
      && r.store == add.store
      && (r.result.Ok? <==> add.result.Ok?)
      && (add.result.Err? ==> r.result == Err(StoreFailed(add.result.error)))
    ensures r.result.Ok? && |chunks| > 0 ==> r.indexed && r.result.value == Embed(b, openai, local).value.usage
    ensures r.billed <==> r.result.Ok? && r.result.value.costUsd > 0.0
    ensures !r.indexed ==> r.store == st
  {
    if |chunks| == 0 then IngestRun(st, Ok(EmbedUsage(0, 0.0, None)), false, false, false)
    else if !HasTexts(chunks) then IngestRun(st, Err(MissingText), false, false, false)
    else
      var embedded := Embed(b, openai, local);
      if embedded.Err? then IngestRun(st, Err(embedded.error), true, false, false)
      else
        var add := AddBy(b, st, c, embedded.value.embeddings, MetadataRecords(chunks, documentId), lio, sio);
        if add.result.Err? then IngestRun(add.store, Err(StoreFailed(add.result.error)), true, true, false)
        else
          var usage := embedded.value.usage;
          IngestRun(add.store, Ok(usage), true, true, usage.costUsd > 0.0)
  }

  /** As written, a batch whose OpenAI call raises is never indexed: the
      run fails on the un-awaited fallback and the store is untouched,
      whatever the local model would answer. Corrected, the same batch is
      indexed from the local vectors. */
  lemma IngestAsWrittenNeedsOpenAi(st: Store, c: string, chunks: seq<Record>, documentId: string,
                                   local: LocalEmbedding, lio: LoadIo, sio: SaveIo)
    requires |chunks| > 0 && HasTexts(chunks)
    ensures EmbedAndIndex(AsWritten, st, c, chunks, documentId, None, Some(local), lio, sio)
         == IngestRun(st, Err(FallbackNotAwaited), true, false, false)
    ensures EmbedAndIndex(Corrected, st, c, chunks, documentId, None, Some(local), lio, sio).indexed
  {
  }

  /** When OpenAI answers and the save completes, the two builds do the
      same thing. */
  lemma BuildsAgreeOnHappyPath(st: Store, c: string, chunks: seq<Record>, documentId: string,
                               openai: Option<EmbeddingResponse>, local: Option<LocalEmbedding>,
                               lio: LoadIo, sio: SaveIo)
    requires openai.Some? && SaveSucceeds(sio)
    ensures EmbedAndIndex(AsWritten, st, c, chunks, documentId, openai, local, lio, sio)
         == EmbedAndIndex(Corrected, st, c, chunks, documentId, openai, local, lio, sio)
  {
  }

  /** A successful ingest appends one record per chunk to the tenant's
      metadata, after what was there, and keeps the tenant aligned when the
      provider returned one vector per chunk. */
  lemma IngestAppendsRecords(b: Build, st: Store, c: string, chunks: seq<Record>, documentId: string,
                             openai: Option<EmbeddingResponse>, local: Option<LocalEmbedding>,
                             lio: LoadIo, sio: SaveIo)
    requires |chunks| > 0
    requires EmbedAndIndex(b, st, c, chunks, documentId, openai, local, lio, sio).result.Ok?
    ensures var after := EmbedAndIndex(b, st, c, chunks, documentId, openai, local, lio, sio).store.cache[c];
      var before := Base(st, c, lio);
      && after.metadata == before.metadata + MetadataRecords(chunks, documentId)
      && (Aligned(before) && |Embed(b, openai, local).value.embeddings| == |chunks| ==> Aligned(after))
  {
    var batch := Embed(b, openai, local).value.embeddings;
    AddAppends(st, c, batch, MetadataRecords(chunks, documentId), lio, sio);
  }

  /** The empty batch is the only one that never reaches a provider. */
  lemma IngestCallsProviderUnlessEmpty(b: Build, st: Store, c: string, chunks: seq<Record>, documentId: string,
                                       openai: Option<EmbeddingResponse>, local: Option<LocalEmbedding>,
                                       lio: LoadIo, sio: SaveIo)
    requires HasTexts(chunks)
    ensures EmbedAndIndex(b, st, c, chunks, documentId, openai, local, lio, sio).embedCalled <==> |chunks| > 0
  {
  }
}
