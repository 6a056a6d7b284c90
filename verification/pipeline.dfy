/** The RAG orchestrator: blank-query guard, retrieval degraded to no
    chunks on failure, the grounded or the fallback prompt, confidence from
    the best chunk, generation degraded to an apology on failure, citations
    and the escalation decision. Everything the source takes from outside —
    the query embedding, the index oracle, storage faults, the providers'
    answers, the clock and float formatting — is a parameter. */
module Pipeline {
  import opened Wrappers
  import opened PyValues
  import opened VectorStore
  import opened Retriever
  import opened Prompt
  import opened Generator

  /** Below this confidence the answer is flagged for a human. */
  const EscalationThreshold: real := 0.3

  /** Citations cover at most this many chunks. */
  const MaxCitations: int := 3

  const InvalidQueryAnswer: string := "Please provide a valid question."
  const ApologyAnswer: string := "I'm sorry, I'm experiencing technical issues."
  const LowConfidencePrefix: string := "Low confidence ("

  /** `_select_model_preference`: the plan's provider strategy. */
  function SelectModelPreference(planType: string): (pref: string)
    ensures planType == "starter" ==> pref == PrefGroq
    ensures planType == "growth" ==> pref == PrefGroqWithFallback
    ensures planType == "scale" ==> pref == PrefOpenAiGpt4
    ensures planType !in {"starter", "growth", "scale"} ==> pref == PrefGroq
  {
    if planType == "starter" then PrefGroq
    else if planType == "growth" then PrefGroqWithFallback
    else if planType == "scale" then PrefOpenAiGpt4
    else PrefGroq
  }

  /** Which providers each plan can reach: only "scale" starts with OpenAI,
      only "growth" ever calls both, every other plan calls Groq alone. */
  lemma PlanProviders(planType: string, groq: Option<ChatResponse>, openai: Option<ChatResponse>)
    ensures var calls := GenerateAnswer(SelectModelPreference(planType), groq, openai).calls;
      && (planType == "scale" <==> calls == [OpenAiProvider])
      && (planType == "growth" && groq.None? <==> calls == [GroqProvider, OpenAiProvider])
      && (planType != "growth" && planType != "scale" ==> calls == [GroqProvider])
  {
  }

  /** One entry of the `citations` list. */
  datatype Citation = Citation(document: Value, chunkIndex: Value, relevanceScore: real)

  /** The dict `run_rag_pipeline` returns. `confidence` is the rounded
      value. */
  datatype PipelineResult = PipelineResult(
    answer: string,
    citations: seq<Citation>,
    confidence: real,
    latencyMs: int,
    usage: Usage,
    shouldEscalate: bool,
    escalationReason: Option<string>)

  /** Prompt and citation building sit outside every `try`: a chunk whose
      metadata is not a dict makes `.get` raise AttributeError out of the
      pipeline. */
  datatype PipelineError = MetadataNotDict

  /** Float formatting, left uninterpreted: `round(x, 3)`, `f"{x:.2f}"` and
      `str` of a non-scalar value. */
  datatype Formatting = Formatting(round3: real -> real, fmt2: real -> string, render: Value -> string)

  /** Everything the pipeline learns from outside: the local model's
      embedding of the query (empty when it fails), the index oracle's
      answer, the storage faults of the load, each provider's response
      (`None` when the call raises) and the measured latency. */
  datatype Externals = Externals(
    queryEmbeddings: seq<Vector>,
    hits: seq<Hit>,
    loadIo: LoadIo,
    groq: Option<ChatResponse>,
    openai: Option<ChatResponse>,
    latencyMs: int)

  /** A run of the pipeline: the store after it, the result or the error,
      whether retrieval ran, the prompt sent to generation and the provider
      calls made. */
  datatype PipelineRun = PipelineRun(
    store: Store,
    result: Result<PipelineResult, PipelineError>,
    retrieved: bool,
    prompt: Option<string>,
    calls: seq<Provider>)

  /** The answer to an empty or whitespace-only query. */
  function BlankQueryResult(): (p: PipelineResult)
    ensures p.answer == InvalidQueryAnswer && p.citations == [] && p.confidence == 0.0 && p.latencyMs == 0
    ensures p.usage == NoUsage() && !p.shouldEscalate && p.escalationReason == None
  {
    PipelineResult(InvalidQueryAnswer, [], 0.0, 0, NoUsage(), false, None)
  }

  /** The chunks the pipeline works with: the retriever's, or none when the
      retriever raised. */
  function Retrieved(st: Store, c: string, query: string, topK: int, ext: Externals): seq<Chunk> {
    var run := Retrieve(st, c, query, topK, ext.queryEmbeddings, ext.hits, ext.loadIo);
    if run.result.Ok? then run.result.value else []
  }

  /** The unrounded confidence: the first chunk's score capped at 1.0, or
      0.0 with no chunks. */
  function Confidence(chunks: seq<Chunk>): (conf: real)
    ensures conf <= 1.0
    ensures |chunks| == 0 ==> conf == 0.0
    ensures |chunks| > 0 ==> conf <= chunks[0].score && (conf == chunks[0].score || conf == 1.0)
  {
    if |chunks| == 0 then 0.0
    else if chunks[0].score < 1.0 then chunks[0].score else 1.0
  }

  /** The citation of one chunk: the document defaults to "unknown" and the
      chunk index to 0. */
  function CitationOf(ch: Chunk, round3: real -> real): (cit: Citation)
    requires ch.metadata.VDict?
    ensures "filename" in ch.metadata.fields ==> cit.document == ch.metadata.fields["filename"]
    ensures "filename" !in ch.metadata.fields ==> cit.document == VStr("unknown")
    ensures "chunk_index" in ch.metadata.fields ==> cit.chunkIndex == ch.metadata.fields["chunk_index"]
    ensures "chunk_index" !in ch.metadata.fields ==> cit.chunkIndex == VInt(0)
    ensures cit.relevanceScore == round3(ch.score)
  {
    var d := ch.metadata.fields;
    Citation(GetOr(d, "filename", VStr("unknown")), GetOr(d, "chunk_index", VInt(0)), round3(ch.score))
  }

  /** The citations: one per chunk among the first three, in order. */
  function Citations(chunks: seq<Chunk>, round3: real -> real): (cs: seq<Citation>)
    requires MetadataAreDicts(chunks)
    ensures |cs| == if |chunks| < MaxCitations then |chunks| else MaxCitations
    ensures forall i :: 0 <= i < |cs| ==> cs[i] == CitationOf(chunks[i], round3)
  {
    var n := if |chunks| < MaxCitations then |chunks| else MaxCitations;
    seq(n, i requires 0 <= i < n => CitationOf(chunks[i], round3))
  }

  /** The escalation reason `f"Low confidence ({confidence:.2f})"`, present
      exactly when escalating. */
  function EscalationReason(conf: real, fmt2: real -> string): (reason: Option<string>)
    ensures reason.Some? <==> conf < EscalationThreshold
    ensures reason.Some? ==>
      && |reason.value| == |LowConfidencePrefix| + |fmt2(conf)| + 1
      && reason.value[..|LowConfidencePrefix|] == LowConfidencePrefix
      && reason.value[|LowConfidencePrefix|..|reason.value| - 1] == fmt2(conf)
      && reason.value[|reason.value| - 1] == ')'
  {
    if conf < EscalationThreshold then
      var s := LowConfidencePrefix + fmt2(conf) + ")";
      assert s[..|LowConfidencePrefix|] == LowConfidencePrefix;
      assert s[|LowConfidencePrefix|..|s| - 1] == fmt2(conf);
      Some(s)
    else None
  }

  /** `run_rag_pipeline` on a tenant `c`. */
  function RunPipeline(st: Store, c: string, query: string, planType: string, topK: int,
                       fmt: Formatting, ext: Externals): (r: PipelineRun)
    ensures IsBlank(query) ==> r == PipelineRun(st, Ok(BlankQueryResult()), false, None, [])
    ensures !IsBlank(query) ==> (r.retrieved
      && r.store == Retrieve(st, c, query, topK, ext.queryEmbeddings, ext.hits, ext.loadIo).store)
    ensures var chunks := Retrieved(st, c, query, topK, ext);
      !IsBlank(query) ==>
        && (r.result.Err? <==> |chunks| > 0 && !MetadataAreDicts(chunks))
        && (r.result.Err? ==> r.calls == [] && r.prompt == None)
        && (r.result.Ok? ==>
              && r.prompt == (if |chunks| == 0 then Some(BuildFallbackPrompt(query))
                              else BuildRagPrompt(query, chunks, fmt.render))
              && r.calls == GenerateAnswer(SelectModelPreference(planType), ext.groq, ext.openai).calls
              && r.result.value.citations == Citations(chunks, fmt.round3)
              && r.result.value.confidence == fmt.round3(Confidence(chunks))
              && (r.result.value.shouldEscalate <==> Confidence(chunks) < EscalationThreshold)
              && (r.result.value.escalationReason.Some? <==> r.result.value.shouldEscalate)
              && r.result.value.escalationReason == EscalationReason(Confidence(chunks), fmt.fmt2)
              && r.result.value.latencyMs == ext.latencyMs)
  {
    if IsBlank(query) then PipelineRun(st, Ok(BlankQueryResult()), false, None, [])
    else
      var retrieval := Retrieve(st, c, query, topK, ext.queryEmbeddings, ext.hits, ext.loadIo);
      var chunks := Retrieved(st, c, query, topK, ext);
      if |chunks| > 0 && !MetadataAreDicts(chunks) then
        PipelineRun(retrieval.store, Err(MetadataNotDict), true, None, [])
      else
        var prompt := if |chunks| > 0 then BuildRagPrompt(query, chunks, fmt.render).value
                      else BuildFallbackPrompt(query);
        var conf := Confidence(chunks);
        var gen := GenerateAnswer(SelectModelPreference(planType), ext.groq, ext.openai);
        var answer := if gen.result.Ok? then gen.result.value.text else ApologyAnswer;
        var usage := if gen.result.Ok? then gen.result.value.usage else NoUsage();
        var escalate := conf < EscalationThreshold;
        var result := PipelineResult(answer, Citations(chunks, fmt.round3), fmt.round3(conf),
                                     ext.latencyMs, usage, escalate, EscalationReason(conf, fmt.fmt2));
        PipelineRun(retrieval.store, Ok(result), true, Some(prompt), gen.calls)
  }

  /** A question with nothing retrieved is answered from the fallback
      prompt, cites nothing, has zero confidence and is escalated. */
  lemma EmptyRetrievalEscalates(st: Store, c: string, query: string, planType: string, topK: int,
                                fmt: Formatting, ext: Externals)
    requires !IsBlank(query) && Retrieved(st, c, query, topK, ext) == []
    ensures var r := RunPipeline(st, c, query, planType, topK, fmt, ext);
      && r.result.Ok?
      && r.prompt == Some(BuildFallbackPrompt(query))
      && r.result.value.citations == []
      && r.result.value.confidence == fmt.round3(0.0)
      && r.result.value.shouldEscalate
      && r.result.value.escalationReason == Some(LowConfidencePrefix + fmt.fmt2(0.0) + ")")
  {
  }

  /** When generation raises, the pipeline still answers: the apology, with
      zeroed usage. */
  lemma GenerationFailureApologises(st: Store, c: string, query: string, planType: string, topK: int,
                                    fmt: Formatting, ext: Externals)
    requires !IsBlank(query)
    requires GenerateAnswer(SelectModelPreference(planType), ext.groq, ext.openai).result.Err?
    requires MetadataAreDicts(Retrieved(st, c, query, topK, ext))
    ensures var r := RunPipeline(st, c, query, planType, topK, fmt, ext);
      r.result.Ok? && r.result.value.answer == ApologyAnswer && r.result.value.usage == NoUsage()
  {
  }

  /** When generation succeeds, the answer and the usage are the
      provider's. */
  lemma GenerationSuccessAnswers(st: Store, c: string, query: string, planType: string, topK: int,
                                 fmt: Formatting, ext: Externals)
    requires !IsBlank(query)
    requires GenerateAnswer(SelectModelPreference(planType), ext.groq, ext.openai).result.Ok?
    requires MetadataAreDicts(Retrieved(st, c, query, topK, ext))
    ensures var r := RunPipeline(st, c, query, planType, topK, fmt, ext);
      var a := GenerateAnswer(SelectModelPreference(planType), ext.groq, ext.openai).result.value;
      r.result.Ok? && r.result.value.answer == a.text && r.result.value.usage == a.usage
  {
  }

  /** Retrieved chunks score in (0, 1], so with chunks the unrounded
      confidence is the first chunk's score itself and is positive. */
  lemma ConfidenceIsTopScore(st: Store, c: string, query: string, topK: int, ext: Externals)
    requires |Retrieved(st, c, query, topK, ext)| > 0
    ensures var chunks := Retrieved(st, c, query, topK, ext);
      0.0 < Confidence(chunks) == chunks[0].score <= 1.0
  {
    RetrievedScoresInUnitInterval(st, c, query, topK, ext.queryEmbeddings, ext.hits, ext.loadIo);
  }

  /** Escalation follows the top score: a strong best match is never
      escalated, a weak one always is. */
  lemma EscalationFollowsTopScore(st: Store, c: string, query: string, planType: string, topK: int,
                                  fmt: Formatting, ext: Externals)
    requires !IsBlank(query) && MetadataAreDicts(Retrieved(st, c, query, topK, ext))
    ensures var chunks := Retrieved(st, c, query, topK, ext);
      var r := RunPipeline(st, c, query, planType, topK, fmt, ext);
      r.result.Ok? && (r.result.value.shouldEscalate <==> |chunks| == 0 || chunks[0].score < EscalationThreshold)
  {
    if |Retrieved(st, c, query, topK, ext)| > 0 {
      ConfidenceIsTopScore(st, c, query, topK, ext);
    }
  }
}
