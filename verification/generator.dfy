/** Answer generation: the plan-aware choice between the Groq provider and
    the OpenAI provider, the single fallback from Groq to OpenAI, and the
    usage and cost record. Each provider call is an input: `Some(response)`
    when it returns, `None` when it raises. */
module Generator {
  import opened Wrappers
  import opened Accounts

  /** Model preferences, as `_select_model_preference` spells them. */
  const PrefGroq: string := "groq"
  const PrefGroqWithFallback: string := "groq_with_fallback"
  const PrefOpenAiGpt4: string := "openai_gpt4"

  /** Default `max_tokens` of a provider call (recorded only). */
  const DefaultMaxTokens: int := 500

  datatype Provider = GroqProvider | OpenAiProvider

  /** What a chat completion returns that the code reads: the first choice's
      text and the usage counts. */
  datatype ChatResponse = ChatResponse(content: string, promptTokens: nat, completionTokens: nat)

  /** The usage record of one answer. */
  datatype Usage = Usage(modelUsed: ModelName, inputTokens: nat, outputTokens: nat, costUsd: real)

  /** The usage record of an answer that was never generated. */
  function NoUsage(): (u: Usage)
    ensures u.modelUsed == NoModel && u.inputTokens == 0 && u.outputTokens == 0 && u.costUsd == 0.0
  {
    Usage(NoModel, 0, 0, 0.0)
  }

  datatype Answer = Answer(text: string, usage: Usage)

  /** `generate_answer` raises `RuntimeError("LLM generation failed")`. */
  datatype GenerationFailed = GenerationFailed

  /** A run of `generate_answer`: the provider calls made, in order, and the
      answer or the error. */
  datatype GenerationRun = GenerationRun(calls: seq<Provider>, result: Result<Answer, GenerationFailed>)

  /** Groq price: $0.27 per million tokens, input and output alike. */
  function GroqCost(inputTokens: nat, outputTokens: nat): (c: real)
    ensures c >= 0.0
    ensures c == 0.0 <==> inputTokens == 0 && outputTokens == 0
  {
    (inputTokens + outputTokens) as real / 1000000.0 * 0.27
  }

  /** OpenAI price: $0.15 per million input tokens, $0.60 per million output
      tokens. */
  function OpenAiCost(inputTokens: nat, outputTokens: nat): (c: real)
    ensures c >= 0.0
    ensures c == 0.0 <==> inputTokens == 0 && outputTokens == 0
  {
    inputTokens as real / 1000000.0 * 0.15 + outputTokens as real / 1000000.0 * 0.60
  }

  /** The cost rule: Groq's rate when Groq produced the answer, OpenAI's
      otherwise. */
  function Cost(model: ModelName, inputTokens: nat, outputTokens: nat): real {
    if model == GroqModel then GroqCost(inputTokens, outputTokens)
    else OpenAiCost(inputTokens, outputTokens)
  }

  /** Costs are never negative, are zero for zero tokens, and more tokens
      never cost less. */
  lemma CostProperties(model: ModelName, i1: nat, o1: nat, i2: nat, o2: nat)
    ensures Cost(model, i1, o1) >= 0.0
    ensures Cost(model, 0, 0) == 0.0
    ensures Cost(model, i1, o1) == 0.0 <==> i1 == 0 && o1 == 0
    ensures i1 <= i2 && o1 <= o2 ==> Cost(model, i1, o1) <= Cost(model, i2, o2)
  {
  }

  /** The rates behind the cost rule: a million tokens cost $0.27 on Groq
      whether they are read or written, $0.15 to read and $0.60 to write on
      OpenAI; and the cost of two batches is the sum of their costs. */
  lemma CostRates(model: ModelName, i1: nat, o1: nat, i2: nat, o2: nat)
    ensures model == GroqModel ==> Cost(model, 1000000, 0) == 0.27 && Cost(model, 0, 1000000) == 0.27
    ensures model != GroqModel ==> Cost(model, 1000000, 0) == 0.15 && Cost(model, 0, 1000000) == 0.60
    ensures Cost(model, i1 + i2, o1 + o2) == Cost(model, i1, o1) + Cost(model, i2, o2)
  {
  }

  /** The usage record for a response from the given model. */
  function UsageOf(model: ModelName, resp: ChatResponse): (u: Usage)
    ensures u.modelUsed == model
    ensures u.inputTokens == resp.promptTokens && u.outputTokens == resp.completionTokens
    ensures u.costUsd == Cost(model, resp.promptTokens, resp.completionTokens)
    ensures u.costUsd >= 0.0
    ensures u.costUsd == 0.0 <==> resp.promptTokens == 0 && resp.completionTokens == 0
  {
    CostProperties(model, resp.promptTokens, resp.completionTokens, 0, 0);
    Usage(model, resp.promptTokens, resp.completionTokens,
          Cost(model, resp.promptTokens, resp.completionTokens))
  }

  /** The answer built from a provider's response. */
  function Respond(model: ModelName, resp: ChatResponse): Answer {
    Answer(resp.content, UsageOf(model, resp))
  }

  /** `generate_answer`: "groq" calls Groq only; "groq_with_fallback" calls
      Groq and, if it raises, OpenAI once; every other preference calls
      OpenAI only. Any failure that is not recovered raises. */
  function GenerateAnswer(preference: string, groq: Option<ChatResponse>, openai: Option<ChatResponse>)
    : (r: GenerationRun)
    ensures preference == PrefGroq ==> r.calls == [GroqProvider]
    ensures preference == PrefGroqWithFallback ==>
      r.calls == (if groq.Some? then [GroqProvider] else [GroqProvider, OpenAiProvider])
    ensures preference != PrefGroq && preference != PrefGroqWithFallback ==> r.calls == [OpenAiProvider]
    ensures 1 <= |r.calls| <= 2 && (|r.calls| == 2 ==> r.calls[0] == GroqProvider)
    ensures r.result.Ok? <==>
      (if r.calls[|r.calls| - 1] == GroqProvider then groq.Some? else openai.Some?)
    ensures r.result.Ok? ==>
      r.result.value.usage.modelUsed == (if r.calls[|r.calls| - 1] == GroqProvider then GroqModel else OpenAiModel)
    ensures r.result.Ok? && r.calls[|r.calls| - 1] == GroqProvider ==> r.result.value == Respond(GroqModel, groq.value)
    ensures r.result.Ok? && r.calls[|r.calls| - 1] == OpenAiProvider ==> r.result.value == Respond(OpenAiModel, openai.value)
  {
    if preference == PrefGroq || preference == PrefGroqWithFallback then
      if groq.Some? then GenerationRun([GroqProvider], Ok(Respond(GroqModel, groq.value)))
      else if preference == PrefGroq then GenerationRun([GroqProvider], Err(GenerationFailed))
      else if openai.Some? then GenerationRun([GroqProvider, OpenAiProvider], Ok(Respond(OpenAiModel, openai.value)))
      else GenerationRun([GroqProvider, OpenAiProvider], Err(GenerationFailed))
    else if openai.Some? then GenerationRun([OpenAiProvider], Ok(Respond(OpenAiModel, openai.value)))
    else GenerationRun([OpenAiProvider], Err(GenerationFailed))
  }

  /** The "starter" policy never reaches the premium provider: when Groq
      fails, the call fails. */
  lemma CheapOnlyNeverFallsBack(openai: Option<ChatResponse>)
    ensures GenerateAnswer(PrefGroq, None, openai) == GenerationRun([GroqProvider], Err(GenerationFailed))
  {
  }

  /** With fallback, the answer comes from OpenAI exactly when Groq failed
      and OpenAI answered. */
  lemma FallbackAnswersFromOpenAi(groq: Option<ChatResponse>, openai: Option<ChatResponse>)
    ensures var r := GenerateAnswer(PrefGroqWithFallback, groq, openai);
      (r.result.Ok? && r.result.value.usage.modelUsed == OpenAiModel) <==> (groq.None? && openai.Some?)
  {
  }
}
