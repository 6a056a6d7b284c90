/** The fields of a tenant (a `Client` row) that the modelled code reads or
    writes, and the names of the models that usage records report. */
module Accounts {

  /** `BillingStatus`: the two values the modelled code names, and every
      other status by its name. */
  datatype BillingStatus = GracePeriod | Disabled | OtherStatus(name: string)

  /** A tenant. `updatedAt` is a timestamp in microseconds; `planType` is the
      plan enum's string value ("starter", "growth", "scale", ...). */
  datatype Client = Client(
    id: string,
    planType: string,
    billingStatus: BillingStatus,
    isDisabled: bool,
    updatedAt: int)

  /** A client switched off: status `DISABLED` and the `is_disabled` flag. */
  function DisableClient(c: Client): (d: Client)
    ensures d.billingStatus == Disabled && d.isDisabled
    ensures d.id == c.id && d.planType == c.planType && d.updatedAt == c.updatedAt
  {
    c.(billingStatus := Disabled, isDisabled := true)
  }

  /** Model names written into usage records. The settings the source reads
      them from are opaque; all that matters is that they differ. */
  datatype ModelName =
    | NoModel          // the literal "none"
    | GroqModel        // settings.GROQ_MODEL
    | OpenAiModel      // settings.OPENAI_MODEL
    | OpenAiEmbedModel // settings.OPENAI_EBD_MODEL
    | HfEmbedModel     // settings.HF_EBD_MODEL
}
