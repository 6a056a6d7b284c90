/** The monthly overage rule: queries past the plan's limit are invoiced,
    and a tenant past one and a half times the limit is switched off. The
    month's query count, the plan limit and the billing provider's outcome
    are parameters. */
module Overage {
  import opened Wrappers
  import opened Accounts

  /** `int(x)` in Python: truncation toward zero. */
  function TruncDiv2(n: int): (q: int)
    ensures n >= 0 ==> q == n / 2
    ensures n < 0 ==> q == -((-n) / 2)
    ensures -1 <= n - 2 * q <= 1
    ensures n >= 0 ==> 0 <= n - 2 * q && q >= 0
    ensures n < 0 ==> n - 2 * q <= 0 && q <= 0
  {
    if n >= 0 then n / 2 else -((-n) / 2)
  }

  /** `hard_cap = int(plan_limit * 1.5)`: one and a half times the limit,
      truncated toward zero. */
  function HardCap(planLimit: int): (cap: int)
    ensures planLimit >= 0 ==> 2 * cap <= 3 * planLimit < 2 * cap + 2
    ensures planLimit < 0 ==> 2 * cap - 2 < 3 * planLimit <= 2 * cap
    ensures planLimit >= 0 ==> planLimit <= cap
  {
    TruncDiv2(3 * planLimit)
  }

  /** Halves are dropped toward zero, not toward minus infinity. */
  lemma HardCapExamples()
    ensures HardCap(100) == 150
    ensures HardCap(5) == 7
    ensures HardCap(-5) == -7
    ensures HardCap(0) == 0
  {
  }

  /** What one run of `check_and_bill_overages` did: whether an invoice
      item was attempted and for how many queries, whether the billing
      provider accepted it, and the client afterwards. */
  datatype OverageOutcome = OverageOutcome(
    invoiceAttempted: bool,
    overageQueries: int,
    invoiced: bool,
    client: Client)

  /** `check_and_bill_overages`. `count` is the month's usage-log count
      (`None` when the aggregate is NULL) and `billingOk` whether the
      invoice call returns; its failure is logged and swallowed. */
  function CheckAndBillOverages(client: Client, planLimit: int, count: Option<nat>, billingOk: bool)
    : (r: OverageOutcome)
    ensures var n := count.GetOr(0);
      && (r.invoiceAttempted <==> n > planLimit)
      && (r.invoiceAttempted ==> r.overageQueries == n - planLimit >= 1)
      && (!r.invoiceAttempted ==> r.overageQueries == 0)
      && (r.invoiced <==> r.invoiceAttempted && billingOk)
      && (n > HardCap(planLimit) ==> r.client == DisableClient(client))
      && (n <= HardCap(planLimit) ==> r.client == client)
  {
    var n := count.GetOr(0);
    var attempted := n > planLimit;
    var overage := if attempted then n - planLimit else 0;
    var after := if n > HardCap(planLimit) then DisableClient(client) else client;
    OverageOutcome(attempted, overage, attempted && billingOk, after)
  }

  /** A failed invoice does not skip the hard-cap decision: the client ends
      the same whether billing succeeds or not. */
  lemma BillingFailureKeepsCapDecision(client: Client, planLimit: int, count: Option<nat>)
    ensures CheckAndBillOverages(client, planLimit, count, false).client
         == CheckAndBillOverages(client, planLimit, count, true).client
    ensures CheckAndBillOverages(client, planLimit, count, false).invoiceAttempted
         == CheckAndBillOverages(client, planLimit, count, true).invoiceAttempted
  {
  }

  /** Switching a client off always comes with an invoice attempt: the cap
      is never below the limit for a non-negative limit, and a query count
      is never negative. */
  lemma DisableImpliesInvoice(client: Client, planLimit: int, count: Option<nat>, billingOk: bool)
    requires count.GetOr(0) > HardCap(planLimit)
    ensures CheckAndBillOverages(client, planLimit, count, billingOk).invoiceAttempted
  {
    if planLimit < 0 {
      assert count.GetOr(0) >= 0 > planLimit;
    }
  }

  /** Exactly at the limit nothing happens; one query over it is invoiced
      but not cut off (for a limit of at least 2). */
  lemma OverageBoundaries(client: Client, planLimit: int, billingOk: bool)
    requires planLimit >= 2
    ensures CheckAndBillOverages(client, planLimit, Some(planLimit), billingOk)
         == OverageOutcome(false, 0, false, client)
    ensures var r := CheckAndBillOverages(client, planLimit, Some(planLimit + 1), billingOk);
      r.invoiceAttempted && r.overageQueries == 1 && r.client == client
  {
  }

  /** A missing count behaves as a count of zero. */
  lemma MissingCountIsZero(client: Client, planLimit: int, billingOk: bool)
    ensures CheckAndBillOverages(client, planLimit, None, billingOk)
         == CheckAndBillOverages(client, planLimit, Some(0), billingOk)
  {
  }
}
