/** The grace-period sweep: every client still in `GRACE_PERIOD` whose row
    was last updated more than seven days before `now` is switched off.
    The clients are the whole table in order; `now` is a parameter, in
    microseconds like `updatedAt`. */
module Grace {
  import opened Accounts

  const GraceDays: int := 7
  const MicrosPerDay: int := 86400 * 1000000

  /** `utcnow() - timedelta(days=7)`. */
  function Cutoff(now: int): int {
    now - GraceDays * MicrosPerDay
  }

  /** The client is in grace and its grace started strictly before the
      cutoff. */
  predicate Expired(c: Client, cutoff: int) {
    c.billingStatus == GracePeriod && c.updatedAt < cutoff
  }

  /** One iteration of the loop. */
  function Enforce(c: Client, cutoff: int): (d: Client)
    ensures Expired(c, cutoff) ==> d == DisableClient(c)
    ensures !Expired(c, cutoff) ==> d == c
    ensures !Expired(d, cutoff)
  {
    if Expired(c, cutoff) then DisableClient(c) else c
  }

  /** The table after `enforce_grace_period`. */
  function EnforceGracePeriod(clients: seq<Client>, now: int): (out: seq<Client>)
    ensures |out| == |clients|
    ensures forall i :: 0 <= i < |clients| ==> out[i] == Enforce(clients[i], Cutoff(now))
  {
    seq(|clients|, i requires 0 <= i < |clients| => Enforce(clients[i], Cutoff(now)))
  }

  /** The number of clients the sweep switches off, counted from the
      front. */
  function CountExpired(clients: seq<Client>, cutoff: int): (n: nat)
    ensures n <= |clients|
    decreases |clients|
  {
    if |clients| == 0 then 0
    else CountExpired(clients[..|clients| - 1], cutoff) + (if Expired(clients[|clients| - 1], cutoff) then 1 else 0)
  }

  /** The number of positions at which two tables of the same length
      differ, counted from the front. */
  function Changed(before: seq<Client>, after: seq<Client>): (n: nat)
    requires |before| == |after|
    ensures n <= |before|
    decreases |before|
  {
    if |before| == 0 then 0
    else
      var k := |before| - 1;
      Changed(before[..k], after[..k]) + (if before[k] != after[k] then 1 else 0)
  }

  /** The sweep of a prefix is the prefix of the sweep. */
  lemma EnforcePrefix(clients: seq<Client>, now: int, k: nat)
    requires k <= |clients|
    ensures EnforceGracePeriod(clients[..k], now) == EnforceGracePeriod(clients, now)[..k]
  {
  }

  /** The loop's commits count exactly the clients the sweep changes. */
  lemma {:induction false} CommitsCountChanges(clients: seq<Client>, now: int)
    ensures CountExpired(clients, Cutoff(now)) == Changed(clients, EnforceGracePeriod(clients, now))
    decreases |clients|
  {
    if |clients| > 0 {
      var k := |clients| - 1;
      var out := EnforceGracePeriod(clients, now);
      EnforcePrefix(clients, now, k);
      CommitsCountChanges(clients[..k], now);
      assert out[k] != clients[k] <==> Expired(clients[k], Cutoff(now));
    }
  }

  /** The sweep as the loop runs it: one client at a time, one commit per
      client switched off. */
  method RunGracePeriod(clients: seq<Client>, now: int) returns (out: seq<Client>, commits: nat)
    ensures out == EnforceGracePeriod(clients, now)
    ensures commits == CountExpired(clients, Cutoff(now))
    ensures commits == Changed(clients, out)
  {
    var cutoff := Cutoff(now);
    out := [];
    commits := 0;
    var i := 0;
    while i < |clients|
      invariant 0 <= i <= |clients|
      invariant |out| == i
      invariant forall j :: 0 <= j < i ==> out[j] == Enforce(clients[j], cutoff)
      invariant commits == CountExpired(clients[..i], cutoff)
    {
      var c := clients[i];
      assert clients[..i + 1][..i] == clients[..i];
      if Expired(c, cutoff) {
        out := out + [DisableClient(c)];
        commits := commits + 1;
      } else {
        out := out + [c];
      }
      i := i + 1;
    }
    assert clients[..i] == clients;
    CommitsCountChanges(clients, now);
  }

  /** Only clients in grace whose grace is older than the cutoff change,
      and they are switched off; everyone else is untouched. */
  lemma GraceSweepChangesOnlyExpired(clients: seq<Client>, now: int, i: int)
    requires 0 <= i < |clients|
    ensures var out := EnforceGracePeriod(clients, now);
      && (out[i] != clients[i] <==> Expired(clients[i], Cutoff(now)))
      && (out[i] != clients[i] ==> out[i].billingStatus == Disabled && out[i].isDisabled)
      && out[i].id == clients[i].id
  {
  }

  /** A second sweep at the same time changes nothing. */
  lemma GraceSweepIdempotent(clients: seq<Client>, now: int)
    ensures EnforceGracePeriod(EnforceGracePeriod(clients, now), now) == EnforceGracePeriod(clients, now)
  {
  }

  /** A client switched off by a sweep is switched off by every later one:
      the cutoff only moves forward. */
  lemma GraceSweepMonotone(clients: seq<Client>, now: int, later: int, i: int)
    requires now <= later && 0 <= i < |clients|
    requires EnforceGracePeriod(clients, now)[i] != clients[i]
    ensures EnforceGracePeriod(clients, later)[i] == EnforceGracePeriod(clients, now)[i]
  {
  }

  /** The boundary is strict: a grace that started exactly seven days ago
      is not yet expired. */
  lemma GraceBoundary(c: Client, now: int)
    requires c.billingStatus == GracePeriod
    ensures c.updatedAt == now - 7 * 86400 * 1000000 ==> Enforce(c, Cutoff(now)) == c
    ensures c.updatedAt == now - 7 * 86400 * 1000000 - 1 ==> Enforce(c, Cutoff(now)) == DisableClient(c)
  {
  }
}
