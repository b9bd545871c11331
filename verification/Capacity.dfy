/** The shared provider capacity bucket (capacity.ts): a lazily refilled RPM + TPM budget with expiring
leases, once-only reconciliation that may leave debt, and one waiter claim.

Token amounts and instants (in seconds) are reals; limits are the whole numbers the source floors them
to. One value of Row is one bucket row together with its lease rows. */
module Capacity {
  import opened Common

  // ----- limits -----

  datatype WaiterLimit = WaiterLimit(key: string, ttlSeconds: real)

  datatype Limit = Limit(
    requestsPerMinute: real, tokensPerMinute: real, tokenBurst: Option<real>, maxConcurrent: real,
    reserveTokens: real, leaseTtlSeconds: real, waiter: Option<WaiterLimit>)

  datatype Waiter = Waiter(key: string, ttl: nat)

  /** A checked limit. */
  datatype Ask = Ask(
    requestRate: nat, tokenRate: nat, burst: Option<nat>, maxConcurrent: nat,
    reserve: nat, leaseTtl: nat, waiter: Option<Waiter>)
  {
    predicate Valid() {
      && requestRate >= 1 && tokenRate >= 1 && maxConcurrent >= 1 && reserve >= 1 && leaseTtl >= 1
      && Cap() >= reserve && Cap() >= tokenRate
      && (waiter.Some? ==> 1 <= waiter.value.ttl <= MAX_WAITER_TTL)
    }

    /** The most the bucket may hold for this request. */
    function Cap(): nat {
      match burst
      case Some(n) => n
      case None => tokenRate
    }
  }

  const MAX_WAITER_TTL: nat := 900
  const RETRY_SLACK := 15.0

  function PositiveInt(x: real): Result<nat, ()> {
    if x < 1.0 then Err(()) else Ok(x.Floor)
  }

  function CheckBurst(burst: Option<real>, tokenRate: nat, reserve: nat): Result<Option<nat>, ()> {
    match burst
    case None => Ok(None)
    case Some(b) =>
      var n :- PositiveInt(b);
      Ok(Some(Max(Max(tokenRate, reserve), n)))
  }

  function CheckWaiter(waiter: Option<WaiterLimit>): Result<Option<Waiter>, ()> {
    match waiter
    case None => Ok(None)
    case Some(w) =>
      if w.key == "" then Ok(None)
      else
        var ttl :- PositiveInt(w.ttlSeconds);
        Ok(Some(Waiter(w.key, Min(MAX_WAITER_TTL, ttl))))
  }

  /** A rate below one request's reserve could never admit it, so without a burst the rate is raised. */
  function Check(raw: Limit): (r: Result<Ask, ()>)
    ensures r.Ok? ==> r.value.Valid()
    ensures r.Ok? ==> (r.value.burst.None? <==> raw.tokenBurst.None?)
  {
    var requestRate :- PositiveInt(raw.requestsPerMinute);
    var tpm :- PositiveInt(raw.tokensPerMinute);
    var reserve :- PositiveInt(raw.reserveTokens);
    var tokenRate := if raw.tokenBurst.None? then Max(tpm, reserve) else tpm;
    var maxConcurrent :- PositiveInt(raw.maxConcurrent);
    var ttl :- PositiveInt(raw.leaseTtlSeconds);
    var burst :- CheckBurst(raw.tokenBurst, tokenRate, reserve);
    var waiter :- CheckWaiter(raw.waiter);
    Ok(Ask(requestRate, tokenRate, burst, maxConcurrent, reserve, ttl, waiter))
  }

  // ----- rows -----

  datatype Claim = Claim(key: string, tokens: nat, since: real, expires: real)

  datatype LeaseRow = LeaseRow(reserved: nat, expires: real)

  datatype Row = Row(
    requests: real, tokens: real, requestRate: nat, tokenRate: nat, maxConcurrent: nat,
    lastRefill: real, blockedUntil: Option<real>, claim: Option<Claim>, leases: map<nat, LeaseRow>)

  predicate ValidRow(b: Row) {
    b.requestRate >= 1 && b.tokenRate >= 1 && b.maxConcurrent >= 1
  }

  /** clock_timestamp() as each statement of one reserving transaction reads it. */
  datatype Clock = Clock(upsert: real, purge: real, at: real, lease: real) {
    predicate Ordered() {
      upsert <= purge <= at <= lease
    }
  }

  function Upsert(row: Option<Row>, ask: Ask, now: real): Row {
    match row
    case None => Row(0.0, 0.0, ask.requestRate, ask.tokenRate, ask.maxConcurrent, now, None, None, map[])
    case Some(b) => b.(requestRate := ask.requestRate, tokenRate := ask.tokenRate, maxConcurrent := ask.maxConcurrent)
  }

  function Purge(b: Row, now: real): Row {
    b.(leases := map id | id in b.leases && b.leases[id].expires > now :: b.leases[id])
  }

  // ----- the locked snapshot -----

  function Refill(rate: nat, seconds: real): real {
    rate as real * seconds / 60.0
  }

  function Elapsed(b: Row, at: real): real {
    MaxR(0.0, at - b.lastRefill)
  }

  function RefillDelay(b: Row, at: real): real {
    MaxR(0.0, b.lastRefill - at)
  }

  function AvailableRequests(b: Row, at: real): real {
    MinR(b.requestRate as real, b.requests + Refill(b.requestRate, Elapsed(b, at)))
  }

  function AvailableTokens(b: Row, ask: Ask, at: real): real {
    MinR((if ask.burst.Some? then ask.burst.value else b.tokenRate) as real,
         b.tokens + Refill(b.tokenRate, Elapsed(b, at)))
  }

  predicate IsAgentKey(key: string) {
    "agent:" <= key && |key| > 6 && forall i :: 6 <= i < |key| ==> '0' <= key[i] <= '9'
  }

  /** A claim is live until it expires, and an agent's only while the agent is active on the shared pool. */
  predicate ClaimLive(b: Row, at: real, active: set<string>) {
    b.claim.Some? && b.claim.value.expires > at && (!IsAgentKey(b.claim.value.key) || b.claim.value.key in active)
  }

  /** Tokens owed to another live claim. */
  function Owed(b: Row, ask: Ask, at: real, active: set<string>): nat {
    if ask.waiter.Some? && ClaimLive(b, at, active) && b.claim.value.key != ask.waiter.value.key
    then b.claim.value.tokens else 0
  }

  function LiveLeases(b: Row, at: real): set<nat> {
    set id | id in b.leases && b.leases[id].expires > at
  }

  datatype Denial = Denial(requestBudget: bool, tokenBudget: bool, concurrency: bool, cooldown: bool) {
    predicate Any() {
      requestBudget || tokenBudget || concurrency || cooldown
    }
  }

  function Deny(b: Row, ask: Ask, at: real, active: set<string>): Denial {
    Denial(
      AvailableRequests(b, at) < 1.0,
      AvailableTokens(b, ask, at) - Owed(b, ask, at, active) as real < ask.reserve as real,
      |LiveLeases(b, at)| >= b.maxConcurrent,
      b.blockedUntil.Some? && b.blockedUntil.value > at)
  }

  /** Seconds until both budgets cover `need` tokens and one request. */
  function RefillWait(b: Row, ask: Ask, need: nat, at: real): real
    requires ValidRow(b)
  {
    RefillDelay(b, at)
    + MaxR(MaxR(0.0, (need as real - AvailableTokens(b, ask, at)) / b.tokenRate as real * 60.0),
           (1.0 - AvailableRequests(b, at)) / b.requestRate as real * 60.0)
  }

  function Ceil(x: real): int {
    -((-x).Floor)
  }

  function RetryAfterMs(b: Row, ask: Ask, at: real, active: set<string>): int
    requires ValidRow(b)
  {
    Ceil(RefillWait(b, ask, ask.reserve + Owed(b, ask, at, active), at) * 1000.0) + 1
  }

  // ----- reserve -----

  function Admit(b: Row, ask: Ask, id: nat, t: Clock, active: set<string>): Row {
    b.(requests := AvailableRequests(b, t.at) - 1.0,
       tokens := AvailableTokens(b, ask, t.at) - ask.reserve as real,
       lastRefill := t.at,
       claim := if ClaimLive(b, t.at, active) then b.claim else None,
       leases := b.leases[id := LeaseRow(ask.reserve, t.lease + ask.leaseTtl as real)])
  }

  predicate Queues(b: Row, ask: Ask, at: real, active: set<string>) {
    && ask.waiter.Some?
    && Deny(b, ask, at, active).tokenBudget
    && (!ClaimLive(b, at, active) || b.claim.value.key == ask.waiter.value.key)
  }

  /** The first wait fixes a claim's age and expiry; later denials of the claimant refresh only its need. */
  function NewClaim(b: Row, ask: Ask, at: real, active: set<string>): Claim
    requires ValidRow(b) && ask.waiter.Some?
  {
    var live := ClaimLive(b, at, active);
    Claim(ask.waiter.value.key, ask.reserve,
          if live then b.claim.value.since else at,
          if live then b.claim.value.expires
          else at + MinR(ask.waiter.value.ttl as real, RefillWait(b, ask, ask.reserve, at) + RETRY_SLACK))
  }

  /** What the caller holds of an admitted lease. */
  datatype Handle = Handle(id: nat, reserved: nat, burst: Option<nat>, waiterKey: Option<string>)

  datatype Outcome =
    | Admitted(lease: Handle)
    | Denied(why: Denial, retryAfterMs: Option<int>, claimedByOther: bool)

  function HandleOf(ask: Ask, id: nat): Handle {
    Handle(id, ask.reserve, ask.burst, if ask.waiter.Some? then Some(ask.waiter.value.key) else None)
  }

  /** The row the admission decision looks at. */
  function Snapshot(row: Option<Row>, ask: Ask, t: Clock): Row {
    Purge(Upsert(row, ask, t.upsert), t.purge)
  }

  function Reserve(row: Option<Row>, ask: Ask, id: nat, t: Clock, active: set<string>): (Row, Outcome)
    requires ask.Valid()
  {
    var b := Snapshot(row, ask, t);
    var why := Deny(b, ask, t.at, active);
    if !why.Any() then (Admit(b, ask, id, t, active), Admitted(HandleOf(ask, id)))
    else
      (if Queues(b, ask, t.at, active) then b.(claim := Some(NewClaim(b, ask, t.at, active))) else b,
       Denied(why,
              if why.concurrency || why.cooldown then None else Some(RetryAfterMs(b, ask, t.at, active)),
              Owed(b, ask, t.at, active) > 0))
  }

  // ----- release -----

  /** Reported usage counts only as a nonnegative safe integer; anything else charges the reserve. */
  function Actual(h: Handle, reported: Option<int>): nat {
    if reported.Some? && IsSafeInteger(reported.value) && reported.value >= 0 then reported.value else h.reserved
  }

  function Release(row: Option<Row>, h: Handle, reported: Option<int>, unused: bool): Option<Row> {
    if row.None? || h.id !in row.value.leases then row
    else
      var b := row.value;
      var actual := Actual(h, reported);
      var delta := b.leases[h.id].reserved - actual;
      var over := !unused && actual > 0 && h.waiterKey.Some? && b.claim.Some? && h.waiterKey.value == b.claim.value.key;
      Some(b.(
        tokens := MinR(MaxR(b.tokenRate as real, h.burst.GetOr(0) as real), b.tokens + delta as real),
        requests := MinR(b.requestRate as real, b.requests + if unused then 1.0 else 0.0),
        claim := if over then None else b.claim,
        leases := b.leases - {h.id}))
  }

  function EndClaim(row: Option<Row>, key: string): Option<Row> {
    if row.Some? && row.value.claim.Some? && row.value.claim.value.key == key
    then Some(row.value.(claim := None)) else row
  }

  // ----- the row as the source changes it -----

  class ProviderBucket {
    var row: Option<Row>

    constructor ()
      ensures row == None
    {
      row := None;
    }

    method ReserveProviderCapacity(raw: Limit, id: nat, t: Clock, active: set<string>)
      returns (out: Result<Outcome, ()>)
      modifies this
      ensures Check(raw).Err? ==> out.Err? && row == old(row)
      ensures Check(raw).Ok? ==>
                var r := Reserve(old(row), Check(raw).value, id, t, active);
                row == Some(r.0) && out == Ok(r.1)
    {
      var checked := Check(raw);
      if checked.Err? {
        return Err(());
      }
      var ask := checked.value;
      // INSERT ... ON CONFLICT DO UPDATE, then DELETE expired leases.
      var b := Upsert(row, ask, t.upsert);
      b := b.(leases := map i | i in b.leases && b.leases[i].expires > t.purge :: b.leases[i]);
      row := Some(b);
      // One locked statement decides from one snapshot.
      var requests, tokens := AvailableRequests(b, t.at), AvailableTokens(b, ask, t.at);
      var live := ClaimLive(b, t.at, active);
      var owed := Owed(b, ask, t.at, active);
      var why := Deny(b, ask, t.at, active);
      if !why.Any() {
        row := Some(b.(requests := requests - 1.0, tokens := tokens - ask.reserve as real, lastRefill := t.at,
                       claim := if live then b.claim else None));
        row := Some(row.value.(leases :=
            row.value.leases[id := LeaseRow(ask.reserve, t.lease + ask.leaseTtl as real)]));
        return Ok(Admitted(HandleOf(ask, id)));
      }
      if Queues(b, ask, t.at, active) {
        row := Some(b.(claim := Some(NewClaim(b, ask, t.at, active))));
      }
      return Ok(Denied(why,
                       if why.concurrency || why.cooldown then None else Some(RetryAfterMs(b, ask, t.at, active)),
                       owed > 0));
    }

    method ReleaseProviderCapacity(h: Handle, reported: Option<int>, unused: bool)
      modifies this
      ensures row == Release(old(row), h, reported, unused)
    {
      if row.None? || h.id !in row.value.leases {
        return;
      }
      var b := row.value;
      var actual := Actual(h, reported);
      var delta := b.leases[h.id].reserved - actual;
      b := b.(leases := b.leases - {h.id});
      b := b.(tokens := MinR(MaxR(b.tokenRate as real, h.burst.GetOr(0) as real), b.tokens + delta as real),
              requests := MinR(b.requestRate as real, b.requests + if unused then 1.0 else 0.0));
      // The claimant's turn is over only when its call consumed tokens.
      if !unused && actual > 0 && h.waiterKey.Some? && b.claim.Some? && b.claim.value.key == h.waiterKey.value {
        b := b.(claim := None);
      }
      row := Some(b);
    }

    method ReleaseOwnerClaim(key: string)
      modifies this
      ensures row == EndClaim(old(row), key)
    {
      if row.Some? && row.value.claim.Some? && row.value.claim.value.key == key {
        row := Some(row.value.(claim := None));
      }
    }
  }
}
