/** Owner fairness: a waiter's claim keeps its turn (capacity.ts, sharedPolicy.ts). */
module WaiterClaim {
  import opened Common
  import opened Capacity
  import opened CapacityProofs

  /** The claim stands and its holder's need will be there at the horizon. */
  ghost predicate Protects(m: Meter, key: string, need: nat, expires: real, rate: nat, horizon: real) {
    && m.row.Some?
    && var b := m.row.value;
       (&& b.claim.Some? && b.claim.value.key == key && b.claim.value.tokens == need && b.claim.value.expires == expires
        && b.tokenRate == rate && b.lastRefill <= horizon
        && b.tokens + Refill(rate, horizon - b.lastRefill) >= need as real)
  }

  /** A step by anyone else, before the horizon: a request under its own waiter key, a release that does not
      report above its reserve and does not clamp stored tokens away, or the end of another claim. */
  ghost predicate Sibling(m: Meter, s: Step, key: string, rate: nat, horizon: real) {
    match s
    case ReserveAt(ask, id, t, active) =>
      && ask.Valid() && t.Ordered() && ask.tokenRate == rate && t.at <= horizon
      && ask.waiter.Some? && ask.waiter.value.key != key
      && (IsAgentKey(key) ==> key in active)
    case ReleaseAt(h, reported, unused, at) =>
      Reconciles(m, h) ==>
        && Actual(h, reported) <= m.row.value.leases[h.id].reserved
        && m.row.value.tokens <= MaxR(rate as real, h.burst.GetOr(0) as real)
        && h.waiterKey != Some(key)
    case EndClaimAt(k, at) => k != key
  }

  /** A sibling's admission leaves the claimant's need in the bucket. */
  lemma {:induction false} AdmissionLeavesNeed(row: Option<Row>, ask: Ask, id: nat, t: Clock, active: set<string>)
    requires ask.Valid() && ask.waiter.Some?
    requires var b := Snapshot(row, ask, t);
             ClaimLive(b, t.at, active) && b.claim.value.key != ask.waiter.value.key
    requires Reserve(row, ask, id, t, active).1.Admitted?
    ensures var b := Snapshot(row, ask, t); var after := Reserve(row, ask, id, t, active).0;
            after.tokens >= b.claim.value.tokens as real && after.claim == b.claim
  {
  }

  lemma {:induction false} SiblingKeepsClaim(
      m: Meter, s: Step, key: string, need: nat, expires: real, rate: nat, horizon: real)
    requires Protects(m, key, need, expires, rate, horizon) && Sibling(m, s, key, rate, horizon) && horizon < expires
    ensures Protects(Apply(m, s), key, need, expires, rate, horizon)
  {
    match s
    case ReserveAt(ask, id, t, active) =>
      if Reserve(m.row, ask, id, t, active).1.Admitted? {
        AdmissionLeavesNeed(m.row, ask, id, t, active);
        RefillMonotone(0, rate, 0.0, horizon - t.at);
      }
    case _ =>
  }

  ghost predicate Siblings(m: Meter, steps: seq<Step>, key: string, rate: nat, horizon: real)
    decreases |steps|
  {
    steps == []
    || (Sibling(m, steps[0], key, rate, horizon) && Siblings(Apply(m, steps[0]), steps[1..], key, rate, horizon))
  }

  function After(m: Meter, steps: seq<Step>): Meter
    requires forall i :: 0 <= i < |steps| && steps[i].ReserveAt? ==> steps[i].ask.Valid()
    decreases |steps|
  {
    if steps == [] then m else After(Apply(m, steps[0]), steps[1..])
  }

  predicate AsksValid(steps: seq<Step>) {
    forall i :: 0 <= i < |steps| && steps[i].ReserveAt? ==> steps[i].ask.Valid()
  }

  lemma {:induction false} SiblingsKeepClaim(
      m: Meter, steps: seq<Step>, key: string, need: nat, expires: real, rate: nat, horizon: real)
    requires Protects(m, key, need, expires, rate, horizon) && AsksValid(steps)
    requires Siblings(m, steps, key, rate, horizon) && horizon < expires
    ensures Protects(After(m, steps), key, need, expires, rate, horizon)
    decreases |steps|
  {
    if steps != [] {
      SiblingKeepsClaim(m, steps[0], key, need, expires, rate, horizon);
      SiblingsKeepClaim(Apply(m, steps[0]), steps[1..], key, need, expires, rate, horizon);
    }
  }

  /** A denial for tokens that makes (or leaves) its requester the claimant and carries a hint. */
  predicate DeniedWithTurn(m: Meter, s: Step) {
    && s.ReserveAt? && Enabled(m, s) && s.ask.waiter.Some?
    && var (row, out) := Reserve(m.row, s.ask, s.id, s.t, s.active);
       (out.Denied? && out.why.tokenBudget && out.retryAfterMs.Some? && !out.claimedByOther
        && row.claim.Some? && row.claim.value.key == s.ask.waiter.value.key)
  }

  function Hint(m: Meter, s: Step): real
    requires DeniedWithTurn(m, s)
  {
    Reserve(m.row, s.ask, s.id, s.t, s.active).1.retryAfterMs.value as real / 1000.0
  }

  ghost predicate Stamped(m: Meter) {
    m.row.Some? ==> m.row.value.lastRefill <= m.clock
  }

  lemma {:induction false} DenialProtects(m: Meter, s: Step, horizon: real)
    requires Stamped(m) && DeniedWithTurn(m, s)
    requires forall k :: m.row.Some? && m.row.value.claim == Some(k) ==> k.tokens > 0
    requires horizon >= s.t.at + Hint(m, s)
    ensures var m' := Apply(m, s);
            Protects(m', s.ask.waiter.value.key, s.ask.reserve, m'.row.value.claim.value.expires, s.ask.tokenRate,
                horizon)
  {
    var b := Snapshot(m.row, s.ask, s.t);
    assert Owed(b, s.ask, s.t.at, s.active) == 0;
    var wait := RefillWait(b, s.ask, s.ask.reserve, s.t.at);
    CeilIsAbove(wait * 1000.0);
    WaitCovers(b, s.ask, s.ask.reserve, s.t.at, horizon);
  }

  /** THE TURN IS KEPT: a requester denied for tokens with a claim is not denied for tokens when it returns after
      its hint and before its claim expires, whatever siblings did in between. */
  lemma {:induction false} ClaimKeepsTurn(m: Meter, denied: Step, siblings: seq<Step>, t: Clock, active: set<string>)
    requires Stamped(m) && DeniedWithTurn(m, denied) && AsksValid(siblings)
    requires forall k :: m.row.Some? && m.row.value.claim == Some(k) ==> k.tokens > 0
    requires t.at >= denied.t.at + Hint(m, denied)
    requires t.at < Apply(m, denied).row.value.claim.value.expires
    requires Siblings(Apply(m, denied), siblings, denied.ask.waiter.value.key, denied.ask.tokenRate, t.at)
    ensures var b := Snapshot(After(Apply(m, denied), siblings).row, denied.ask, t);
            !Deny(b, denied.ask, t.at, active).tokenBudget
  {
    DenialProtects(m, denied, t.at);
    var m1 := Apply(m, denied);
    SiblingsKeepClaim(m1, siblings, denied.ask.waiter.value.key, denied.ask.reserve,
                      m1.row.value.claim.value.expires, denied.ask.tokenRate, t.at);
  }

  // ----- owner buckets -----

  /** The limit of an owner bucket, as sharedOwnerLimit makes it: the burst is the reserve itself. */
  predicate OwnerAsk(ask: Ask, rate: nat) {
    ask.Valid() && ask.tokenRate == rate && ask.burst == Some(Max(rate, ask.reserve)) && ask.waiter.Some?
  }

  lemma {:induction false} OwnerLimitGivesOwnerAsk(raw: Limit)
    requires raw.tokenBurst == Some(raw.reserveTokens) && raw.waiter.Some? && raw.waiter.value.key != ""
    requires Check(raw).Ok?
    ensures OwnerAsk(Check(raw).value, Check(raw).value.tokenRate)
  {
  }

  /** A sibling step of an owner bucket: any request under another waiter key, any release of another's lease at or
      below its reserve, the end of another claim. The clock readings of a request are only ordered. */
  ghost predicate OwnerSibling(m: Meter, s: Step, key: string, rate: nat, horizon: real) {
    match s
    case ReserveAt(ask, id, t, active) =>
      && OwnerAsk(ask, rate) && t.Ordered() && t.at <= horizon
      && ask.waiter.value.key != key && (IsAgentKey(key) ==> key in active) && id !in m.issued
    case ReleaseAt(h, reported, unused, at) =>
      && h.id in m.issued && m.issued[h.id] == h && h.waiterKey != Some(key)
      && (Reconciles(m, h) ==> Actual(h, reported) <= m.row.value.leases[h.id].reserved)
    case EndClaimAt(k, at) => k != key
  }

  ghost predicate OwnerSiblings(m: Meter, steps: seq<Step>, key: string, rate: nat, horizon: real)
    decreases |steps|
  {
    steps == []
    || (OwnerSibling(m, steps[0], key, rate, horizon)
        && OwnerSiblings(Apply(m, steps[0]), steps[1..], key, rate, horizon))
  }

  /** The lease rows of a bucket are leases that were issued, with the reserve they were issued for. */
  ghost predicate LeasesIssued(m: Meter) {
    m.row.Some? ==> forall id :: id in m.row.value.leases ==>
                      id in m.issued && m.issued[id].id == id
                          && m.issued[id].reserved == m.row.value.leases[id].reserved
  }

  /** What a release of this lease leaves at least, if it refunds nothing. */
  function Clamped(tokens: real, rate: nat, h: Handle): real {
    MinR(tokens, MaxR(rate as real, h.burst.GetOr(0) as real))
  }

  /** No lease of another that is still in the table could clamp the stored tokens below what the need takes. */
  ghost predicate ClampsSpare(m: Meter, key: string, need: nat, rate: nat, horizon: real) {
    m.row.Some? ==> forall id :: id in m.row.value.leases && id in m.issued && m.issued[id].waiterKey != Some(key) ==>
                      Clamped(m.row.value.tokens, rate, m.issued[id])
                      + Refill(rate, horizon - m.row.value.lastRefill) >= need as real
  }

  ghost predicate OwnerProtects(m: Meter, key: string, need: nat, expires: real, rate: nat, horizon: real) {
    Protects(m, key, need, expires, rate, horizon) && LeasesIssued(m) && ClampsSpare(m, key, need, rate, horizon)
  }

  /** An admission under an owner limit leaves at most the rate stored, which no clamp takes away. */
  lemma {:induction false} OwnerAdmissionLeavesRate(row: Option<Row>, ask: Ask, id: nat, t: Clock, active: set<string>)
    requires ask.Valid() && ask.burst == Some(Max(ask.tokenRate, ask.reserve))
    requires Reserve(row, ask, id, t, active).1.Admitted?
    ensures Reserve(row, ask, id, t, active).0.tokens <= ask.tokenRate as real
  {
  }

  lemma {:induction false} OwnerReserveKeepsClaim(
      m: Meter, s: Step, key: string, need: nat, expires: real, rate: nat, horizon: real)
    requires OwnerProtects(m, key, need, expires, rate, horizon) && horizon < expires
    requires s.ReserveAt? && OwnerSibling(m, s, key, rate, horizon)
    ensures OwnerProtects(Apply(m, s), key, need, expires, rate, horizon)
  {
    SiblingKeepsClaim(m, s, key, need, expires, rate, horizon);
    if Reserve(m.row, s.ask, s.id, s.t, s.active).1.Admitted? {
      AdmissionLeavesNeed(m.row, s.ask, s.id, s.t, s.active);
      OwnerAdmissionLeavesRate(m.row, s.ask, s.id, s.t, s.active);
      RefillMonotone(0, rate, 0.0, horizon - s.t.at);
    }
  }

  lemma {:induction false} OwnerReleaseKeepsClaim(
      m: Meter, s: Step, key: string, need: nat, expires: real, rate: nat, horizon: real)
    requires OwnerProtects(m, key, need, expires, rate, horizon)
    requires s.ReleaseAt? && OwnerSibling(m, s, key, rate, horizon)
    ensures OwnerProtects(Apply(m, s), key, need, expires, rate, horizon)
  {
    if Reconciles(m, s.h) {
      var tokens, after := m.row.value.tokens, Apply(m, s).row.value.tokens;
      assert after >= Clamped(tokens, rate, s.h);
    }
  }

  lemma {:induction false} OwnerStepKeepsClaim(
      m: Meter, s: Step, key: string, need: nat, expires: real, rate: nat, horizon: real)
    requires OwnerProtects(m, key, need, expires, rate, horizon) && horizon < expires
    requires OwnerSibling(m, s, key, rate, horizon)
    ensures OwnerProtects(Apply(m, s), key, need, expires, rate, horizon)
  {
    match s
    case ReserveAt(_, _, _, _) => OwnerReserveKeepsClaim(m, s, key, need, expires, rate, horizon);
    case ReleaseAt(_, _, _, _) => OwnerReleaseKeepsClaim(m, s, key, need, expires, rate, horizon);
    case EndClaimAt(_, _) =>
  }

  lemma {:induction false} OwnerRunKeepsClaim(
      m: Meter, steps: seq<Step>, key: string, need: nat, expires: real, rate: nat, horizon: real)
    requires OwnerProtects(m, key, need, expires, rate, horizon) && horizon < expires
    requires OwnerSiblings(m, steps, key, rate, horizon) && AsksValid(steps)
    ensures OwnerProtects(After(m, steps), key, need, expires, rate, horizon)
    decreases |steps|
  {
    if steps != [] {
      OwnerStepKeepsClaim(m, steps[0], key, need, expires, rate, horizon);
      OwnerRunKeepsClaim(Apply(m, steps[0]), steps[1..], key, need, expires, rate, horizon);
    }
  }

  lemma {:induction false} OwnerAsksValid(m: Meter, steps: seq<Step>, key: string, rate: nat, horizon: real)
    requires OwnerSiblings(m, steps, key, rate, horizon)
    ensures AsksValid(steps)
    decreases |steps|
  {
    if steps != [] {
      OwnerAsksValid(Apply(m, steps[0]), steps[1..], key, rate, horizon);
      forall i | 0 <= i < |steps| && steps[i].ReserveAt? ensures steps[i].ask.Valid() {
        if i > 0 {
          assert steps[i] == steps[1..][i - 1];
        }
      }
    }
  }

  /** The claimant comes back: is it denied for tokens again? */
  ghost predicate DeniedAgain(m: Meter, siblings: seq<Step>, ask: Ask, t: Clock, active: set<string>)
    requires AsksValid(siblings)
  {
    Deny(Snapshot(After(m, siblings).row, ask, t), ask, t.at, active).tokenBudget
  }

  /** Every sibling run keeps the turn of a requester that returns at `t`. */
  ghost predicate TurnKept(m: Meter, ask: Ask, t: Clock, active: set<string>)
    requires ask.waiter.Some?
  {
    forall siblings :: OwnerSiblings(m, siblings, ask.waiter.value.key, ask.tokenRate, t.at) ==>
                         AsksValid(siblings) && !DeniedAgain(m, siblings, ask, t, active)
  }

  /** A requester that was denied for tokens, took or kept the claim, and comes back at `t`: after its hint and
      before its claim expires. */
  ghost predicate Returns(m: Meter, denied: Step, t: Clock) {
    && Stamped(m) && DeniedWithTurn(m, denied) && LeasesIssued(m)
    && (forall k :: m.row.Some? && m.row.value.claim == Some(k) ==> k.tokens > 0)
    && denied.t.at + Hint(m, denied) <= t.at < Apply(m, denied).row.value.claim.value.expires
  }

  lemma {:induction false} ClampBreaksTurn(m: Meter, ask: Ask, t: Clock, active: set<string>, id: nat)
    requires m.row.Some? && LeasesIssued(m) && ask.waiter.Some? && ask.Valid() && m.row.value.tokenRate == ask.tokenRate
    requires m.row.value.lastRefill <= t.at
    requires id in m.row.value.leases && m.issued[id].waiterKey != Some(ask.waiter.value.key)
    requires Clamped(m.row.value.tokens, ask.tokenRate, m.issued[id])
             + Refill(ask.tokenRate, t.at - m.row.value.lastRefill) < ask.reserve as real
    ensures !TurnKept(m, ask, t, active)
  {
    var s := ReleaseAt(m.issued[id], None, false, t.at);
    var steps := [s];
    assert OwnerSiblings(Apply(m, s), steps[1..], ask.waiter.value.key, ask.tokenRate, t.at);
    assert OwnerSiblings(m, steps, ask.waiter.value.key, ask.tokenRate, t.at);
    assert After(Apply(m, s), steps[1..]) == Apply(m, s);
    assert DeniedAgain(m, steps, ask, t, active);
  }

  lemma {:induction false} DeniedState(m: Meter, denied: Step, t: Clock)
    requires Returns(m, denied, t)
    ensures var m1, ask := Apply(m, denied), denied.ask;
            && Protects(m1, ask.waiter.value.key, ask.reserve, m1.row.value.claim.value.expires, ask.tokenRate, t.at)
            && LeasesIssued(m1)
  {
    DenialProtects(m, denied, t.at);
  }

  /** OWNER BUCKETS, with any number of slots and any clock readings: the turn of a denied requester is kept against
      every sibling run exactly when no other lease still in the table could clamp the stored tokens below its need. */
  lemma {:induction false} OwnerTurnExactly(m: Meter, denied: Step, t: Clock, active: set<string>)
    requires Returns(m, denied, t)
    ensures var m1, ask := Apply(m, denied), denied.ask;
            TurnKept(m1, ask, t, active) <==>
            ClampsSpare(m1, ask.waiter.value.key, ask.reserve, ask.tokenRate, t.at)
  {
    var m1, ask, key := Apply(m, denied), denied.ask, denied.ask.waiter.value.key;
    DeniedState(m, denied, t);
    if ClampsSpare(m1, key, ask.reserve, ask.tokenRate, t.at) {
      forall siblings | OwnerSiblings(m1, siblings, key, ask.tokenRate, t.at)
        ensures AsksValid(siblings) && !DeniedAgain(m1, siblings, ask, t, active)
      {
        OwnerAsksValid(m1, siblings, key, ask.tokenRate, t.at);
        OwnerRunKeepsClaim(m1, siblings, key, ask.reserve, m1.row.value.claim.value.expires, ask.tokenRate, t.at);
      }
    } else {
      var id :| id in m1.row.value.leases && id in m1.issued && m1.issued[id].waiterKey != Some(key)
                && !(Clamped(m1.row.value.tokens, ask.tokenRate, m1.issued[id])
                     + Refill(ask.tokenRate, t.at - m1.row.value.lastRefill) >= ask.reserve as real);
      ClampBreaksTurn(m1, ask, t, active, id);
    }
  }

  lemma {:induction false} NoLiveLease(b: Row, at: real)
    requires |LiveLeases(b, at)| < 1
    requires forall id :: id in b.leases ==> b.leases[id].expires > at
    ensures b.leases == map[]
  {
    assert LiveLeases(b, at) == b.leases.Keys;
    assert b.leases.Keys == {};
  }

  /** The turn is kept whenever at most the rate is stored at the denial; and, with the one slot of an owner bucket,
      whenever no lease expired between the denial's purge and its check. */
  lemma {:induction false} OwnerClaimKeepsTurn(m: Meter, denied: Step, t: Clock, active: set<string>)
    requires Returns(m, denied, t)
    requires
      var b := Snapshot(m.row, denied.ask, denied.t);
      || b.tokens <= denied.ask.tokenRate as real
      || (denied.ask.maxConcurrent == 1 && forall id :: id in b.leases ==> b.leases[id].expires > denied.t.at)
    ensures TurnKept(Apply(m, denied), denied.ask, t, active)
  {
    var b, ask := Snapshot(m.row, denied.ask, denied.t), denied.ask;
    DeniedState(m, denied, t);
    OwnerTurnExactly(m, denied, t, active);
    if b.tokens > ask.tokenRate as real {
      NoLiveLease(b, denied.t.at);
    }
  }

  lemma {:induction false} StepKeepsIssued(m: Meter, s: Step)
    requires LeasesIssued(m) && Enabled(m, s)
    ensures LeasesIssued(Apply(m, s))
  {
  }

  /** The table of a bucket only ever holds issued leases, whatever is done to it. */
  lemma {:induction false} RunKeepsIssued(m: Meter, steps: seq<Step>, rate: nat, cap: nat)
    requires LeasesIssued(m) && Legal(m, steps, rate, cap)
    ensures LeasesIssued(Run(m, steps, rate, cap))
    decreases |steps|
  {
    if steps != [] {
      StepKeepsIssued(m, steps[0]);
      RunKeepsIssued(Apply(m, steps[0]), steps[1..], rate, cap);
    }
  }

  // ----- the claim is bounded -----

  /** A claim of `key` that began at `since` and expires at `expires`. */
  predicate Stands(m: Meter, key: string, since: real, expires: real) {
    && m.row.Some? && m.row.value.claim.Some?
    && var c := m.row.value.claim.value; (c.key == key && c.since == since && c.expires == expires)
  }

  /** A step that finds the claim live and does not end it: no release that used tokens under its key, and no end of
      the claim by its holder. Its holder may ask again. */
  ghost predicate WhileLive(m: Meter, s: Step, key: string, expires: real) {
    match s
    case ReserveAt(ask, _, t, active) => ask.Valid() && t.at < expires && (IsAgentKey(key) ==> key in active)
    case ReleaseAt(h, reported, unused, _) => unused || h.waiterKey != Some(key) || Actual(h, reported) == 0
    case EndClaimAt(k, _) => k != key
  }

  ghost predicate RunWhileLive(m: Meter, steps: seq<Step>, key: string, expires: real)
    decreases |steps|
  {
    steps == [] || (WhileLive(m, steps[0], key, expires) && RunWhileLive(Apply(m, steps[0]), steps[1..], key, expires))
  }

  lemma {:induction false} StepKeepsClaim(m: Meter, s: Step, key: string, since: real, expires: real)
    requires Stands(m, key, since, expires) && WhileLive(m, s, key, expires)
    ensures Stands(Apply(m, s), key, since, expires)
  {
    if s.ReserveAt? {
      assert ClaimLive(Snapshot(m.row, s.ask, s.t), s.t.at, s.active);
    }
  }

  lemma {:induction false} RunKeepsClaim(m: Meter, steps: seq<Step>, key: string, since: real, expires: real)
    requires Stands(m, key, since, expires) && RunWhileLive(m, steps, key, expires) && AsksValid(steps)
    ensures Stands(After(m, steps), key, since, expires)
    decreases |steps|
  {
    if steps != [] {
      StepKeepsClaim(m, steps[0], key, since, expires);
      RunKeepsClaim(Apply(m, steps[0]), steps[1..], key, since, expires);
    }
  }

  /** A claim begins at the denial that made it and expires after at most the time to live that was asked; for as long
      as it is live, over any run that does not end it, nobody takes it over and neither instant moves, however often
      its holder is denied again. */
  lemma {:induction false} ClaimNeverMoves(m: Meter, denied: Step, steps: seq<Step>)
    requires DeniedWithTurn(m, denied) && !ClaimLive(Snapshot(m.row, denied.ask, denied.t), denied.t.at, denied.active)
    requires AsksValid(steps)
    requires RunWhileLive(Apply(m, denied), steps, denied.ask.waiter.value.key,
                          Apply(m, denied).row.value.claim.value.expires)
    ensures var first := Apply(m, denied).row.value.claim.value;
            && first.since == denied.t.at
            && first.expires <= denied.t.at + denied.ask.waiter.value.ttl as real
            && Stands(After(Apply(m, denied), steps), first.key, denied.t.at, first.expires)
  {
    var m1 := Apply(m, denied);
    var first := m1.row.value.claim.value;
    RunKeepsClaim(m1, steps, first.key, first.since, first.expires);
  }

  // ----- a turn lost under owner limits -----

  // An owner bucket refilled at one token a second, with one slot: P asks for 200, B for 50 and A for 1200.
  const ASK_P := Ask(60, 60, Some(200), 1, 200, 900, Some(Waiter("agent:3", 135)))
  const ASK_B := Ask(60, 60, Some(60), 1, 50, 900, Some(Waiter("agent:2", 135)))
  const ASK_A := Ask(60, 60, Some(1200), 1, 1200, 900, Some(Waiter("agent:1", 135)))
  const AGENTS := {"agent:1", "agent:2", "agent:3"}

  const CREATE := ReserveAt(ASK_P, 0, At(0.0), AGENTS)
  const ADMIT_P := ReserveAt(ASK_P, 1, At(600.0), AGENTS)
  const ADMIT_B := ReserveAt(ASK_B, 2, Clock(1499.0, 1499.0, 1500.0, 1500.0), AGENTS)
  const RELEASE_P := ReleaseAt(HandleOf(ASK_P, 1), Some(0), false, 1600.0)
  const DENY_A := ReserveAt(ASK_A, 3, Clock(2399.0, 2399.0, 2400.0, 2400.0), AGENTS)
  const RELEASE_B := ReleaseAt(HandleOf(ASK_B, 2), Some(50), false, 2401.0)
  const RETURN_A := At(2501.0)

  const CLAIM_P := Claim("agent:3", 200, 0.0, 135.0)
  const CLAIM_A := Claim("agent:1", 1200, 2400.0, 2515.0)
  const LEASE_P := LeaseRow(200, 1500.0)
  const LEASE_B := LeaseRow(50, 2400.0)

  const ROW_0 := Row(0.0, 0.0, 60, 60, 1, 0.0, None, Some(CLAIM_P), map[])
  const ROW_P := Row(59.0, 0.0, 60, 60, 1, 600.0, None, None, map[1 := LEASE_P])
  const ROW_B := Row(59.0, 10.0, 60, 60, 1, 1500.0, None, None, map[1 := LEASE_P, 2 := LEASE_B])
  const ROW_R := Row(59.0, 200.0, 60, 60, 1, 1500.0, None, None, map[2 := LEASE_B])
  const ROW_A := Row(59.0, 200.0, 60, 60, 1, 1500.0, None, Some(CLAIM_A), map[2 := LEASE_B])
  const ROW_CLAMPED := Row(59.0, 60.0, 60, 60, 1, 1500.0, None, Some(CLAIM_A), map[])

  const ISSUED_P := map[1 := HandleOf(ASK_P, 1)]
  const ISSUED := map[1 := HandleOf(ASK_P, 1), 2 := HandleOf(ASK_B, 2)]

  const METER_0 := Meter(Some(ROW_0), 0, 0.0, 0.0, map[])
  const METER_P := Meter(Some(ROW_P), 200, 0.0, 600.0, ISSUED_P)
  const METER_B := Meter(Some(ROW_B), 250, 0.0, 1500.0, ISSUED)
  const METER_R := Meter(Some(ROW_R), 50, 0.0, 1600.0, ISSUED)
  const METER_A := Meter(Some(ROW_A), 50, 0.0, 2400.0, ISSUED)
  const METER_CLAMPED := Meter(Some(ROW_CLAMPED), 50, 0.0, 2401.0, ISSUED)

  lemma {:induction false} StepCreate()
    ensures Goes(Start, CREATE, METER_0)
  {
    var b := Row(0.0, 0.0, 60, 60, 1, 0.0, None, None, map[]);
    assert Snapshot(None, ASK_P, At(0.0)) == b;
    assert AvailableTokens(b, ASK_P, 0.0) == 0.0 && AvailableRequests(b, 0.0) == 0.0;
    assert RefillWait(b, ASK_P, 200, 0.0) == 200.0;
  }

  lemma {:induction false} StepAdmitP()
    ensures Goes(METER_0, ADMIT_P, METER_P)
  {
    assert Snapshot(Some(ROW_0), ASK_P, At(600.0)) == ROW_0;
    assert LiveLeases(ROW_0, 600.0) == {};
    assert AvailableTokens(ROW_0, ASK_P, 600.0) == 200.0 && AvailableRequests(ROW_0, 600.0) == 60.0;
  }

  lemma {:induction false} StepAdmitB()
    ensures Goes(METER_P, ADMIT_B, METER_B)
  {
    assert Snapshot(Some(ROW_P), ASK_B, ADMIT_B.t) == ROW_P;
    assert LiveLeases(ROW_P, 1500.0) == {};
    assert AvailableTokens(ROW_P, ASK_B, 1500.0) == 60.0 && AvailableRequests(ROW_P, 1500.0) == 60.0;
  }

  lemma {:induction false} StepReleaseP()
    ensures Goes(METER_B, RELEASE_P, METER_R)
  {
    assert map[1 := LEASE_P, 2 := LEASE_B] - {1} == map[2 := LEASE_B];
  }

  lemma {:induction false} DenialOfA()
    ensures Snapshot(Some(ROW_R), ASK_A, DENY_A.t) == ROW_R
    ensures Deny(ROW_R, ASK_A, 2400.0, AGENTS) == Denial(false, true, false, false)
    ensures Owed(ROW_R, ASK_A, 2400.0, AGENTS) == 0 && !ClaimLive(ROW_R, 2400.0, AGENTS)
  {
    assert Snapshot(Some(ROW_R), ASK_A, DENY_A.t).leases == ROW_R.leases;
    assert LiveLeases(ROW_R, 2400.0) == {};
    assert AvailableTokens(ROW_R, ASK_A, 2400.0) == 1100.0 && AvailableRequests(ROW_R, 2400.0) == 60.0;
  }

  lemma {:induction false} WaitOfA()
    ensures RefillWait(ROW_R, ASK_A, 1200, 2400.0) == 100.0
  {
    assert AvailableTokens(ROW_R, ASK_A, 2400.0) == 1100.0 && AvailableRequests(ROW_R, 2400.0) == 60.0;
  }

  lemma {:induction false} StepDenyA()
    ensures Goes(METER_R, DENY_A, METER_A) && DeniedWithTurn(METER_R, DENY_A) && Hint(METER_R, DENY_A) <= 100.001
  {
    DenialOfA();
    WaitOfA();
    assert NewClaim(ROW_R, ASK_A, 2400.0, AGENTS) == CLAIM_A;
  }

  lemma {:induction false} StepReleaseB()
    ensures Goes(METER_A, RELEASE_B, METER_CLAMPED)
  {
    assert map[2 := LEASE_B] - {2} == map[];
  }

  lemma {:induction false} ReturnOfA()
    ensures Deny(Snapshot(METER_CLAMPED.row, ASK_A, RETURN_A), ASK_A, 2501.0, AGENTS).tokenBudget
  {
    assert Snapshot(Some(ROW_CLAMPED), ASK_A, RETURN_A).tokens == 60.0;
    assert AvailableTokens(Snapshot(Some(ROW_CLAMPED), ASK_A, RETURN_A), ASK_A, 2501.0) == 1061.0;
  }

  /** Under limits an owner bucket really has, with its one slot, the turn can be lost when two leases in a row expire
      between the purge and the check of the request after them: P's late refund lifts the store above the rate, and
      B's release, after A's denial, clamps it to B's smaller cap. A is back after its hint, before its claim expires,
      and is denied for tokens again. */
  lemma {:induction false} LeftoverLeaseLosesTheTurn()
    ensures OwnerAsk(ASK_P, 60) && OwnerAsk(ASK_B, 60) && OwnerAsk(ASK_A, 60)
    ensures Goes(Start, CREATE, METER_0) && Goes(METER_0, ADMIT_P, METER_P) && Goes(METER_P, ADMIT_B, METER_B)
    ensures Goes(METER_B, RELEASE_P, METER_R) && Goes(METER_R, DENY_A, METER_A)
              && Goes(METER_A, RELEASE_B, METER_CLAMPED)
    ensures Returns(METER_R, DENY_A, RETURN_A)
    ensures Deny(Snapshot(METER_CLAMPED.row, ASK_A, RETURN_A), ASK_A, RETURN_A.at, AGENTS).tokenBudget
  {
    StepCreate();
    StepAdmitP();
    StepAdmitB();
    StepReleaseP();
    StepDenyA();
    StepReleaseB();
    ReturnOfA();
    assert Apply(METER_R, DENY_A) == METER_A;
  }
}
