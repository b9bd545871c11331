/** Opt-in sizing of opening actions (capitalSizing.ts): the book, the sizer before a quote and the validator after
it. Money and prices are reals; a value the source would find missing or not finite is None. */
module CapitalSizing {
  import opened Common

  const FEE_BUFFER_BPS := 10.0
  const CENT_TOLERANCE := 0.011
  const FROZEN_RESIDUE_TOLERANCE := 0.00000001
  const EPSILON := 0.00000001
  const MINIMUM_TICKET := 10.0

  function CentsDown(n: real): real {
    (n * 100.0).Floor as real / 100.0
  }

  function Abs(x: real): real {
    if x < 0.0 then -x else x
  }

  predicate Positive(x: Option<real>) {
    x.Some? && x.value > 0.0
  }

  predicate Nonnegative(x: Option<real>) {
    x.Some? && x.value >= 0.0
  }

  // ----- policy -----

  datatype HighConviction = HighConviction(minConfidence: real, perTicketCapitalPct: real, futuresRiskPct: real)

  datatype Policy = Policy(futuresRiskPct: real, pmMaxLossPct: real, perTicketCapitalPct: real, totalCapitalPct: real,
                           cashReservePct: real, minRewardRisk: real, highConviction: Option<HighConviction>)

  predicate Percent(x: real) {
    0.0 < x <= 100.0
  }

  predicate PolicyValid(p: Policy) {
    && Percent(p.futuresRiskPct) && Percent(p.pmMaxLossPct) && Percent(p.perTicketCapitalPct)
       && Percent(p.totalCapitalPct)
    && 0.0 <= p.cashReservePct < 100.0
    && p.minRewardRisk >= 1.0
    && p.perTicketCapitalPct <= p.totalCapitalPct
    && p.totalCapitalPct + p.cashReservePct <= 100.0
    && match p.highConviction
       case None => true
       case Some(h) =>
         && 0.0 < h.minConfidence <= 1.0 && Percent(h.perTicketCapitalPct) && Percent(h.futuresRiskPct)
         && h.perTicketCapitalPct <= p.totalCapitalPct
  }

  datatype Spec = Spec(policy: Option<Policy>, mechanical: bool, perTradeMargin: real, maxOpenMargin: real)

  predicate UsesCapitalSizing(spec: Spec) {
    spec.policy.Some? && !spec.mechanical
  }

  // ----- actions, quotes, budget -----

  datatype OrderType = Market | LimitOrder | StopOrder

  /** Symbols are compared without regard to case; here they are already upper-case. */
  datatype Action =
    | FuturesOpen(symbol: string, long: bool, leverage: real, margin: real, stop: Option<real>, target: Option<real>,
                  confidence: Option<real>)
    | PmOpen(stake: real)
    | SpotOrder(buy: bool, orderType: OrderType, quantity: real, limitPrice: Option<real>, stopPrice: Option<real>)
    | OtherAction

  predicate Increases(a: Action) {
    a.FuturesOpen? || a.PmOpen? || (a.SpotOrder? && a.buy)
  }

  datatype Quote = Quote(entryPrice: Option<real>, feeBps: Option<real>, entryFee: Option<real>,
      cashRequired: Option<real>,
                         cost: Option<real>, fee: Option<real>, executionPrice: Option<real>)

  datatype Budget = Budget(cash: real, committed: real, openMargin: real)

  datatype Book =
    | Unavailable(reason: Reason)
    | Ready(walletId: int, equity: real, cashAvailable: real, committed: real)

  datatype Observation = Observation(book: Option<Book>, marks: map<string, real>)

  datatype Reason =
    | PolicyInvalid | BookUnavailable | BudgetUnavailable | AllocationExhausted | TicketBelowMinimum
        | StopOrMarkUnavailable
    | PmMaxLossExceeded | SpotRiskExceeded | CostEvidenceMissing | CostMismatch | StopTargetWrongSide | StopRiskExceeded
    | RewardRiskTooLow | TicketCapExceeded | AllocationExceeded | ReserveExceeded
    | BookScope | WalletIdentity | ValuationUnavailable | SpotUnproven | PartitionsIncomplete | ValueIncoherent
    | CoverageUnavailable | StatusUnavailable | HeldWalletUnavailable | HeldMarkUnavailable | CoverageMismatch
        | EquityNotPositive

  datatype Limits = Limits(perTicketCapitalPct: real, futuresRiskPct: real)

  /** Only a futures entry rated high enough gets the high-conviction limits. */
  function LimitsFor(p: Policy, a: Action): Limits {
    if p.highConviction.Some? && a.FuturesOpen? && a.confidence.Some?
        && a.confidence.value >= p.highConviction.value.minConfidence
    then Limits(p.highConviction.value.perTicketCapitalPct, p.highConviction.value.futuresRiskPct)
    else Limits(p.perTicketCapitalPct, p.futuresRiskPct)
  }

  function Part(equity: real, pct: real): real {
    equity * pct / 100.0
  }

  predicate BudgetKnown(equity: real, b: Budget) {
    equity > 0.0 && b.cash >= 0.0 && b.committed >= 0.0 && b.openMargin >= 0.0
  }

  function Ticket(spec: Spec, p: Policy, a: Action, equity: real): real {
    MinR(spec.perTradeMargin, Part(equity, LimitsFor(p, a).perTicketCapitalPct))
  }

  function Room(spec: Spec, p: Policy, a: Action, equity: real, b: Budget): real {
    MinR(Ticket(spec, p, a, equity),
         MinR(Part(equity, p.totalCapitalPct) - b.committed, b.cash - Part(equity, p.cashReservePct)))
  }

  // ----- before the quote -----

  datatype Prepared = Sized(action: Action) | Refused(reason: Reason)

  function RiskPerMargin(leverage: real, mark: real, stop: real): real
    requires mark > 0.0
  {
    leverage * (Abs(mark - stop) / mark + FEE_BUFFER_BPS / 10000.0 * (1.0 + stop / mark))
  }

  predicate StopUsable(a: Action, mark: Option<real>)
    requires a.FuturesOpen?
  {
    && Positive(mark) && Positive(a.stop) && a.leverage > 0.0
    && if a.long then a.stop.value < mark.value else a.stop.value > mark.value
  }

  function FuturesMargin(a: Action, spec: Spec, p: Policy, mark: real, equity: real, b: Budget): real
    requires a.FuturesOpen? && StopUsable(a, Some(mark))
  {
    var perMargin := RiskPerMargin(a.leverage, mark, a.stop.value);
    StopDistancePositive(a, mark);
    LeastMargin(Ticket(spec, p, a, equity), Part(equity, LimitsFor(p, a).futuresRiskPct), perMargin,
                spec.maxOpenMargin - b.openMargin, Room(spec, p, a, equity, b), FeeFactor(a.leverage))
  }

  /** The outlay per unit of margin when the entry fee fills its buffer. */
  function FeeFactor(leverage: real): real {
    1.0 + leverage * (FEE_BUFFER_BPS / 10000.0)
  }

  function LeastMargin(ticket: real, risk: real, perMargin: real, open: real, room: real, factor: real): real
    requires perMargin > 0.0 && factor > 0.0
  {
    CentsDown(MinR(MinR(ticket, risk / perMargin), MinR(open, room / factor)))
  }

  lemma {:induction false} StopDistancePositive(a: Action, mark: real)
    requires a.FuturesOpen? && StopUsable(a, Some(mark))
    ensures RiskPerMargin(a.leverage, mark, a.stop.value) > 0.0
    ensures FeeFactor(a.leverage) > 0.0
  {
    var d := Abs(mark - a.stop.value) / mark;
    assert d > 0.0;
    assert a.stop.value / mark > 0.0;
  }

  function PrepareFutures(a: Action, spec: Spec, p: Policy, o: Observation, equity: real, b: Budget): Prepared
    requires a.FuturesOpen?
  {
    var mark := if a.symbol in o.marks then Some(o.marks[a.symbol]) else None;
    if !StopUsable(a, mark) then Refused(StopOrMarkUnavailable)
    else
      var margin := FuturesMargin(a, spec, p, mark.value, equity, b);
      if margin < MINIMUM_TICKET then Refused(TicketBelowMinimum) else Sized(a.(margin := margin))
  }

  function PreparePm(a: Action, p: Policy, room: real, equity: real): Prepared
    requires a.PmOpen?
  {
    var stake := CentsDown(MinR(room, Part(equity, p.pmMaxLossPct)));
    if stake < MINIMUM_TICKET then Refused(TicketBelowMinimum) else Sized(PmOpen(stake))
  }

  function Prepare(a: Action, spec: Spec, o: Observation, b: Budget): Prepared {
    if !UsesCapitalSizing(spec) || !Increases(a) then Sized(a)
    else if !PolicyValid(spec.policy.value) then Refused(PolicyInvalid)
    else if o.book.None? then Refused(BookUnavailable)
    else if o.book.value.Unavailable? then Refused(o.book.value.reason)
    else
      var p, equity := spec.policy.value, o.book.value.equity;
      if !BudgetKnown(equity, b) then Refused(BudgetUnavailable)
      else
        var room := Room(spec, p, a, equity, b);
        if room <= 0.0 then Refused(AllocationExhausted)
        else
          match a
          case SpotOrder(_, _, _, _, _) => Sized(a)
          case PmOpen(_) => PreparePm(a, p, room, equity)
          case FuturesOpen(_, _, _, _, _, _, _) => PrepareFutures(a, spec, p, o, equity, b)
          case OtherAction => Sized(a)
  }

  // ----- costs -----

  function SpotBuyCost(a: Action, q: Quote): Option<real>
    requires a.SpotOrder?
  {
    match a.orderType
    case LimitOrder => if a.limitPrice.Some? then Some(a.limitPrice.value * a.quantity) else None
    case StopOrder => if a.stopPrice.Some? then Some(a.stopPrice.value * a.quantity) else None
    case Market =>
      if q.cost.Some? then q.cost
      else if q.executionPrice.Some? then Some(q.executionPrice.value * a.quantity) else None
  }

  function CapitalSpotBuyCost(a: Action, q: Quote): (cost: Option<real>)
    requires a.SpotOrder?
  {
    var gross := SpotBuyCost(a, q);
    if !Positive(gross) || !Positive(q.cost) || !Nonnegative(q.fee) then None
    else Some(gross.value + q.fee.value * MaxR(1.0, gross.value / q.cost.value))
  }

  /** None where the source has no number. */
  function CashCost(a: Action, q: Quote): Option<real> {
    match a
    case FuturesOpen(_, _, _, margin, _, _, _) => if q.cashRequired.Some? then q.cashRequired else Some(margin)
    case PmOpen(stake) => Some(stake)
    case SpotOrder(buy, _, _, _, _) => if buy then CapitalSpotBuyCost(a, q) else Some(0.0)
    case OtherAction => Some(0.0)
  }

  // ----- after the quote -----

  /** A zero risk makes the quotient infinite or not a number, which only a negative reward fails. */
  predicate RewardRiskLow(reward: real, risk: real, least: real) {
    if risk == 0.0 then reward < 0.0 else reward / risk + EPSILON < least
  }

  function FeeRate(q: Quote): real
    requires q.feeBps.Some?
  {
    q.feeBps.value / 10000.0
  }

  predicate FuturesEvidence(a: Action, q: Quote)
    requires a.FuturesOpen?
  {
    Positive(q.entryPrice) && Positive(a.stop) && Positive(a.target) && Nonnegative(q.feeBps)
        && Nonnegative(q.entryFee) && Positive(q.cashRequired)
  }

  function Adverse(a: Action, entry: real): real
    requires a.FuturesOpen? && a.stop.Some?
  {
    if a.long then entry - a.stop.value else a.stop.value - entry
  }

  function Favorable(a: Action, entry: real): real
    requires a.FuturesOpen? && a.target.Some?
  {
    if a.long then a.target.value - entry else entry - a.target.value
  }

  function StopRisk(a: Action, q: Quote): real
    requires a.FuturesOpen? && FuturesEvidence(a, q)
  {
    var notional, entry := a.margin * a.leverage, q.entryPrice.value;
    notional * Adverse(a, entry) / entry + q.entryFee.value + notional * a.stop.value / entry * FeeRate(q)
  }

  function TargetReward(a: Action, q: Quote): real
    requires a.FuturesOpen? && FuturesEvidence(a, q)
  {
    var notional, entry := a.margin * a.leverage, q.entryPrice.value;
    notional * Favorable(a, entry) / entry - q.entryFee.value - notional * a.target.value / entry * FeeRate(q)
  }

  function FuturesFault(a: Action, p: Policy, q: Quote, equity: real): Option<Reason>
    requires a.FuturesOpen?
  {
    if !FuturesEvidence(a, q) then Some(CostEvidenceMissing)
    else
      var notional, entry := a.margin * a.leverage, q.entryPrice.value;
      if Abs(q.entryFee.value - notional * FeeRate(q)) > CENT_TOLERANCE
         || Abs(q.cashRequired.value - a.margin - q.entryFee.value) > CENT_TOLERANCE then Some(CostMismatch)
      else if Adverse(a, entry) <= 0.0 || Favorable(a, entry) <= 0.0 then Some(StopTargetWrongSide)
      else if StopRisk(a, q) > Part(equity, LimitsFor(p, a).futuresRiskPct) + EPSILON then Some(StopRiskExceeded)
      else if RewardRiskLow(TargetReward(a, q), StopRisk(a, q), p.minRewardRisk) then Some(RewardRiskTooLow)
      else None
  }

  function VenueFault(a: Action, p: Policy, q: Quote, equity: real): Option<Reason> {
    match a
    case PmOpen(stake) => if stake > Part(equity, p.pmMaxLossPct) + EPSILON then Some(PmMaxLossExceeded) else None
    case SpotOrder(_, _, _, _, _) =>
      var cost := CapitalSpotBuyCost(a, q);
      if Positive(cost) && cost.value > Part(equity, p.futuresRiskPct) + EPSILON then Some(SpotRiskExceeded) else None
    case FuturesOpen(_, _, _, _, _, _, _) => FuturesFault(a, p, q, equity)
    case OtherAction => None
  }

  /** What the action is charged, and what it allocates. */
  function Costs(a: Action, q: Quote): (Option<real>, Option<real>) {
    match a
    case PmOpen(stake) => (Some(stake), Some(stake))
    case SpotOrder(_, _, _, _, _) => (CapitalSpotBuyCost(a, q), CapitalSpotBuyCost(a, q))
    case FuturesOpen(_, _, _, margin, _, _, _) => (q.cashRequired, Some(margin))
    case OtherAction => (None, None)
  }

  function CommonFault(a: Action, spec: Spec, p: Policy, q: Quote, equity: real, b: Budget): Option<Reason> {
    var (cost, placed) := Costs(a, q);
    if !Positive(cost) || !Positive(placed) then Some(CostEvidenceMissing)
    else if cost.value > Ticket(spec, p, a, equity) + EPSILON then Some(TicketCapExceeded)
    else if b.committed + cost.value > Part(equity, p.totalCapitalPct) + EPSILON then Some(AllocationExceeded)
    else if b.cash - cost.value < Part(equity, p.cashReservePct) - EPSILON then Some(ReserveExceeded)
    else None
  }

  /** None accepts. */
  function Validate(a: Action, spec: Spec, o: Observation, b: Budget, q: Quote): Option<Reason> {
    if !UsesCapitalSizing(spec) || !Increases(a) then None
    else if !PolicyValid(spec.policy.value) then Some(PolicyInvalid)
    else if o.book.None? || o.book.value.Unavailable? then Some(BookUnavailable)
    else
      var p, equity := spec.policy.value, o.book.value.equity;
      if !BudgetKnown(equity, b) then Some(BudgetUnavailable)
      else
        var fault := VenueFault(a, p, q, equity);
        if fault.Some? then fault else CommonFault(a, spec, p, q, equity, b)
  }
}
