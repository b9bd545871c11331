/** The sizer and the validator agree, and accepted actions stay inside the policy. */
module CapitalProofs {
  import opened Common
  import opened CapitalSizing

  // ----- arithmetic -----

  lemma {:induction false} CentsDownBelow(n: real)
    ensures CentsDown(n) <= n
  {
    var f := (n * 100.0).Floor as real;
    assert f <= n * 100.0;
  }

  lemma {:induction false} MulUp(a: real, b: real, c: real)
    requires a <= b && c >= 0.0
    ensures a * c <= b * c
  {
    assert (b - a) * c >= 0.0;
  }

  /** A quotient at least as large as `m` leaves room for `m` times the divisor. */
  lemma {:induction false} FitsQuotient(m: real, total: real, d: real)
    requires d > 0.0 && m <= total / d
    ensures m * d <= total
  {
    MulUp(m, total / d, d);
    assert total / d * d == total;
  }

  // ----- a sized futures entry -----

  /** The quote fills at the mark at no more than the buffer's rate, and its cost fields agree as far as the validator
      asks: to the cent. */
  predicate QuoteAtMark(a: Action, mark: real, q: Quote)
    requires a.FuturesOpen?
  {
    && q.entryPrice == Some(mark) && q.feeBps.Some? && 0.0 <= q.feeBps.value <= FEE_BUFFER_BPS
    && Nonnegative(q.entryFee) && Positive(q.cashRequired)
    && Abs(q.entryFee.value - a.margin * a.leverage * FeeRate(q)) <= CENT_TOLERANCE
    && Abs(q.cashRequired.value - a.margin - q.entryFee.value) <= CENT_TOLERANCE
  }

  /** The entry fee the sizer allowed for. */
  function BufferFee(a: Action): real
    requires a.FuturesOpen?
  {
    a.margin * a.leverage * (FEE_BUFFER_BPS / 10000.0)
  }

  /** Rounding left the fee and the outlay within what the sizer allowed for. */
  predicate WithinBuffer(a: Action, q: Quote)
    requires a.FuturesOpen?
  {
    && q.entryFee.Some? && q.entryFee.value <= BufferFee(a)
    && q.cashRequired.Some? && q.cashRequired.value <= a.margin + BufferFee(a)
  }

  lemma {:induction false} StopRiskIs(a: Action, q: Quote, mark: real)
    requires a.FuturesOpen? && StopUsable(a, Some(mark)) && FuturesEvidence(a, q) && q.entryPrice == Some(mark)
    ensures StopRisk(a, q) ==
            a.margin * a.leverage * (Abs(mark - a.stop.value) / mark) + q.entryFee.value
            + a.margin * a.leverage * (a.stop.value / mark) * FeeRate(q)
  {
    var n, s := a.margin * a.leverage, a.stop.value;
    assert Adverse(a, mark) == Abs(mark - s);
    assert n * Abs(mark - s) / mark == n * (Abs(mark - s) / mark);
    assert n * s / mark == n * (s / mark);
  }

  /** What the sizer knows when it lets a futures entry through. */
  ghost predicate SizingContext(a: Action, spec: Spec, o: Observation, b: Budget) {
    && a.FuturesOpen? && UsesCapitalSizing(spec) && PolicyValid(spec.policy.value)
    && o.book.Some? && o.book.value.Ready? && BudgetKnown(o.book.value.equity, b)
    && a.symbol in o.marks && StopUsable(a, Some(o.marks[a.symbol]))
    && Room(spec, spec.policy.value, a, o.book.value.equity, b) > 0.0
  }

  lemma {:induction false} SizedMeans(a: Action, spec: Spec, o: Observation, b: Budget, s: Action)
    requires a.FuturesOpen? && UsesCapitalSizing(spec) && Prepare(a, spec, o, b) == Sized(s)
    ensures SizingContext(a, spec, o, b)
    ensures s == a.(margin := s.margin) && s.margin >= MINIMUM_TICKET
    ensures s.margin == FuturesMargin(a, spec, spec.policy.value, o.marks[a.symbol], o.book.value.equity, b)
  {
  }

  /** The sized margin fits the ticket, the stop-risk budget, the open-margin limit and the room left. */
  lemma {:induction false} MarginFits(a: Action, spec: Spec, p: Policy, mark: real, equity: real, b: Budget)
    requires a.FuturesOpen? && StopUsable(a, Some(mark))
    ensures RiskPerMargin(a.leverage, mark, a.stop.value) > 0.0 && FeeFactor(a.leverage) > 0.0
    ensures var m := FuturesMargin(a, spec, p, mark, equity, b);
            && m <= Ticket(spec, p, a, equity) && b.openMargin + m <= spec.maxOpenMargin
            && m <= Part(equity, LimitsFor(p, a).futuresRiskPct) / RiskPerMargin(a.leverage, mark, a.stop.value)
            && m <= Room(spec, p, a, equity, b) / FeeFactor(a.leverage)
  {
    StopDistancePositive(a, mark);
    LeastFits(Ticket(spec, p, a, equity), Part(equity, LimitsFor(p, a).futuresRiskPct),
              RiskPerMargin(a.leverage, mark, a.stop.value), spec.maxOpenMargin - b.openMargin,
              Room(spec, p, a, equity, b), FeeFactor(a.leverage));
  }

  lemma {:induction false} LeastFits(ticket: real, risk: real, per: real, open: real, room: real, factor: real)
    requires per > 0.0 && factor > 0.0
    ensures var m := LeastMargin(ticket, risk, per, open, room, factor);
            m <= ticket && m <= risk / per && m <= open && m <= room / factor
  {
    CentsDownBelow(MinR(MinR(ticket, risk / per), MinR(open, room / factor)));
  }

  lemma {:induction false} BufferFitsRoom(m: real, leverage: real, room: real)
    requires FeeFactor(leverage) > 0.0 && m <= room / FeeFactor(leverage)
    ensures m + m * leverage * (FEE_BUFFER_BPS / 10000.0) <= room
  {
    FitsQuotient(m, room, FeeFactor(leverage));
    assert m * FeeFactor(leverage) == m + m * leverage * (FEE_BUFFER_BPS / 10000.0);
  }

  lemma {:induction false} RiskPerMarginIs(leverage: real, mark: real, stop: real)
    requires mark > 0.0
    ensures RiskPerMargin(leverage, mark, stop) ==
            leverage * (Abs(mark - stop) / mark + FEE_BUFFER_BPS / 10000.0 * (1.0 + stop / mark))
  {
  }

  /** Charging the exit fee at the buffer's rate, and the entry fee as the buffer's, costs at least as much. */
  lemma {:induction false} BufferCoversRisk(
      m: real, l: real, d: real, t: real, r: real, buffer: real, fee: real, x: real)
    requires m >= 0.0 && l >= 0.0 && t >= 0.0 && r <= buffer && fee <= m * l * buffer + x
    ensures m * l * d + fee + m * l * t * r <= m * (l * (d + buffer * (1.0 + t))) + x
  {
    var n := m * l;
    assert n >= 0.0;
    assert n * t >= 0.0;
    MulUp(r, buffer, n * t);
    var e := d + buffer * (1.0 + t);
    assert m * (l * e) == n * e;
    assert n * e == n * d + n * buffer + n * t * buffer;
  }

  /** What the sizer's risk per margin allows for a margin, before anything is known of its budget. */
  lemma {:induction false} StopRiskBound(s: Action, q: Quote, mark: real, x: real)
    requires s.FuturesOpen? && StopUsable(s, Some(mark)) && FuturesEvidence(s, q) && q.entryPrice == Some(mark)
    requires FeeRate(q) <= FEE_BUFFER_BPS / 10000.0 && s.margin >= 0.0 && q.entryFee.value <= BufferFee(s) + x
    ensures StopRisk(s, q) <= s.margin * RiskPerMargin(s.leverage, mark, s.stop.value) + x
  {
    assert s.stop.value / mark > 0.0;
    StopRiskIs(s, q, mark);
    RiskPerMarginIs(s.leverage, mark, s.stop.value);
    BufferCoversRisk(s.margin, s.leverage, Abs(mark - s.stop.value) / mark, s.stop.value / mark, FeeRate(q),
                     FEE_BUFFER_BPS / 10000.0, q.entryFee.value, x);
  }

  lemma {:induction false} RiskChain(m: real, per: real, budget: real, risk: real, x: real)
    requires per > 0.0 && m <= budget / per && risk <= m * per + x
    ensures risk <= budget + x
  {
    FitsQuotient(m, budget, per);
  }

  /** A fee at most `x` above the buffer's lifts the stop risk at most `x` above its budget. */
  lemma {:induction false} RiskFitsBudget(s: Action, q: Quote, mark: real, riskBudget: real, x: real)
    requires s.FuturesOpen? && StopUsable(s, Some(mark)) && FuturesEvidence(s, q) && q.entryPrice == Some(mark)
    requires FeeRate(q) <= FEE_BUFFER_BPS / 10000.0 && s.margin >= 0.0 && q.entryFee.value <= BufferFee(s) + x
    requires RiskPerMargin(s.leverage, mark, s.stop.value) > 0.0
    requires s.margin <= riskBudget / RiskPerMargin(s.leverage, mark, s.stop.value)
    ensures StopRisk(s, q) <= riskBudget + x
  {
    StopRiskBound(s, q, mark, x);
    RiskChain(s.margin, RiskPerMargin(s.leverage, mark, s.stop.value), riskBudget, StopRisk(s, q), x);
  }

  lemma {:induction false} RateInBuffer(s: Action, mark: real, q: Quote)
    requires s.FuturesOpen? && StopUsable(s, Some(mark)) && QuoteAtMark(s, mark, q)
    ensures 0.0 <= FeeRate(q) <= FEE_BUFFER_BPS / 10000.0 && s.leverage > 0.0 && s.stop.value / mark > 0.0
  {
  }

  /** A quote that agrees to the cent is at most one cent above the buffer in its fee and two in its outlay. */
  lemma {:induction false} CentsAboveBuffer(s: Action, mark: real, q: Quote)
    requires s.FuturesOpen? && StopUsable(s, Some(mark)) && QuoteAtMark(s, mark, q) && s.margin >= 0.0
    ensures q.entryFee.value <= BufferFee(s) + CENT_TOLERANCE
    ensures q.cashRequired.value <= s.margin + BufferFee(s) + 2.0 * CENT_TOLERANCE
  {
    RateInBuffer(s, mark, q);
    var n := s.margin * s.leverage;
    assert n >= 0.0;
    MulUp(FeeRate(q), FEE_BUFFER_BPS / 10000.0, n);
  }

  lemma {:induction false} RoomCoversCommon(
      s: Action, spec: Spec, p: Policy, q: Quote, equity: real, b: Budget, cost: real)
    requires Costs(s, q).0 == Some(cost) && Positive(Costs(s, q).1) && 0.0 < cost <= Room(spec, p, s, equity, b)
    ensures CommonFault(s, spec, p, q, equity, b) == None
  {
  }

  lemma {:induction false} RoomKeepsMargin(a: Action, s: Action, spec: Spec, p: Policy, equity: real, b: Budget)
    requires a.FuturesOpen? && s.FuturesOpen? && s == a.(margin := s.margin)
    ensures LimitsFor(p, s) == LimitsFor(p, a) && Room(spec, p, s, equity, b) == Room(spec, p, a, equity, b)
  {
  }

  lemma {:induction false} SizedFitsRisk(a: Action, spec: Spec, o: Observation, b: Budget, s: Action)
    requires a.FuturesOpen? && UsesCapitalSizing(spec) && Prepare(a, spec, o, b) == Sized(s)
    ensures SizingContext(a, spec, o, b) && s.FuturesOpen? && s.margin >= MINIMUM_TICKET
    ensures StopUsable(s, Some(o.marks[a.symbol]))
    ensures RiskPerMargin(s.leverage, o.marks[a.symbol], s.stop.value) > 0.0
    ensures s.margin <= Part(o.book.value.equity, LimitsFor(spec.policy.value, s).futuresRiskPct)
                        / RiskPerMargin(s.leverage, o.marks[a.symbol], s.stop.value)
  {
    SizedMeans(a, spec, o, b, s);
    MarginFits(a, spec, spec.policy.value, o.marks[a.symbol], o.book.value.equity, b);
  }

  lemma {:induction false} SizedFitsRoom(a: Action, spec: Spec, o: Observation, b: Budget, s: Action)
    requires a.FuturesOpen? && UsesCapitalSizing(spec) && Prepare(a, spec, o, b) == Sized(s)
    ensures SizingContext(a, spec, o, b) && s.FuturesOpen?
    ensures s.margin + BufferFee(s) <= Room(spec, spec.policy.value, s, o.book.value.equity, b)
    ensures b.openMargin + s.margin <= spec.maxOpenMargin
  {
    var p, equity, mark := spec.policy.value, o.book.value.equity, o.marks[a.symbol];
    SizedMeans(a, spec, o, b, s);
    MarginFits(a, spec, p, mark, equity, b);
    RoomKeepsMargin(a, s, spec, p, equity, b);
    ActionFitsRoom(s, Room(spec, p, a, equity, b));
  }

  lemma {:induction false} ActionFitsRoom(s: Action, room: real)
    requires s.FuturesOpen? && FeeFactor(s.leverage) > 0.0 && s.margin <= room / FeeFactor(s.leverage)
    ensures s.margin + BufferFee(s) <= room
  {
    BufferFitsRoom(s.margin, s.leverage, room);
  }

  /** The outlay is above the room by more than the epsilon exactly when one of the three monetary checks fails. */
  lemma {:induction false} RoomDecidesCommon(s: Action, spec: Spec, p: Policy, q: Quote, equity: real, b: Budget)
    requires s.FuturesOpen? && s.margin > 0.0 && Positive(q.cashRequired)
    ensures CommonFault(s, spec, p, q, equity, b) == None <==>
              q.cashRequired.value <= Room(spec, p, s, equity, b) + EPSILON
    ensures CommonFault(s, spec, p, q, equity, b) in
            {None, Some(TicketCapExceeded), Some(AllocationExceeded), Some(ReserveExceeded)}
  {
  }

  lemma {:induction false} VenueDecides(s: Action, p: Policy, q: Quote, mark: real, equity: real)
    requires s.FuturesOpen? && StopUsable(s, Some(mark)) && QuoteAtMark(s, mark, q)
    requires Positive(s.target) && Favorable(s, mark) > 0.0
    ensures FuturesEvidence(s, q)
    ensures FuturesFault(s, p, q, equity) ==
            if StopRisk(s, q) > Part(equity, LimitsFor(p, s).futuresRiskPct) + EPSILON then Some(StopRiskExceeded)
            else if RewardRiskLow(TargetReward(s, q), StopRisk(s, q), p.minRewardRisk) then Some(RewardRiskTooLow)
            else None
  {
  }

  /** A sized futures entry, its quote at the mark with cost fields that agree to the cent, and a favourable target. */
  ghost predicate SizedQuoted(a: Action, spec: Spec, o: Observation, b: Budget, s: Action, q: Quote) {
    && a.FuturesOpen? && UsesCapitalSizing(spec) && Prepare(a, spec, o, b) == Sized(s) && s.FuturesOpen?
    && a.symbol in o.marks && QuoteAtMark(s, o.marks[a.symbol], q)
    && Positive(s.target) && Favorable(s, o.marks[a.symbol]) > 0.0
  }

  /** Sizing refines validation: under the same budget a sized futures entry whose quote fills at the mark, rounded to
      the cent within the fee buffer, passes every check except, when its own target is too near, the reward-to-risk
      one. */
  lemma {:induction false} SizedFuturesPasses(a: Action, spec: Spec, o: Observation, b: Budget, s: Action, q: Quote)
    requires SizedQuoted(a, spec, o, b, s, q) && WithinBuffer(s, q)
    ensures s.stop.Some? && FuturesEvidence(s, q)
    ensures Validate(s, spec, o, b, q) ==
            if RewardRiskLow(TargetReward(s, q), StopRisk(s, q), spec.policy.value.minRewardRisk)
            then Some(RewardRiskTooLow) else None
    ensures b.openMargin + s.margin <= spec.maxOpenMargin
  {
    var p, equity, mark := spec.policy.value, o.book.value.equity, o.marks[a.symbol];
    SizedFitsRisk(a, spec, o, b, s);
    SizedFitsRoom(a, spec, o, b, s);
    VenueDecides(s, p, q, mark, equity);
    RateInBuffer(s, mark, q);
    RiskFitsBudget(s, q, mark, Part(equity, LimitsFor(p, s).futuresRiskPct), 0.0);
    RoomDecidesCommon(s, spec, p, q, equity, b);
  }

  /** Rounding above the buffer: the stop risk is then at most one cent above its budget and the outlay at most two
      above the room, and the entry is accepted exactly when neither is above by more than the epsilon and the target is
      far enough. */
  lemma {:induction false} SizedFuturesExactly(a: Action, spec: Spec, o: Observation, b: Budget, s: Action, q: Quote)
    requires SizedQuoted(a, spec, o, b, s, q)
    ensures s.stop.Some? && FuturesEvidence(s, q) && o.book.Some? && o.book.value.Ready?
    ensures var p, equity := spec.policy.value, o.book.value.equity;
            var riskBudget, room := Part(equity, LimitsFor(p, s).futuresRiskPct), Room(spec, p, s, equity, b);
            && StopRisk(s, q) <= riskBudget + CENT_TOLERANCE
            && q.cashRequired.value <= room + 2.0 * CENT_TOLERANCE
            && (Validate(s, spec, o, b, q) == None <==>
                  && StopRisk(s, q) <= riskBudget + EPSILON
                  && q.cashRequired.value <= room + EPSILON
                  && !RewardRiskLow(TargetReward(s, q), StopRisk(s, q), p.minRewardRisk))
  {
    var p, equity, mark := spec.policy.value, o.book.value.equity, o.marks[a.symbol];
    SizedFitsRisk(a, spec, o, b, s);
    SizedFitsRoom(a, spec, o, b, s);
    VenueDecides(s, p, q, mark, equity);
    CentsAboveBuffer(s, mark, q);
    RateInBuffer(s, mark, q);
    RiskFitsBudget(s, q, mark, Part(equity, LimitsFor(p, s).futuresRiskPct), CENT_TOLERANCE);
    RoomDecidesCommon(s, spec, p, q, equity, b);
  }

  // ----- a rounded fee above the buffer -----

  const ROUND_POLICY := Policy(100.0, 100.0, 100.0, 100.0, 0.0, 1.0, None)
  const ROUND_SPEC := Spec(Some(ROUND_POLICY), false, 10.5105, 1000.0)
  const ROUND_SEEN := Observation(Some(Ready(1, 10000.0, 10000.0, 0.0)), map["BTC" := 100.0])
  const ROUND_BUDGET := Budget(10000.0, 0.0, 0.0)
  const ROUND_ACTION := FuturesOpen("BTC", true, 1.0, 50.0, Some(90.0), Some(150.0), None)
  const ROUND_SIZED := FuturesOpen("BTC", true, 1.0, 10.5, Some(90.0), Some(150.0), None)
  const ROUND_QUOTE := Quote(Some(100.0), Some(10.0), Some(0.02), Some(10.52), None, None, None)

  lemma {:induction false} RoundSized()
    ensures Prepare(ROUND_ACTION, ROUND_SPEC, ROUND_SEEN, ROUND_BUDGET) == Sized(ROUND_SIZED)
  {
    assert RiskPerMargin(1.0, 100.0, 90.0) == 0.1019;
    assert Ticket(ROUND_SPEC, ROUND_POLICY, ROUND_ACTION, 10000.0) == 10.5105;
    assert Room(ROUND_SPEC, ROUND_POLICY, ROUND_ACTION, 10000.0, ROUND_BUDGET) == 10.5105;
    assert 10.5105 / FeeFactor(1.0) == 10.5;
    assert 10000.0 / 0.1019 > 10.5105;
    assert FuturesMargin(ROUND_ACTION, ROUND_SPEC, ROUND_POLICY, 100.0, 10000.0, ROUND_BUDGET) == 10.5;
  }

  lemma {:induction false} RoundQuoted()
    ensures QuoteAtMark(ROUND_SIZED, 100.0, ROUND_QUOTE) && !WithinBuffer(ROUND_SIZED, ROUND_QUOTE)
    ensures StopUsable(ROUND_SIZED, Some(100.0))
    ensures Positive(ROUND_SIZED.target) && Favorable(ROUND_SIZED, 100.0) > 0.0
  {
    assert FeeRate(ROUND_QUOTE) == 0.001;
    assert BufferFee(ROUND_SIZED) == 0.0105;
  }

  lemma {:induction false} RoundVenue()
    ensures VenueFault(ROUND_SIZED, ROUND_POLICY, ROUND_QUOTE, 10000.0) == None
  {
    RoundQuoted();
    VenueDecides(ROUND_SIZED, ROUND_POLICY, ROUND_QUOTE, 100.0, 10000.0);
    assert FeeRate(ROUND_QUOTE) == 0.001;
    assert StopRisk(ROUND_SIZED, ROUND_QUOTE) == 1.05 + 0.02 + 0.00945;
    assert TargetReward(ROUND_SIZED, ROUND_QUOTE) == 5.25 - 0.02 - 0.01575;
    assert Part(10000.0, 100.0) == 10000.0;
  }

  lemma {:induction false} RoundCommon()
    ensures CommonFault(ROUND_SIZED, ROUND_SPEC, ROUND_POLICY, ROUND_QUOTE, 10000.0, ROUND_BUDGET)
              == Some(TicketCapExceeded)
  {
    assert Ticket(ROUND_SPEC, ROUND_POLICY, ROUND_SIZED, 10000.0) == 10.5105;
  }

  /** Such a quote can be refused: a fee of 0.0105 rounded up to 0.02 takes a ticket of 10.5105 to 10.52. */
  lemma {:induction false} RoundedFeeRefused()
    ensures SizedQuoted(ROUND_ACTION, ROUND_SPEC, ROUND_SEEN, ROUND_BUDGET, ROUND_SIZED, ROUND_QUOTE)
    ensures !WithinBuffer(ROUND_SIZED, ROUND_QUOTE)
    ensures Validate(ROUND_SIZED, ROUND_SPEC, ROUND_SEEN, ROUND_BUDGET, ROUND_QUOTE) == Some(TicketCapExceeded)
  {
    RoundSized();
    RoundQuoted();
    RoundVenue();
    RoundCommon();
    assert ROUND_SEEN.marks["BTC"] == 100.0;
  }

  /** A sized prediction-market stake passes every check. */
  lemma {:induction false} SizedPmPasses(a: Action, spec: Spec, o: Observation, b: Budget, s: Action, q: Quote)
    requires a.PmOpen? && UsesCapitalSizing(spec) && Prepare(a, spec, o, b) == Sized(s)
    ensures s.PmOpen? && Validate(s, spec, o, b, q) == None
  {
    var p, equity := spec.policy.value, o.book.value.equity;
    CentsDownBelow(MinR(Room(spec, p, a, equity, b), Part(equity, p.pmMaxLossPct)));
    assert Ticket(spec, p, s, equity) == Ticket(spec, p, a, equity);
  }

  // ----- sequences of accepted actions -----

  /** One action the runner accepted, with its quote; or a budget left alone. */
  datatype Turn = Accepted(action: Action, quote: Quote) | Skipped

  predicate Fits(t: Turn, spec: Spec, o: Observation, b: Budget) {
    t.Accepted? ==> Validate(t.action, spec, o, b, t.quote) == None && CashCost(t.action, t.quote).Some?
  }

  /** The runner moves its budget by the action's cash cost when the action increases risk. */
  function Spend(t: Turn, b: Budget): Budget {
    if t.Skipped? || !Increases(t.action) || CashCost(t.action, t.quote).None? then b
    else
      var spent := CashCost(t.action, t.quote).value;
      Budget(b.cash - spent, b.committed + spent,
             if t.action.FuturesOpen? then b.openMargin + t.action.margin else b.openMargin)
  }

  ghost predicate AllAccepted(ts: seq<Turn>, spec: Spec, o: Observation, b: Budget)
    decreases |ts|
  {
    ts != [] ==> Fits(ts[0], spec, o, b) && AllAccepted(ts[1..], spec, o, Spend(ts[0], b))
  }

  function SpendAll(ts: seq<Turn>, b: Budget): Budget
    decreases |ts|
  {
    if ts == [] then b else SpendAll(ts[1..], Spend(ts[0], b))
  }

  /** The validator charges what the runner spends. */
  lemma {:induction false} ChargedIsSpent(a: Action, spec: Spec, o: Observation, b: Budget, q: Quote)
    requires UsesCapitalSizing(spec) && Increases(a) && Validate(a, spec, o, b, q) == None
    ensures o.book.Some? && o.book.value.Ready?
    ensures CashCost(a, q).Some? && CashCost(a, q).value > 0.0
    ensures b.committed + CashCost(a, q).value <= Part(o.book.value.equity, spec.policy.value.totalCapitalPct) + EPSILON
    ensures b.cash - CashCost(a, q).value >= Part(o.book.value.equity, spec.policy.value.cashReservePct) - EPSILON
    ensures CashCost(a, q).value <= spec.perTradeMargin + EPSILON
  {
    assert CashCost(a, q) == Costs(a, q).0;
  }

  /** However many actions are accepted in a cycle, committed capital ends at most one 1e-8 above its share of equity
      (or where it began, if that was higher), and cash at most one 1e-8 below its reserve. */
  lemma {:induction false} AcceptedStayInPolicy(ts: seq<Turn>, spec: Spec, o: Observation, b: Budget)
    requires UsesCapitalSizing(spec) && o.book.Some? && o.book.value.Ready? && AllAccepted(ts, spec, o, b)
    ensures var equity, p, e := o.book.value.equity, spec.policy.value, SpendAll(ts, b);
            && e.committed <= MaxR(b.committed, Part(equity, p.totalCapitalPct) + EPSILON)
            && e.cash >= MinR(b.cash, Part(equity, p.cashReservePct) - EPSILON)
            && e.committed + e.cash == b.committed + b.cash
            && e.committed >= b.committed
    decreases |ts|
  {
    if ts != [] {
      var t := ts[0];
      if t.Accepted? && Increases(t.action) { ChargedIsSpent(t.action, spec, o, b, t.quote); }
      AcceptedStayInPolicy(ts[1..], spec, o, Spend(t, b));
    }
  }
}
