/** Pricing, admission and answer classification of paid calls (paidBrain.ts).

Money is integer micro-USD and rates are integer micro-USD per thousand tokens. The source guards
every product with a safe-integer test, and below that bound its double arithmetic (including the
final quotient before Math.ceil) is exact, so integers model it without rounding. */
module Pricing {
  import opened Common

  /** A reported count: JSON numbers may be fractional, and may overflow to a non-finite double. */
  datatype Count = NotFinite | Finite(n: real)

  datatype Usage = Usage(
    prompt: Count,
    completion: Count,
    cacheRead: Option<Count>,
    cacheWrite5m: Option<Count>,
    cacheWrite1h: Option<Count>,
    cacheWrite: Option<Count>)

  /** A cache rate the provider does not sell is absent. */
  datatype Price = Price(
    inputK: nat,
    outputK: nat,
    cacheReadK: Option<nat>,
    cacheWrite5mK: Option<nat>,
    cacheWrite1hK: Option<nat>)

  datatype Priced = Priced(providerCost: int, margin: int, total: int)

  datatype PriceError = BadMargin | BadCount | MissingRate | OutOfRange

  const MAX_OUTPUT_TOKENS: nat := 4096
  const MAX_INPUT_BYTES: nat := 160_000
  const FRAMING_TOKENS: nat := 512
  const INPUT_TOKEN_BOUND: nat := MAX_INPUT_BYTES + FRAMING_TOKENS

  function Ceil(x: real): int {
    -((-x).Floor)
  }

  /** Math.ceil(n / d). */
  function CeilDiv(n: nat, d: nat): (q: nat)
    requires d > 0
    ensures (q - 1) * d < n <= q * d
  {
    assert n == (n / d) * d + n % d;
    if n % d == 0 then n / d else n / d + 1
  }

  lemma {:induction false} CeilDivMonotone(m: nat, n: nat, d: nat)
    requires d > 0 && m <= n
    ensures CeilDiv(m, d) <= CeilDiv(n, d)
  {
    CancelLess(CeilDiv(m, d) - 1, CeilDiv(n, d), d);
  }

  lemma {:induction false} CancelLess(a: int, b: int, d: nat)
    requires a * d < b * d
    ensures a < b
  {
  }

  function Tokens(c: Option<Count>): Result<nat, PriceError> {
    match c
    case None => Ok(0)
    case Some(NotFinite) => Err(BadCount)
    case Some(Finite(n)) => if n < 0.0 then Err(BadCount) else Ok(Ceil(n))
  }

  function Times(a: nat, b: nat): (p: nat)
    ensures p == a * b
  {
    assert a * b >= 0;
    a * b
  }

  /** `count * rate` with the rate looked up only when something is charged at it. */
  function Charge(count: nat, rate: Option<nat>): Result<nat, PriceError> {
    if count == 0 then Ok(0)
    else match rate
      case None => Err(MissingRate)
      case Some(r) => Ok(Times(count, r))
  }

  /** The exact sum of tokens times rate, in thousandths of a micro-USD. */
  function RateSum(price: Price, usage: Usage): Result<nat, PriceError> {
    var input :- Tokens(Some(usage.prompt));
    var output :- Tokens(Some(usage.completion));
    var cacheRead :- Tokens(usage.cacheRead);
    var write5m :- Tokens(usage.cacheWrite5m);
    var write1h :- Tokens(usage.cacheWrite1h);
    var writeTotal :- Tokens(usage.cacheWrite);
    // Any write the split does not account for is priced at the 1h rate.
    var unsplit := Max(0, writeTotal - write5m - write1h);
    var readCharge :- Charge(cacheRead, price.cacheReadK);
    var write5mCharge :- Charge(write5m, price.cacheWrite5mK);
    var write1hCharge :- Charge(write1h + unsplit, price.cacheWrite1hK);
    Ok(Times(input, price.inputK) + Times(output, price.outputK) + readCharge + write5mCharge + write1hCharge)
  }

  function PriceUsage(price: Price, usage: Usage, marginPct: int): Result<Priced, PriceError> {
    if !IsSafeInteger(marginPct) || marginPct < 0 then Err(BadMargin) else
    var sum :- RateSum(price, usage);
    if !IsSafeInteger(sum * (100 + marginPct)) then Err(OutOfRange) else
    var providerCost := CeilDiv(sum, 1000);
    var total := CeilDiv(Times(sum, 100 + marginPct), 100_000);
    Ok(Priced(providerCost, total - providerCost, total))
  }

  function WorstCase(price: Price, marginPct: int): Result<int, PriceError> {
    var worst := Usage(Finite(INPUT_TOKEN_BOUND as real), Finite(MAX_OUTPUT_TOKENS as real), None, None, None, None);
    var priced :- PriceUsage(price, worst, marginPct);
    Ok(priced.total)
  }

  // ----- an independent account of what a bill contains -----

  /** One invoice line: so many tokens at one rate. */
  datatype Line = Line(count: nat, rateK: nat)

  function Billed(c: Option<Count>): nat {
    if Tokens(c).Ok? then Tokens(c).value else 0
  }

  function Writes(u: Usage): nat {
    Max(Billed(u.cacheWrite), Billed(u.cacheWrite5m) + Billed(u.cacheWrite1h))
  }

  /** Input, output, cache reads, 5m writes, and every other write at the 1h rate. */
  function Invoice(price: Price, u: Usage): seq<Line> {
    [Line(Billed(Some(u.prompt)), price.inputK),
     Line(Billed(Some(u.completion)), price.outputK),
     Line(Billed(u.cacheRead), price.cacheReadK.GetOr(0)),
     Line(Billed(u.cacheWrite5m), price.cacheWrite5mK.GetOr(0)),
     Line(Writes(u) - Billed(u.cacheWrite5m), price.cacheWrite1hK.GetOr(0))]
  }

  function LineTotal(lines: seq<Line>): nat {
    if lines == [] then 0 else Times(lines[0].count, lines[0].rateK) + LineTotal(lines[1..])
  }

  function LineTokens(lines: seq<Line>): nat {
    if lines == [] then 0 else lines[0].count + LineTokens(lines[1..])
  }

  /** Every line that charges something has a published rate. */
  predicate Sellable(price: Price, u: Usage) {
    && (Billed(u.cacheRead) > 0 ==> price.cacheReadK.Some?)
    && (Billed(u.cacheWrite5m) > 0 ==> price.cacheWrite5mK.Some?)
    && (Writes(u) > Billed(u.cacheWrite5m) ==> price.cacheWrite1hK.Some?)
  }

  predicate Countable(u: Usage) {
    && Tokens(Some(u.prompt)).Ok? && Tokens(Some(u.completion)).Ok?
    && Tokens(u.cacheRead).Ok? && Tokens(u.cacheWrite5m).Ok?
    && Tokens(u.cacheWrite1h).Ok? && Tokens(u.cacheWrite).Ok?
  }

  lemma {:induction false} FiveLines(a: Line, b: Line, c: Line, d: Line, e: Line)
    ensures LineTotal([a, b, c, d, e])
         == a.count * a.rateK + b.count * b.rateK + c.count * c.rateK + d.count * d.rateK + e.count * e.rateK
    ensures LineTokens([a, b, c, d, e]) == a.count + b.count + c.count + d.count + e.count
  {
    assert [a, b, c, d, e][1..] == [b, c, d, e];
    assert [b, c, d, e][1..] == [c, d, e];
    assert [c, d, e][1..] == [d, e];
    assert [d, e][1..] == [e];
    assert [e][1..] == [];
    assert LineTotal([e]) == e.count * e.rateK;
    assert LineTotal([d, e]) == d.count * d.rateK + e.count * e.rateK;
    assert LineTotal([c, d, e]) == c.count * c.rateK + LineTotal([d, e]);
    assert LineTotal([b, c, d, e]) == b.count * b.rateK + LineTotal([c, d, e]);
    assert LineTokens([e]) == e.count;
    assert LineTokens([d, e]) == d.count + e.count;
    assert LineTokens([c, d, e]) == c.count + LineTokens([d, e]);
    assert LineTokens([b, c, d, e]) == b.count + LineTokens([c, d, e]);
  }

  lemma {:induction false} ChargeIs(count: nat, rate: Option<nat>)
    ensures Charge(count, rate).Ok? <==> (count > 0 ==> rate.Some?)
    ensures Charge(count, rate).Ok? ==> Charge(count, rate).value == count * rate.GetOr(0)
  {
  }

  lemma {:induction false} InvoiceTotal(price: Price, u: Usage)
    ensures LineTotal(Invoice(price, u)) ==
            Billed(Some(u.prompt)) * price.inputK + Billed(Some(u.completion)) * price.outputK
            + Billed(u.cacheRead) * price.cacheReadK.GetOr(0) + Billed(u.cacheWrite5m) * price.cacheWrite5mK.GetOr(0)
            + (Writes(u) - Billed(u.cacheWrite5m)) * price.cacheWrite1hK.GetOr(0)
    ensures LineTokens(Invoice(price, u)) ==
            Billed(Some(u.prompt)) + Billed(Some(u.completion)) + Billed(u.cacheRead) + Writes(u)
  {
    var i := Invoice(price, u);
    FiveLines(i[0], i[1], i[2], i[3], i[4]);
    assert i == [i[0], i[1], i[2], i[3], i[4]];
  }

  /** The source's conditional sum gets through exactly when every charged line is sellable, and then
      it is the invoice total. */
  lemma {:induction false} RateSumIsInvoice(price: Price, u: Usage)
    ensures RateSum(price, u).Ok? <==> Countable(u) && Sellable(price, u)
    ensures RateSum(price, u).Ok? ==> RateSum(price, u).value == LineTotal(Invoice(price, u))
  {
    if Countable(u) {
      assert Writes(u) - Billed(u.cacheWrite5m)
          == Billed(u.cacheWrite1h) + Max(0, Billed(u.cacheWrite) - Billed(u.cacheWrite5m) - Billed(u.cacheWrite1h));
      ChargeIs(Billed(u.cacheRead), price.cacheReadK);
      ChargeIs(Billed(u.cacheWrite5m), price.cacheWrite5mK);
      ChargeIs(Writes(u) - Billed(u.cacheWrite5m), price.cacheWrite1hK);
      InvoiceTotal(price, u);
    }
  }

  lemma {:induction false} PricedIff(price: Price, u: Usage, marginPct: int)
    ensures PriceUsage(price, u, marginPct).Ok? <==>
            && IsSafeInteger(marginPct) && marginPct >= 0 && Countable(u) && Sellable(price, u)
            && IsSafeInteger(LineTotal(Invoice(price, u)) * (100 + marginPct))
  {
    RateSumIsInvoice(price, u);
  }

  /** A charge is produced exactly when nothing has to be guessed; the invoice then lists every reported
      token once, and the total and the provider cost are its exact value rounded up once each. */
  lemma {:induction false} PricingIsExact(price: Price, u: Usage, marginPct: int)
    ensures var r := PriceUsage(price, u, marginPct);
            var bill := LineTotal(Invoice(price, u));
            && (r.Ok? <==> && IsSafeInteger(marginPct) && marginPct >= 0
                           && Countable(u) && Sellable(price, u)
                           && IsSafeInteger(bill * (100 + marginPct)))
            && (r.Ok? ==>
                  var p := r.value;
                  && (p.total - 1) * 100_000 < bill * (100 + marginPct) <= p.total * 100_000
                  && (p.providerCost - 1) * 1000 < bill <= p.providerCost * 1000
                  && p.total == p.providerCost + p.margin)
    ensures LineTokens(Invoice(price, u))
         == Billed(Some(u.prompt)) + Billed(Some(u.completion)) + Billed(u.cacheRead) + Writes(u)
  {
    InvoiceTotal(price, u);
    RateSumIsInvoice(price, u);
  }

  /** The owner is never charged less than the provider's own cost. */
  lemma {:induction false} NeverBelowProviderCost(price: Price, u: Usage, marginPct: int)
    requires PriceUsage(price, u, marginPct).Ok?
    ensures 0 <= PriceUsage(price, u, marginPct).value.providerCost <= PriceUsage(price, u, marginPct).value.total
  {
    PricingIsExact(price, u, marginPct);
    var p, bill := PriceUsage(price, u, marginPct).value, LineTotal(Invoice(price, u));
    MulMonotone(100, 100 + marginPct, bill);
    CancelLess(p.providerCost - 1, p.total, 100_000);
  }

  /** Plain usage: both counts within the reserve's bounds and no cache tokens. */
  predicate WithinReserveBounds(u: Usage) {
    && Countable(u)
    && Billed(Some(u.prompt)) <= INPUT_TOKEN_BOUND
    && Billed(Some(u.completion)) <= MAX_OUTPUT_TOKENS
    && Billed(u.cacheRead) == 0 && Writes(u) == 0
  }

  lemma {:induction false} CeilOfInteger(n: int)
    ensures Ceil(n as real) == n
  {
  }

  lemma {:induction false} TotalOfBill(price: Price, u: Usage, marginPct: int)
    requires PriceUsage(price, u, marginPct).Ok?
    ensures PriceUsage(price, u, marginPct).value.total
              == CeilDiv(LineTotal(Invoice(price, u)) * (100 + marginPct), 100_000)
  {
    RateSumIsInvoice(price, u);
  }

  function WorstUsage(): Usage {
    Usage(Finite(INPUT_TOKEN_BOUND as real), Finite(MAX_OUTPUT_TOKENS as real), None, None, None, None)
  }

  lemma {:induction false} BoundedBill(price: Price, u: Usage)
    requires WithinReserveBounds(u)
    ensures LineTotal(Invoice(price, u)) <= LineTotal(Invoice(price, WorstUsage()))
    ensures Sellable(price, u)
  {
    CeilOfInteger(INPUT_TOKEN_BOUND);
    CeilOfInteger(MAX_OUTPUT_TOKENS);
    InvoiceTotal(price, u);
    InvoiceTotal(price, WorstUsage());
    MulMonotone(Billed(Some(u.prompt)), INPUT_TOKEN_BOUND, price.inputK);
    MulMonotone(Billed(Some(u.completion)), MAX_OUTPUT_TOKENS, price.outputK);
  }

  lemma {:induction false} SafeBelow(a: nat, b: nat, factor: nat)
    requires a <= b && IsSafeInteger(b * factor)
    ensures 0 <= a * factor <= b * factor && IsSafeInteger(a * factor)
  {
    MulMonotone(a, b, factor);
  }

  lemma {:induction false} BoundedUsagePrices(price: Price, u: Usage, marginPct: int)
    requires WithinReserveBounds(u)
    requires PriceUsage(price, WorstUsage(), marginPct).Ok?
    ensures PriceUsage(price, u, marginPct).Ok?
    ensures LineTotal(Invoice(price, u)) * (100 + marginPct)
              <= LineTotal(Invoice(price, WorstUsage())) * (100 + marginPct)
  {
    PricedIff(price, WorstUsage(), marginPct);
    BoundedBill(price, u);
    SafeBelow(LineTotal(Invoice(price, u)), LineTotal(Invoice(price, WorstUsage())), 100 + marginPct);
    PricedIff(price, u, marginPct);
  }

  /** Usage inside the bounds always prices, and never above the reserve. */
  lemma {:induction false} BoundedUsageFitsReserve(price: Price, u: Usage, marginPct: int)
    requires WithinReserveBounds(u)
    requires WorstCase(price, marginPct).Ok?
    ensures PriceUsage(price, u, marginPct).Ok?
    ensures PriceUsage(price, u, marginPct).value.total <= WorstCase(price, marginPct).value
  {
    var a, b := LineTotal(Invoice(price, u)), LineTotal(Invoice(price, WorstUsage()));
    BoundedUsagePrices(price, u, marginPct);
    TotalOfBill(price, u, marginPct);
    TotalOfBill(price, WorstUsage(), marginPct);
    CeilDivMonotone(a * (100 + marginPct), b * (100 + marginPct), 100_000);
  }

  lemma {:induction false} MulMonotone(a: nat, b: nat, c: nat)
    requires a <= b
    ensures a * c <= b * c
  {
    assert (b - a) * c >= 0;
  }

  // ----- admission -----

  datatype AdmissionReason = Admitted | MeteringUncertain | BalanceShort | CapReached | InvalidPosition

  function AdmitPaidCall(balance: int, monthSpend: int, cap: int, worst: int, uncertain: bool): AdmissionReason {
    if !(IsSafeInteger(balance) && IsSafeInteger(monthSpend) && IsSafeInteger(cap) && IsSafeInteger(worst))
       || monthSpend < 0 || cap <= 0 || worst <= 0 then InvalidPosition
    else if uncertain then MeteringUncertain
    else if balance < worst then BalanceShort
    else if monthSpend + worst > cap then CapReached
    else Admitted
  }

  // ----- what one provider answer means for metering -----

  datatype Reply = Reply(ok: bool, usage: Option<Usage>, status: Option<int>, deferred: bool)

  datatype CallResult =
    | Answered(usage: Usage)
    | Rejected(providerStatus: int)
    | Uncertain
    | NotCalled

  const NONBILLABLE_REJECTION_STATUSES: set<int> := {400, 401, 403, 404, 413, 429}

  function ClassifyPaidCall(res: Reply): CallResult {
    if res.usage.Some? then Answered(res.usage.value)
    else if res.ok then Uncertain
    else if res.deferred then NotCalled
    else if res.status.Some? then
      if res.status.value in NONBILLABLE_REJECTION_STATUSES then Rejected(res.status.value) else Uncertain
    else Uncertain
  }
}
