/** The credit ledger and the paid_calls table (db.ts), one transaction per operation.

Rows are append-only in `ledger` (with the UNIQUE constraint on the idempotency key) and are updated
in place in `calls`. Each operation is given twice: as a function from the old tables to the new ones,
and as a method of CreditStore that changes the tables statement by statement as the source does. */
module Ledger {
  import opened Common
  import opened Pricing
  import opened PaidKeys

  datatype RowKind = GrantRow | TopupRow | RefundRow | ReleaseRow | ReserveRow | DebitRow | ReversalRow | RestoreRow

  datatype Row = Row(
    user: int, kind: RowKind, amount: int, agent: Option<int>, cycle: Option<int>,
    providerCost: Option<int>, margin: Option<int>, key: string)

  datatype Status =
    | ReservedCall | DispatchedCall | AnsweredCall | RejectedCall | UncertainCall | ReleasedCall | FinalizedCall

  datatype PaidCall = PaidCall(
    key: string, user: int, agent: int, price: Price, marginPct: int, worst: int, month: int,
    status: Status, usage: Option<Usage>, providerStatus: Option<int>, debit: Option<int>, cycle: Option<int>,
    createdAt: real, dispatchedAt: Option<real>, answeredAt: Option<real>)

  datatype Tables = Tables(ledger: seq<Row>, calls: seq<PaidCall>)

  // STALE_CALL: fifteen minutes, in seconds.
  const STALE_SECONDS := 900.0

  predicate Stale(at: Option<real>, now: real) {
    at.Some? && at.value < now - STALE_SECONDS
  }

  // ----- reading the ledger -----

  /** CHECK constraint of credit_ledger. */
  predicate RowSignOk(r: Row) {
    if r.kind in {ReserveRow, DebitRow, ReversalRow} then r.amount < 0 else r.amount > 0
  }

  predicate HasKey(ledger: seq<Row>, key: string) {
    exists r :: r in ledger && r.key == key
  }

  /** INSERT ... ON CONFLICT (idempotency_key) DO NOTHING. */
  function InsertRow(ledger: seq<Row>, r: Row): seq<Row> {
    if HasKey(ledger, r.key) then ledger else ledger + [r]
  }

  function RowAt(ledger: seq<Row>, key: string): Option<Row> {
    if ledger == [] then None
    else
      var before := RowAt(ledger[..|ledger| - 1], key);
      if before.Some? then before
      else if ledger[|ledger| - 1].key == key then Some(ledger[|ledger| - 1]) else None
  }

  /** SUM(amount_micro_usd) of one user. */
  function Balance(ledger: seq<Row>, user: int): int {
    if ledger == [] then 0
    else
      var last := ledger[|ledger| - 1];
      Balance(ledger[..|ledger| - 1], user) + if last.user == user then last.amount else 0
  }

  // ----- reading the calls -----

  function FindCall(calls: seq<PaidCall>, key: string): (i: nat)
    ensures i <= |calls|
    ensures i < |calls| ==> calls[i].key == key
    ensures i == |calls| ==> forall j :: 0 <= j < |calls| ==> calls[j].key != key
  {
    if calls == [] then 0
    else
      var i := FindCall(calls[..|calls| - 1], key);
      if i < |calls| - 1 then i
      else if calls[|calls| - 1].key == key then |calls| - 1 else |calls|
  }

  /** What a call counts for against the cap: its debit once finalized, nothing once released, and the
      worst case as long as it is open. */
  function Weight(c: PaidCall): int {
    match c.status
    case FinalizedCall => c.debit.GetOr(0)
    case ReleasedCall => 0
    case _ => c.worst
  }

  function MonthSpend(calls: seq<PaidCall>, agent: int, month: int): int {
    if calls == [] then 0
    else
      var last := calls[|calls| - 1];
      MonthSpend(calls[..|calls| - 1], agent, month)
      + if last.agent == agent && last.month == month then Weight(last) else 0
  }

  predicate Blocks(c: PaidCall, now: real) {
    c.status == UncertainCall || (c.status == DispatchedCall && Stale(c.dispatchedAt, now))
  }

  predicate OwnerBlocked(calls: seq<PaidCall>, user: int, now: real) {
    exists c :: c in calls && c.user == user && Blocks(c, now)
  }

  datatype Position = Position(balance: int, monthSpend: int, uncertain: bool)

  function ReadCreditPosition(t: Tables, user: int, agent: int, month: int, now: real): Result<Position, ()> {
    var balance := Balance(t.ledger, user);
    var spend := MonthSpend(t.calls, agent, month);
    if IsSafeInteger(balance) && IsSafeInteger(spend) then
      Ok(Position(balance, spend, OwnerBlocked(t.calls, user, now)))
    else Err(())
  }

  // ----- reserve -----

  datatype Request = Request(
    user: int, agent: int, key: string, price: Price, marginPct: int, worst: int, cap: int, month: int)

  datatype Reservation = Granted | Refused(reason: AdmissionReason) | Aborted

  function ReservedRow(q: Request): Row {
    Row(q.user, ReserveRow, -q.worst, Some(q.agent), None, None, None, q.key)
  }

  function NewCall(q: Request, now: real): PaidCall {
    PaidCall(q.key, q.user, q.agent, q.price, q.marginPct, q.worst, q.month,
             ReservedCall, None, None, None, None, now, None, None)
  }

  /** A thrown error rolls the whole transaction back. */
  function Reserve(t: Tables, q: Request, now: real): (Tables, Reservation) {
    var position := ReadCreditPosition(t, q.user, q.agent, q.month, now);
    if position.Err? then (t, Aborted) else
    var p := position.value;
    var decision := AdmitPaidCall(p.balance, p.monthSpend, q.cap, q.worst, p.uncertain);
    if decision != Admitted then (t, Refused(decision))
    else if HasKey(t.ledger, q.key) || FindCall(t.calls, q.key) < |t.calls| then (t, Aborted)
    else (Tables(t.ledger + [ReservedRow(q)], t.calls + [NewCall(q, now)]), Granted)
  }

  // ----- dispatch and result: no owner lock -----

  function MarkDispatched(t: Tables, key: string, now: real): (Tables, bool) {
    var i := FindCall(t.calls, key);
    if i < |t.calls| && t.calls[i].status == ReservedCall then
      (t.(calls := t.calls[i := t.calls[i].(status := DispatchedCall, dispatchedAt := Some(now))]), true)
    else (t, false)
  }

  function WithResult(c: PaidCall, result: CallResult, now: real): PaidCall {
    match result
    case Answered(u) => c.(status := AnsweredCall, usage := Some(u), answeredAt := Some(now))
    case Rejected(s) => c.(status := RejectedCall, providerStatus := Some(s), answeredAt := Some(now))
    case Uncertain => c.(status := UncertainCall, answeredAt := Some(now))
    case NotCalled => c.(status := ReservedCall, dispatchedAt := None)
  }

  function RecordResult(t: Tables, key: string, result: CallResult, now: real): (Tables, bool) {
    var i := FindCall(t.calls, key);
    if i < |t.calls| && t.calls[i].status == DispatchedCall then
      (t.(calls := t.calls[i := WithResult(t.calls[i], result, now)]), true)
    else (t, false)
  }

  // ----- finalise -----

  datatype Mode = CycleEnd | Recovery

  datatype Finalization = ReleasedOutcome | DebitedOutcome | UncertainOutcome | OpenOutcome | ClosedOutcome
      | MissingOutcome

  /** The release row negates whatever reserve row the key finds. */
  function ReleaseReserve(ledger: seq<Row>, key: string, cycle: Option<int>): seq<Row> {
    match RowAt(ledger, key)
    case Some(r) =>
      if r.kind == ReserveRow then
        InsertRow(ledger, Row(r.user, ReleaseRow, -r.amount, r.agent, cycle, None, None, ReleaseKeyFor(key)))
      else ledger
    case None => ledger
  }

  function Coalesce(a: Option<int>, b: Option<int>): Option<int> {
    if a.Some? then a else b
  }

  function Close(c: PaidCall, status: Status, debit: int, cycle: Option<int>): PaidCall {
    c.(status := status, debit := Some(debit), cycle := Coalesce(c.cycle, cycle))
  }

  function MarkUncertain(c: PaidCall, cycle: Option<int>): PaidCall {
    c.(status := UncertainCall, cycle := Coalesce(c.cycle, cycle))
  }

  function DebitedRow(c: PaidCall, debit: int, providerCost: int, cycle: Option<int>): Row {
    Row(c.user, DebitRow, -debit, Some(c.agent), cycle, Some(providerCost), Some(debit - providerCost),
        DebitKeyFor(c.key))
  }

  function CallPrice(c: PaidCall): Option<Priced> {
    if c.usage.None? then None
    else match PriceUsage(c.price, c.usage.value, c.marginPct)
      case Ok(p) => Some(p)
      case Err(_) => None
  }

  /** The charge of an answered call is never above its reserve; the excess is written off. */
  function Settle(ledger: seq<Row>, c: PaidCall, p: Priced, cycle: Option<int>): (seq<Row>, PaidCall, Finalization) {
    var over := p.total > c.worst;
    var debit := if over then c.worst else p.total;
    var released := ReleaseReserve(ledger, c.key, cycle);
    var charged := if debit > 0 then InsertRow(released, DebitedRow(c, debit, p.providerCost, cycle)) else released;
    if over then (charged, Close(c, UncertainCall, debit, cycle), UncertainOutcome)
    else (charged, Close(c, FinalizedCall, debit, cycle), DebitedOutcome)
  }

  function FinalizeCall(ledger: seq<Row>, c: PaidCall, mode: Mode, cycle: Option<int>, now: real)
    : (seq<Row>, PaidCall, Finalization)
  {
    match c.status
    case ReservedCall =>
      if mode == Recovery && !Stale(Some(c.createdAt), now) then (ledger, c, OpenOutcome)
      else (ReleaseReserve(ledger, c.key, cycle), Close(c, ReleasedCall, 0, cycle), ReleasedOutcome)
    case RejectedCall =>
      if mode == Recovery && !Stale(c.answeredAt, now) then (ledger, c, OpenOutcome)
      else (ReleaseReserve(ledger, c.key, cycle), Close(c, ReleasedCall, 0, cycle), ReleasedOutcome)
    case DispatchedCall =>
      if mode == Recovery && !Stale(c.dispatchedAt, now) then (ledger, c, OpenOutcome)
      else (ledger, MarkUncertain(c, cycle), UncertainOutcome)
    case AnsweredCall =>
      if mode == Recovery && !Stale(c.answeredAt, now) then (ledger, c, OpenOutcome)
      else if CallPrice(c).None? || !IsSafeInteger(c.worst) || c.worst <= 0 then
        (ledger, MarkUncertain(c, cycle), UncertainOutcome)
      else Settle(ledger, c, CallPrice(c).value, cycle)
    case _ => (ledger, c, ClosedOutcome)
  }

  function Finalize(t: Tables, key: string, mode: Mode, cycle: Option<int>, now: real): (Tables, Finalization) {
    var i := FindCall(t.calls, key);
    if i == |t.calls| then (t, MissingOutcome)
    else
      var (ledger, call, outcome) := FinalizeCall(t.ledger, t.calls[i], mode, cycle, now);
      (Tables(ledger, t.calls[i := call]), outcome)
  }

  // ----- rows written by the backend under the same lock -----

  predicate IsBackendKind(k: RowKind) {
    k in {GrantRow, TopupRow, RefundRow, ReversalRow, RestoreRow}
  }

  function InsertBackendRow(t: Tables, r: Row): Tables {
    if RowSignOk(r) && IsBackendKind(r.kind) && !IsCallKey(r.key) then t.(ledger := InsertRow(t.ledger, r)) else t
  }

  // ----- the tables as the source changes them -----

  class CreditStore {
    var ledger: seq<Row>
    var calls: seq<PaidCall>

    function Contents(): Tables
      reads this
    {
      Tables(ledger, calls)
    }

    constructor ()
      ensures Contents() == Tables([], [])
    {
      ledger, calls := [], [];
    }

    /** INSERT ... ON CONFLICT DO NOTHING, returning the row count. */
    method Insert(r: Row) returns (rowCount: nat)
      modifies this`ledger
      ensures ledger == InsertRow(old(ledger), r)
      ensures rowCount == if HasKey(old(ledger), r.key) then 0 else 1
    {
      if HasKey(ledger, r.key) {
        rowCount := 0;
      } else {
        ledger := ledger + [r];
        rowCount := 1;
      }
    }

    method ReservePaidCall(q: Request, now: real) returns (out: Reservation)
      modifies this
      ensures (Contents(), out) == Reserve(old(Contents()), q, now)
    {
      var before, beforeCalls := ledger, calls;
      var position := ReadCreditPosition(Contents(), q.user, q.agent, q.month, now);
      if position.Err? {
        return Aborted;
      }
      var p := position.value;
      var decision := AdmitPaidCall(p.balance, p.monthSpend, q.cap, q.worst, p.uncertain);
      if decision != Admitted {
        return Refused(decision);
      }
      var ledgerRows := Insert(ReservedRow(q));
      var callRows := 0;
      if FindCall(calls, q.key) == |calls| {
        calls := calls + [NewCall(q, now)];
        callRows := 1;
      }
      if ledgerRows != 1 || callRows != 1 {
        ledger, calls := before, beforeCalls;  // ROLLBACK
        return Aborted;
      }
      return Granted;
    }

    method MarkPaidCallDispatched(key: string, now: real) returns (dispatched: bool)
      modifies this`calls
      ensures (Contents(), dispatched) == MarkDispatched(old(Contents()), key, now)
    {
      var i := FindCall(calls, key);
      dispatched := i < |calls| && calls[i].status == ReservedCall;
      if dispatched {
        calls := calls[i := calls[i].(status := DispatchedCall, dispatchedAt := Some(now))];
      }
    }

    method RecordPaidCallResult(key: string, result: CallResult, now: real) returns (recorded: bool)
      modifies this`calls
      ensures (Contents(), recorded) == RecordResult(old(Contents()), key, result, now)
    {
      var i := FindCall(calls, key);
      recorded := i < |calls| && calls[i].status == DispatchedCall;
      if recorded {
        var c := calls[i];
        match result {
          case Answered(u) => c := c.(status := AnsweredCall, usage := Some(u), answeredAt := Some(now));
          case Rejected(s) => c := c.(status := RejectedCall, providerStatus := Some(s), answeredAt := Some(now));
          case Uncertain => c := c.(status := UncertainCall, answeredAt := Some(now));
          case NotCalled => c := c.(status := ReservedCall, dispatchedAt := None);
        }
        calls := calls[i := c];
      }
    }

    method Release(key: string, cycle: Option<int>)
      modifies this`ledger
      ensures ledger == ReleaseReserve(old(ledger), key, cycle)
    {
      var found := RowAt(ledger, key);
      if found.Some? && found.value.kind == ReserveRow {
        var r := found.value;
        var _ := Insert(Row(r.user, ReleaseRow, -r.amount, r.agent, cycle, None, None, ReleaseKeyFor(key)));
      }
    }

    method FinalizePaidCall(key: string, mode: Mode, cycle: Option<int>, now: real) returns (out: Finalization)
      modifies this
      ensures (Contents(), out) == Finalize(old(Contents()), key, mode, cycle, now)
    {
      var i := FindCall(calls, key);
      if i == |calls| {
        return MissingOutcome;
      }
      var call := calls[i];
      assert calls[i := call] == calls;
      var recovery := mode == Recovery;
      match call.status {
        case ReservedCall =>
          if recovery && !Stale(Some(call.createdAt), now) { return OpenOutcome; }
          Release(key, cycle);
          calls := calls[i := Close(call, ReleasedCall, 0, cycle)];
          return ReleasedOutcome;
        case RejectedCall =>
          if recovery && !Stale(call.answeredAt, now) { return OpenOutcome; }
          Release(key, cycle);
          calls := calls[i := Close(call, ReleasedCall, 0, cycle)];
          return ReleasedOutcome;
        case DispatchedCall =>
          if recovery && !Stale(call.dispatchedAt, now) { return OpenOutcome; }
          calls := calls[i := MarkUncertain(call, cycle)];
          return UncertainOutcome;
        case AnsweredCall =>
          if recovery && !Stale(call.answeredAt, now) { return OpenOutcome; }
          var price := CallPrice(call);
          if price.None? || !IsSafeInteger(call.worst) || call.worst <= 0 {
            calls := calls[i := MarkUncertain(call, cycle)];
            return UncertainOutcome;
          }
          var priced := price.value;
          var over := priced.total > call.worst;
          var debit := if over then call.worst else priced.total;
          Release(key, cycle);
          if debit > 0 {
            var _ := Insert(DebitedRow(call, debit, priced.providerCost, cycle));
          }
          if over {
            calls := calls[i := Close(call, UncertainCall, debit, cycle)];
            return UncertainOutcome;
          }
          calls := calls[i := Close(call, FinalizedCall, debit, cycle)];
          return DebitedOutcome;
        case _ =>
          return ClosedOutcome;
      }
    }
  }
}
