/** What every ledger transaction keeps: one call's rows always sum to minus what the call holds or was
charged, and an owner's balance is exactly the backend's credits minus the weight of their calls. */
module LedgerProofs {
  import opened Common
  import opened Pricing
  import opened PaidKeys
  import opened Ledger

  // ----- sums over rows -----

  /** SUM(amount_micro_usd) of the rows under one key. */
  ghost function AmountAt(ledger: seq<Row>, key: string): int {
    if ledger == [] then 0
    else
      var last := ledger[|ledger| - 1];
      AmountAt(ledger[..|ledger| - 1], key) + if last.key == key then last.amount else 0
  }

  /** The sum of one call's rows: its reserve, release and debit. */
  ghost function CallSum(ledger: seq<Row>, key: string): int {
    AmountAt(ledger, key) + AmountAt(ledger, ReleaseKeyFor(key)) + AmountAt(ledger, DebitKeyFor(key))
  }

  /** What the backend granted, sold, refunded, restored or took back. */
  ghost function BackendCredit(ledger: seq<Row>, user: int): int {
    if ledger == [] then 0
    else
      var last := ledger[|ledger| - 1];
      BackendCredit(ledger[..|ledger| - 1], user)
      + if last.user == user && !IsCallKey(last.key) then last.amount else 0
  }

  /** The part of it taken back by reversals. */
  ghost function Reversed(ledger: seq<Row>, user: int): nat {
    if ledger == [] then 0
    else
      var last := ledger[|ledger| - 1];
      Reversed(ledger[..|ledger| - 1], user)
      + if last.user == user && last.kind == ReversalRow && last.amount < 0 then -last.amount else 0
  }

  /** What an owner's calls hold or were charged. */
  ghost function OwnerWeight(calls: seq<PaidCall>, user: int): int {
    if calls == [] then 0
    else
      var last := calls[|calls| - 1];
      OwnerWeight(calls[..|calls| - 1], user) + if last.user == user then Weight(last) else 0
  }

  lemma {:induction false} AppendRow(ledger: seq<Row>, r: Row, key: string, user: int)
    ensures AmountAt(ledger + [r], key) == AmountAt(ledger, key) + if r.key == key then r.amount else 0
    ensures Balance(ledger + [r], user) == Balance(ledger, user) + if r.user == user then r.amount else 0
    ensures BackendCredit(ledger + [r], user)
         == BackendCredit(ledger, user) + if r.user == user && !IsCallKey(r.key) then r.amount else 0
    ensures Reversed(ledger + [r], user)
         == Reversed(ledger, user) + if r.user == user && r.kind == ReversalRow && r.amount < 0 then -r.amount else 0
    ensures RowAt(ledger + [r], key)
         == if RowAt(ledger, key).Some? then RowAt(ledger, key) else if r.key == key then Some(r) else None
    ensures HasKey(ledger + [r], key) <==> HasKey(ledger, key) || r.key == key
  {
    assert (ledger + [r])[..|ledger|] == ledger;
  }

  lemma {:induction false} AbsentKey(ledger: seq<Row>, key: string)
    requires !HasKey(ledger, key)
    ensures AmountAt(ledger, key) == 0 && RowAt(ledger, key) == None
  {
    if ledger != [] {
      var front := ledger[..|ledger| - 1];
      assert forall r :: r in front ==> r in ledger;
      assert ledger[|ledger| - 1] in ledger;
      AbsentKey(front, key);
    }
  }

  lemma {:induction false} PresentKey(ledger: seq<Row>, key: string)
    requires RowAt(ledger, key).Some?
    ensures HasKey(ledger, key) && RowAt(ledger, key).value.key == key && RowAt(ledger, key).value in ledger
  {
    var front := ledger[..|ledger| - 1];
    assert forall r :: r in front ==> r in ledger;
    assert ledger[|ledger| - 1] in ledger;
    if RowAt(front, key).Some? {
      PresentKey(front, key);
    }
  }

  // ----- sums over calls -----

  lemma {:induction false} AppendCall(calls: seq<PaidCall>, c: PaidCall, agent: int, month: int, user: int)
    ensures MonthSpend(calls + [c], agent, month)
         == MonthSpend(calls, agent, month) + if c.agent == agent && c.month == month then Weight(c) else 0
    ensures OwnerWeight(calls + [c], user) == OwnerWeight(calls, user) + if c.user == user then Weight(c) else 0
  {
    assert (calls + [c])[..|calls|] == calls;
  }

  predicate SameIdentity(a: PaidCall, b: PaidCall) {
    a.key == b.key && a.user == b.user && a.agent == b.agent && a.month == b.month && a.worst == b.worst
  }

  lemma {:induction false} UpdateCall(calls: seq<PaidCall>, i: nat, c: PaidCall, agent: int, month: int, user: int)
    requires i < |calls| && SameIdentity(calls[i], c)
    ensures MonthSpend(calls[i := c], agent, month)
         == MonthSpend(calls, agent, month)
            + if c.agent == agent && c.month == month then Weight(c) - Weight(calls[i]) else 0
    ensures OwnerWeight(calls[i := c], user)
         == OwnerWeight(calls, user) + if c.user == user then Weight(c) - Weight(calls[i]) else 0
  {
    var n := |calls| - 1;
    if i == n {
      assert calls[i := c][..n] == calls[..n];
    } else {
      assert calls[i := c][..n] == calls[..n][i := c];
      UpdateCall(calls[..n], i, c, agent, month, user);
    }
  }

  // ----- the invariant -----

  predicate Open(s: Status) {
    s in {ReservedCall, DispatchedCall, AnsweredCall, RejectedCall, UncertainCall}
  }

  predicate IsReserveOf(r: Row, c: PaidCall) {
    r.kind == ReserveRow && r.amount == -c.worst && r.user == c.user
  }

  /** One call against the ledger: which of its rows exist and what they amount to. */
  ghost predicate CallRows(ledger: seq<Row>, c: PaidCall) {
    && IsReserveKey(c.key)
    && 0 < c.worst <= MAX_SAFE_INTEGER
    && RowAt(ledger, c.key).Some?
    && IsReserveOf(RowAt(ledger, c.key).value, c)
    && AmountAt(ledger, c.key) == -c.worst
    && (Open(c.status) && c.debit.None? ==>
       !HasKey(ledger, ReleaseKeyFor(c.key)) && !HasKey(ledger, DebitKeyFor(c.key)))
    && (c.debit.Some? ==>
          && c.status in {UncertainCall, ReleasedCall, FinalizedCall}
          && HasKey(ledger, ReleaseKeyFor(c.key))
          && AmountAt(ledger, ReleaseKeyFor(c.key)) == c.worst
          && AmountAt(ledger, DebitKeyFor(c.key)) == -c.debit.value
          && 0 <= c.debit.value <= c.worst)
    && (c.status in {ReleasedCall, FinalizedCall} ==> c.debit.Some?)
    && (c.status == ReleasedCall ==> c.debit == Some(0))
    && (c.status == UncertainCall && c.debit.Some? ==> c.debit == Some(c.worst))
    && (c.status == AnsweredCall ==> c.usage.Some?)
  }

  /** Rows in the paid-call namespaces belong to a call. */
  ghost predicate Owned(t: Tables) {
    forall k {:trigger HasKey(t.ledger, k)} :: HasKey(t.ledger, k) && IsCallKey(k) ==>
      exists c :: c in t.calls && k in {c.key, ReleaseKeyFor(c.key), DebitKeyFor(c.key)}
  }

  ghost predicate Inv(t: Tables) {
    && (forall i :: 0 <= i < |t.calls| ==> CallRows(t.ledger, t.calls[i]))
    && (forall i, j :: 0 <= i < j < |t.calls| ==> t.calls[i].key != t.calls[j].key)
    && Owned(t)
  }

  /** CONSERVATION, one call: minus the worst case while open or uncertain (also after an over-reserve
      charge), nothing once released, minus a bounded debit once finalized. */
  lemma {:induction false} CallConservation(t: Tables, i: nat)
    requires Inv(t) && i < |t.calls|
    ensures var c := t.calls[i];
            && CallSum(t.ledger, c.key) == -Weight(c)
            && (Open(c.status) ==> CallSum(t.ledger, c.key) == -c.worst)
            && (c.status == ReleasedCall ==> CallSum(t.ledger, c.key) == 0)
            && (c.status == FinalizedCall ==> -c.worst <= CallSum(t.ledger, c.key) <= 0
                                              && c.debit == Some(-CallSum(t.ledger, c.key)))
  {
    var c := t.calls[i];
    assert CallRows(t.ledger, c);
    if c.debit.None? {
      AbsentKey(t.ledger, ReleaseKeyFor(c.key));
      AbsentKey(t.ledger, DebitKeyFor(c.key));
    }
  }

  // ----- rows of one call do not disturb another -----

  /** A row outside c's three keys leaves CallRows of c alone. */
  lemma {:induction false} OtherRow(ledger: seq<Row>, r: Row, c: PaidCall)
    requires CallRows(ledger, c)
    requires r.key !in {c.key, ReleaseKeyFor(c.key), DebitKeyFor(c.key)}
    ensures CallRows(ledger + [r], c)
  {
    AppendRow(ledger, r, c.key, c.user);
    AppendRow(ledger, r, ReleaseKeyFor(c.key), c.user);
    AppendRow(ledger, r, DebitKeyFor(c.key), c.user);
  }

  /** The keys of two calls are disjoint. */
  lemma {:induction false} DisjointKeys(a: string, b: string)
    requires IsReserveKey(a) && IsReserveKey(b) && a != b
    ensures {a, ReleaseKeyFor(a), DebitKeyFor(a)} !! {b, ReleaseKeyFor(b), DebitKeyFor(b)}
  {
    KeysAreDistinct(a, b);
    KeysAreDistinct(b, a);
  }

  // ----- what finalising one call does to its rows -----

  predicate SettlesCall(r: Row, c: PaidCall) {
    r.key in {ReleaseKeyFor(c.key), DebitKeyFor(c.key)} && r.user == c.user
  }

  /** The ledger only grew, by rows that settle c. */
  ghost predicate Appends(before: seq<Row>, after: seq<Row>, c: PaidCall) {
    before <= after && forall j :: |before| <= j < |after| ==> SettlesCall(after[j], c)
  }

  lemma {:induction false} ReleaseEffect(ledger: seq<Row>, c: PaidCall, cycle: Option<int>) returns (r: Row)
    requires CallRows(ledger, c) && !HasKey(ledger, ReleaseKeyFor(c.key))
    ensures ReleaseReserve(ledger, c.key, cycle) == ledger + [r]
    ensures r.key == ReleaseKeyFor(c.key) && r.amount == c.worst && r.user == c.user && r.kind == ReleaseRow
  {
    var f := RowAt(ledger, c.key).value;
    r := Row(f.user, ReleaseRow, -f.amount, f.agent, cycle, None, None, ReleaseKeyFor(c.key));
  }

  /** The ledger after c's reserve is given back and `charged` is taken. */
  ghost predicate Settled(ledger: seq<Row>, after: seq<Row>, c: PaidCall, charged: int) {
    && RowAt(after, c.key) == RowAt(ledger, c.key) && AmountAt(after, c.key) == AmountAt(ledger, c.key)
    && HasKey(after, ReleaseKeyFor(c.key)) && AmountAt(after, ReleaseKeyFor(c.key)) == c.worst
    && AmountAt(after, DebitKeyFor(c.key)) == -charged
    && Appends(ledger, after, c)
  }

  lemma {:induction false} SettledRows(
      ledger: seq<Row>, after: seq<Row>, c: PaidCall, status: Status, charged: int, cycle: Option<int>)
    requires CallRows(ledger, c) && Settled(ledger, after, c, charged) && 0 <= charged <= c.worst
    requires status in {UncertainCall, ReleasedCall, FinalizedCall}
    requires status == ReleasedCall ==> charged == 0
    requires status == UncertainCall ==> charged == c.worst
    ensures CallRows(after, Close(c, status, charged, cycle))
  {
  }

  /** Releasing an open call closes it with nothing charged. */
  lemma {:induction false} ReleaseStep(ledger: seq<Row>, c: PaidCall, cycle: Option<int>)
    requires CallRows(ledger, c) && Open(c.status) && c.debit.None?
    ensures var after := ReleaseReserve(ledger, c.key, cycle);
            && CallRows(after, Close(c, ReleasedCall, 0, cycle))
            && Appends(ledger, after, c)
  {
    var r := ReleaseEffect(ledger, c, cycle);
    ReleaseRowEffect(ledger, r, c);
    SettledRows(ledger, ledger + [r], c, ReleasedCall, 0, cycle);
  }

  lemma {:induction false} ReleaseRowEffect(ledger: seq<Row>, r: Row, c: PaidCall)
    requires CallRows(ledger, c) && c.debit.None? && Open(c.status)
    requires r.key == ReleaseKeyFor(c.key) && r.amount == c.worst && r.user == c.user
    ensures Settled(ledger, ledger + [r], c, 0) && !HasKey(ledger + [r], DebitKeyFor(c.key))
  {
    KeysAreDistinct(c.key, c.key);
    AbsentKey(ledger, ReleaseKeyFor(c.key));
    AbsentKey(ledger, DebitKeyFor(c.key));
    AppendRow(ledger, r, c.key, c.user);
    AppendRow(ledger, r, ReleaseKeyFor(c.key), c.user);
    AppendRow(ledger, r, DebitKeyFor(c.key), c.user);
  }

  lemma {:induction false} DebitRowEffect(ledger: seq<Row>, released: seq<Row>, d: Row, c: PaidCall)
    requires CallRows(ledger, c) && Settled(ledger, released, c, 0)
    requires d.key == DebitKeyFor(c.key) && d.user == c.user
    ensures Settled(ledger, released + [d], c, -d.amount)
  {
    KeysAreDistinct(c.key, c.key);
    AppendRow(released, d, c.key, c.user);
    AppendRow(released, d, ReleaseKeyFor(c.key), c.user);
    AppendRow(released, d, DebitKeyFor(c.key), c.user);
  }

  /** Settling an answered call charges a debit bounded by its reserve. */
  lemma {:induction false} SettleStep(ledger: seq<Row>, c: PaidCall, p: Priced, cycle: Option<int>)
    requires CallRows(ledger, c) && c.status == AnsweredCall && c.debit.None? && 0 <= p.total
    ensures var (after, c', out) := Settle(ledger, c, p, cycle);
            && CallRows(after, c') && Appends(ledger, after, c)
            && SameIdentity(c, c') && Weight(c') <= Weight(c)
            && c'.debit == Some(Min(p.total, c.worst))
            && out == (if p.total <= c.worst then DebitedOutcome else UncertainOutcome)
            && c'.status == (if p.total <= c.worst then FinalizedCall else UncertainCall)
  {
    var r := ReleaseEffect(ledger, c, cycle);
    var debit := if p.total > c.worst then c.worst else p.total;
    var d := DebitedRow(c, debit, p.providerCost, cycle);
    var after, c', out := SettleParts(ledger, c, p, cycle, r);
    ReleaseRowEffect(ledger, r, c);
    DebitRowEffect(ledger, ledger + [r], d, c);
    SettledRows(ledger, after, c, c'.status, debit, cycle);
  }

  lemma {:induction false} SettleParts(ledger: seq<Row>, c: PaidCall, p: Priced, cycle: Option<int>, r: Row)
    returns (after: seq<Row>, c': PaidCall, out: Finalization)
    requires CallRows(ledger, c) && Open(c.status) && c.debit.None?
    requires ReleaseReserve(ledger, c.key, cycle) == ledger + [r]
    requires r.key == ReleaseKeyFor(c.key) && r.amount == c.worst && r.user == c.user
    ensures Settle(ledger, c, p, cycle) == (after, c', out)
    ensures var over := p.total > c.worst;
            var debit := if over then c.worst else p.total;
            && after ==
                 (if debit > 0 then ledger + [r] + [DebitedRow(c, debit, p.providerCost, cycle)] else ledger + [r])
            && c' == Close(c, if over then UncertainCall else FinalizedCall, debit, cycle)
            && out == (if over then UncertainOutcome else DebitedOutcome)
  {
    ReleaseRowEffect(ledger, r, c);
    after, c', out := Settle(ledger, c, p, cycle).0, Settle(ledger, c, p, cycle).1, Settle(ledger, c, p, cycle).2;
  }

  lemma {:induction false} PriceIsNonnegative(c: PaidCall)
    requires CallPrice(c).Some?
    ensures 0 <= CallPrice(c).value.total
  {
    NeverBelowProviderCost(c.price, c.usage.value, c.marginPct);
  }

  /** What finalising one call keeps about it, whatever its state. */
  ghost predicate FinalizedWell(before: seq<Row>, c: PaidCall, after: seq<Row>, c': PaidCall) {
    && CallRows(after, c') && Appends(before, after, c)
    && SameIdentity(c, c') && Weight(c') <= Weight(c)
    && (c.status == UncertainCall ==> c' == c && after == before)
  }

  lemma {:induction false} UnchangedRows(ledger: seq<Row>, c: PaidCall, cycle: Option<int>)
    requires CallRows(ledger, c)
    ensures FinalizedWell(ledger, c, ledger, c)
    ensures Open(c.status) && c.debit.None? && c.status != UncertainCall ==>
              FinalizedWell(ledger, c, ledger, MarkUncertain(c, cycle))
  {
  }

  lemma {:induction false} FinalizeStep(ledger: seq<Row>, c: PaidCall, mode: Mode, cycle: Option<int>, now: real)
    requires CallRows(ledger, c)
    ensures var f := FinalizeCall(ledger, c, mode, cycle, now); FinalizedWell(ledger, c, f.0, f.1)
  {
    UnchangedRows(ledger, c, cycle);
    if c.status in {ReservedCall, RejectedCall} {
      ReleaseStep(ledger, c, cycle);
    } else if c.status == AnsweredCall && CallPrice(c).Some? {
      PriceIsNonnegative(c);
      SettleStep(ledger, c, CallPrice(c).value, cycle);
    }
  }

  lemma {:induction false} AppendedRowsKeepOthers(before: seq<Row>, rows: seq<Row>, c: PaidCall, other: PaidCall)
    requires CallRows(before, other) && IsReserveKey(c.key) && other.key != c.key
    requires forall r :: r in rows ==> SettlesCall(r, c)
    ensures CallRows(before + rows, other)
  {
    if rows == [] {
      assert before + rows == before;
    } else {
      var front, last := rows[..|rows| - 1], rows[|rows| - 1];
      assert last in rows;
      assert forall r :: r in front ==> r in rows;
      AppendedRowsKeepOthers(before, front, c, other);
      DisjointKeys(c.key, other.key);
      assert last.key in {c.key, ReleaseKeyFor(c.key), DebitKeyFor(c.key)};
      OtherRow(before + front, last, other);
      assert before + rows == before + front + [last];
    }
  }

  lemma {:induction false} HasKeyOfConcat(a: seq<Row>, b: seq<Row>, key: string)
    requires HasKey(a + b, key)
    ensures HasKey(a, key) || exists r :: r in b && r.key == key
  {
  }

  /** Finalising keeps the invariant. */
  lemma {:induction false} FinalizeKeepsInv(t: Tables, key: string, mode: Mode, cycle: Option<int>, now: real)
    requires Inv(t)
    ensures Inv(Finalize(t, key, mode, cycle, now).0)
  {
    var i := FindCall(t.calls, key);
    if i < |t.calls| {
      var c := t.calls[i];
      var (after, c', _) := FinalizeCall(t.ledger, c, mode, cycle, now);
      FinalizeStep(t.ledger, c, mode, cycle, now);
      var rows := after[|t.ledger|..];
      assert after == t.ledger + rows;
      assert forall r :: r in rows ==> SettlesCall(r, c);
      var calls' := t.calls[i := c'];
      forall j | 0 <= j < |calls'| ensures CallRows(after, calls'[j]) {
        if j != i {
          assert CallRows(t.ledger, t.calls[j]);
          AppendedRowsKeepOthers(t.ledger, rows, c, t.calls[j]);
        }
      }
      OwnedAfterUpdate(t, rows, i, c');
    }
  }

  lemma {:induction false} OwnedAfterUpdate(t: Tables, rows: seq<Row>, i: nat, c': PaidCall)
    requires Owned(t) && i < |t.calls| && c'.key == t.calls[i].key
    requires forall r :: r in rows ==> r.key in {ReleaseKeyFor(c'.key), DebitKeyFor(c'.key)}
    ensures Owned(Tables(t.ledger + rows, t.calls[i := c']))
  {
    var calls' := t.calls[i := c'];
    assert calls'[i] in calls';
    forall k | HasKey(t.ledger + rows, k) && IsCallKey(k)
      ensures exists d :: d in calls' && k in {d.key, ReleaseKeyFor(d.key), DebitKeyFor(d.key)}
    {
      HasKeyOfConcat(t.ledger, rows, k);
      if HasKey(t.ledger, k) {
        var d :| d in t.calls && k in {d.key, ReleaseKeyFor(d.key), DebitKeyFor(d.key)};
        var j :| 0 <= j < |t.calls| && t.calls[j] == d;
        assert calls'[j] in calls';
      } else {
        assert c' in calls';
      }
    }
  }

  // ----- the other transactions -----

  /** A state change that moves no money. */
  lemma {:induction false} StatusChangeKeepsInv(t: Tables, i: nat, c': PaidCall)
    requires Inv(t) && i < |t.calls| && SameIdentity(t.calls[i], c')
    requires Open(t.calls[i].status) && t.calls[i].debit.None? && Open(c'.status) && c'.debit.None?
    requires c'.status == AnsweredCall ==> c'.usage.Some?
    ensures Inv(t.(calls := t.calls[i := c']))
  {
    assert CallRows(t.ledger, t.calls[i]);
    assert t.ledger + [] == t.ledger;
    OwnedAfterUpdate(t, [], i, c');
  }

  lemma {:induction false} DispatchKeepsInv(t: Tables, key: string, now: real)
    requires Inv(t)
    ensures Inv(MarkDispatched(t, key, now).0)
  {
    var i := FindCall(t.calls, key);
    if i < |t.calls| && t.calls[i].status == ReservedCall {
      assert CallRows(t.ledger, t.calls[i]);
      StatusChangeKeepsInv(t, i, t.calls[i].(status := DispatchedCall, dispatchedAt := Some(now)));
    }
  }

  lemma {:induction false} RecordKeepsInv(t: Tables, key: string, result: CallResult, now: real)
    requires Inv(t)
    ensures Inv(RecordResult(t, key, result, now).0)
  {
    var i := FindCall(t.calls, key);
    if i < |t.calls| && t.calls[i].status == DispatchedCall {
      assert CallRows(t.ledger, t.calls[i]);
      StatusChangeKeepsInv(t, i, WithResult(t.calls[i], result, now));
    }
  }

  lemma {:induction false} FreshKeyIsUnused(t: Tables, key: string)
    requires Inv(t) && IsReserveKey(key) && FindCall(t.calls, key) == |t.calls|
    ensures !HasKey(t.ledger, ReleaseKeyFor(key)) && !HasKey(t.ledger, DebitKeyFor(key))
  {
    KeysAreDistinct(key, key);
    if HasKey(t.ledger, ReleaseKeyFor(key)) {
      var c :| c in t.calls && ReleaseKeyFor(key) in {c.key, ReleaseKeyFor(c.key), DebitKeyFor(c.key)};
      assert CallRows(t.ledger, c);
      KeysAreDistinct(key, c.key);
      assert false;
    }
    if HasKey(t.ledger, DebitKeyFor(key)) {
      var c :| c in t.calls && DebitKeyFor(key) in {c.key, ReleaseKeyFor(c.key), DebitKeyFor(c.key)};
      assert CallRows(t.ledger, c);
      KeysAreDistinct(key, c.key);
      KeysAreDistinct(c.key, key);
      assert false;
    }
  }

  lemma {:induction false} NewCallRows(t: Tables, q: Request, now: real)
    requires Inv(t) && IsReserveKey(q.key) && Reserve(t, q, now).1 == Granted
    ensures CallRows(t.ledger + [ReservedRow(q)], NewCall(q, now))
  {
    var r := ReservedRow(q);
    FreshKeyIsUnused(t, q.key);
    KeysAreDistinct(q.key, q.key);
    AbsentKey(t.ledger, q.key);
    AppendRow(t.ledger, r, q.key, q.user);
    AppendRow(t.ledger, r, ReleaseKeyFor(q.key), q.user);
    AppendRow(t.ledger, r, DebitKeyFor(q.key), q.user);
  }

  lemma {:induction false} ReserveRowKeepsOthers(t: Tables, q: Request, c: PaidCall)
    requires IsReserveKey(q.key) && CallRows(t.ledger, c) && c.key != q.key
    ensures CallRows(t.ledger + [ReservedRow(q)], c)
  {
    DisjointKeys(q.key, c.key);
    assert q.key in {q.key, ReleaseKeyFor(q.key), DebitKeyFor(q.key)};
    OtherRow(t.ledger, ReservedRow(q), c);
  }

  lemma {:induction false} ReserveKeepsInv(t: Tables, q: Request, now: real)
    requires Inv(t) && IsReserveKey(q.key)
    ensures Inv(Reserve(t, q, now).0)
  {
    var (t', out) := Reserve(t, q, now);
    if out == Granted {
      NewCallRows(t, q, now);
      forall j | 0 <= j < |t.calls| ensures CallRows(t'.ledger, t'.calls[j]) {
        assert CallRows(t.ledger, t.calls[j]);
        ReserveRowKeepsOthers(t, q, t.calls[j]);
      }
      assert t'.calls[|t.calls|] == NewCall(q, now);
      OwnedAfterAppend(t, ReservedRow(q), NewCall(q, now));
    }
  }

  lemma {:induction false} OwnedAfterAppend(t: Tables, r: Row, c: PaidCall)
    requires Owned(t) && r.key == c.key
    ensures Owned(Tables(t.ledger + [r], t.calls + [c]))
  {
    assert c in t.calls + [c];
    forall k | HasKey(t.ledger + [r], k) && IsCallKey(k)
      ensures exists d :: d in t.calls + [c] && k in {d.key, ReleaseKeyFor(d.key), DebitKeyFor(d.key)}
    {
      HasKeyOfConcat(t.ledger, [r], k);
      if HasKey(t.ledger, k) {
        var d :| d in t.calls && k in {d.key, ReleaseKeyFor(d.key), DebitKeyFor(d.key)};
        assert d in t.calls + [c];
      }
    }
  }

  lemma {:induction false} BackendRowKeepsInv(t: Tables, r: Row)
    requires Inv(t)
    ensures Inv(InsertBackendRow(t, r))
  {
    var t' := InsertBackendRow(t, r);
    if t' != t {
      forall j | 0 <= j < |t.calls| ensures CallRows(t'.ledger, t.calls[j]) {
        assert CallRows(t.ledger, t.calls[j]);
        KeysAreDistinct(t.calls[j].key, t.calls[j].key);
        OtherRow(t.ledger, r, t.calls[j]);
      }
      forall k | HasKey(t'.ledger, k) && IsCallKey(k)
        ensures exists d :: d in t.calls && k in {d.key, ReleaseKeyFor(d.key), DebitKeyFor(d.key)}
      {
        HasKeyOfConcat(t.ledger, [r], k);
      }
    }
  }

  // ----- balances -----

  /** GLOBAL CONSERVATION: an owner's balance is what the backend credited minus the weight of their calls. */
  ghost predicate Conserved(t: Tables, user: int) {
    Balance(t.ledger, user) == BackendCredit(t.ledger, user) - OwnerWeight(t.calls, user)
  }

  /** A balance only falls below zero by what reversals took back. */
  ghost predicate Solvent(t: Tables, user: int) {
    Balance(t.ledger, user) + Reversed(t.ledger, user) >= 0
  }

  /** Appending a row of a paid call moves the balance only. */
  lemma {:induction false} CallRowMoves(ledger: seq<Row>, r: Row, user: int)
    requires IsCallKey(r.key) && r.kind != ReversalRow
    ensures Balance(ledger + [r], user) == Balance(ledger, user) + if r.user == user then r.amount else 0
    ensures BackendCredit(ledger + [r], user) == BackendCredit(ledger, user)
    ensures Reversed(ledger + [r], user) == Reversed(ledger, user)
  {
    AppendRow(ledger, r, r.key, user);
  }

  /** The ledger moves by exactly the change of the call's weight. */
  ghost predicate MovesWeight(before: seq<Row>, c: PaidCall, after: seq<Row>, c': PaidCall, user: int) {
    && Balance(after, user) == Balance(before, user) + (if c.user == user then Weight(c) - Weight(c') else 0)
    && BackendCredit(after, user) == BackendCredit(before, user)
    && Reversed(after, user) == Reversed(before, user)
  }

  lemma {:induction false} ReleaseMoves(ledger: seq<Row>, c: PaidCall, cycle: Option<int>, user: int)
    requires CallRows(ledger, c) && Open(c.status) && c.debit.None?
    ensures MovesWeight(ledger, c, ReleaseReserve(ledger, c.key, cycle), Close(c, ReleasedCall, 0, cycle), user)
  {
    var r := ReleaseEffect(ledger, c, cycle);
    KeysAreDistinct(c.key, c.key);
    CallRowMoves(ledger, r, user);
  }

  /** The rows a settlement appends. */
  lemma {:induction false} SettleShape(ledger: seq<Row>, c: PaidCall, p: Priced, cycle: Option<int>)
    returns (r: Row, d: Row)
    requires CallRows(ledger, c) && c.status == AnsweredCall && c.debit.None? && 0 <= p.total
    ensures IsCallKey(r.key) && r.kind == ReleaseRow && r.amount == c.worst && r.user == c.user
    ensures IsCallKey(d.key) && d.kind == DebitRow && d.amount == -Min(p.total, c.worst) && d.user == c.user
    ensures Settle(ledger, c, p, cycle).0 == if d.amount < 0 then ledger + [r] + [d] else ledger + [r]
  {
    r := ReleaseEffect(ledger, c, cycle);
    var debit := if p.total > c.worst then c.worst else p.total;
    d := DebitedRow(c, debit, p.providerCost, cycle);
    KeysAreDistinct(c.key, c.key);
    ReleaseRowEffect(ledger, r, c);
  }

  lemma {:induction false} SettledWeight(ledger: seq<Row>, c: PaidCall, p: Priced, cycle: Option<int>)
    requires c.status == AnsweredCall
    ensures Weight(c) == c.worst && Weight(Settle(ledger, c, p, cycle).1) == Min(p.total, c.worst)
  {
  }

  lemma {:induction false} SettleMoves(ledger: seq<Row>, c: PaidCall, p: Priced, cycle: Option<int>, user: int)
    requires CallRows(ledger, c) && c.status == AnsweredCall && c.debit.None? && 0 <= p.total
    ensures var s := Settle(ledger, c, p, cycle); MovesWeight(ledger, c, s.0, s.1, user)
  {
    var r, d := SettleShape(ledger, c, p, cycle);
    SettledWeight(ledger, c, p, cycle);
    CallRowMoves(ledger, r, user);
    CallRowMoves(ledger + [r], d, user);
  }

  lemma {:induction false} StayMoves(ledger: seq<Row>, c: PaidCall, cycle: Option<int>, user: int)
    ensures MovesWeight(ledger, c, ledger, c, user)
    ensures Open(c.status) ==> MovesWeight(ledger, c, ledger, MarkUncertain(c, cycle), user)
  {
  }

  lemma {:induction false} FinalizeMoves(
      ledger: seq<Row>, c: PaidCall, mode: Mode, cycle: Option<int>, now: real, user: int)
    requires CallRows(ledger, c)
    ensures var f := FinalizeCall(ledger, c, mode, cycle, now); MovesWeight(ledger, c, f.0, f.1, user)
  {
    StayMoves(ledger, c, cycle, user);
    match c.status
    case ReservedCall => ReleaseMoves(ledger, c, cycle, user);
    case RejectedCall => ReleaseMoves(ledger, c, cycle, user);
    case AnsweredCall =>
      if CallPrice(c).Some? {
        PriceIsNonnegative(c);
        SettleMoves(ledger, c, CallPrice(c).value, cycle, user);
      }
    case _ =>
  }

  lemma {:induction false} FinalizeConserves(
      t: Tables, key: string, mode: Mode, cycle: Option<int>, now: real, user: int)
    requires Inv(t) && Conserved(t, user) && Solvent(t, user)
    ensures var t' := Finalize(t, key, mode, cycle, now).0;
            Conserved(t', user) && Solvent(t', user)
            && Balance(t'.ledger, user) >= Balance(t.ledger, user)
  {
    var i := FindCall(t.calls, key);
    if i < |t.calls| {
      var c := t.calls[i];
      assert CallRows(t.ledger, c);
      FinalizeStep(t.ledger, c, mode, cycle, now);
      FinalizeMoves(t.ledger, c, mode, cycle, now, user);
      UpdateCall(t.calls, i, FinalizeCall(t.ledger, c, mode, cycle, now).1, c.agent, c.month, user);
    }
  }

  lemma {:induction false} DispatchConserves(t: Tables, key: string, now: real, user: int)
    requires Conserved(t, user) && Solvent(t, user)
    ensures Conserved(MarkDispatched(t, key, now).0, user) && Solvent(MarkDispatched(t, key, now).0, user)
  {
    var i := FindCall(t.calls, key);
    if i < |t.calls| && t.calls[i].status == ReservedCall {
      UpdateCall(t.calls, i, t.calls[i].(status := DispatchedCall, dispatchedAt := Some(now)), 0, 0, user);
    }
  }

  lemma {:induction false} RecordConserves(t: Tables, key: string, result: CallResult, now: real, user: int)
    requires Conserved(t, user) && Solvent(t, user)
    ensures Conserved(RecordResult(t, key, result, now).0, user) && Solvent(RecordResult(t, key, result, now).0, user)
  {
    var i := FindCall(t.calls, key);
    if i < |t.calls| && t.calls[i].status == DispatchedCall {
      UpdateCall(t.calls, i, WithResult(t.calls[i], result, now), 0, 0, user);
    }
  }

  lemma {:induction false} ReserveConserves(t: Tables, q: Request, now: real, user: int)
    requires Conserved(t, user) && Solvent(t, user) && IsReserveKey(q.key)
    ensures Conserved(Reserve(t, q, now).0, user) && Solvent(Reserve(t, q, now).0, user)
  {
    if Reserve(t, q, now).1 == Granted {
      KeysAreDistinct(q.key, q.key);
      CallRowMoves(t.ledger, ReservedRow(q), user);
      AppendCall(t.calls, NewCall(q, now), 0, 0, user);
    }
  }

  lemma {:induction false} BackendRowConserves(t: Tables, r: Row, user: int)
    requires Conserved(t, user) && Solvent(t, user)
    ensures Conserved(InsertBackendRow(t, r), user) && Solvent(InsertBackendRow(t, r), user)
  {
    AppendRow(t.ledger, r, r.key, user);
  }

  // ----- repeating a step moves no money -----

  lemma {:induction false} FindAfterUpdate(calls: seq<PaidCall>, i: nat, c: PaidCall, key: string)
    requires i < |calls| && calls[i].key == c.key
    ensures FindCall(calls[i := c], key) == FindCall(calls, key)
  {
    var n := |calls| - 1;
    if i < n {
      assert calls[i := c][..n] == calls[..n][i := c];
      FindAfterUpdate(calls[..n], i, c, key);
    } else {
      assert calls[i := c][..n] == calls[..n];
    }
  }

  predicate Settling(out: Finalization) {
    out in {ReleasedOutcome, DebitedOutcome, UncertainOutcome, ClosedOutcome}
  }

  predicate Closed(s: Status) {
    s in {UncertainCall, ReleasedCall, FinalizedCall}
  }

  lemma {:induction false} SettlingCloses(ledger: seq<Row>, c: PaidCall, mode: Mode, cycle: Option<int>, now: real)
    ensures var (after, c1, out) := FinalizeCall(ledger, c, mode, cycle, now);
            && out != MissingOutcome
            && (out == OpenOutcome ==> after == ledger && c1 == c)
            && (Settling(out) ==> Closed(c1.status))
  {
  }

  lemma {:induction false} ClosedStays(ledger: seq<Row>, c: PaidCall, mode: Mode, cycle: Option<int>, now: real)
    requires Closed(c.status)
    ensures FinalizeCall(ledger, c, mode, cycle, now) == (ledger, c, ClosedOutcome)
  {
  }

  lemma {:induction false} UpdatedTwice(calls: seq<PaidCall>, i: nat, c: PaidCall)
    requires i < |calls|
    ensures calls[i := calls[i]] == calls && calls[i := c][i] == c && calls[i := c][i := c] == calls[i := c]
  {
  }
}
