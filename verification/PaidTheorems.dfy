/** The main results about paid calls: for every finite run of every interleaving from empty tables. */
module PaidTheorems {
  import opened Common
  import opened Pricing
  import opened PaidKeys
  import opened Ledger
  import opened LedgerProofs
  import opened PaidCalls

  ghost function Reached(steps: seq<Step>): World {
    Run(Init, steps)
  }

  lemma {:induction false} ReachedOk(steps: seq<Step>)
    ensures WInv(Reached(steps))
  {
    InitOk();
    RunKeeps(Init, steps);
  }

  /** One call's ledger rows sum to minus its worst case while it is open or uncertain, to zero once
      released, and to minus a debit between zero and the worst case once finalized. */
  lemma {:induction false} LedgerConservation(steps: seq<Step>, i: nat)
    requires i < |Reached(steps).db.calls|
    ensures var t := Reached(steps).db; var c := t.calls[i];
            && (Open(c.status) ==> CallSum(t.ledger, c.key) == -c.worst)
            && (c.status == ReleasedCall ==> CallSum(t.ledger, c.key) == 0)
            && (c.status == FinalizedCall ==>
               c.debit == Some(-CallSum(t.ledger, c.key)) && 0 <= c.debit.value <= c.worst)
  {
    ReachedOk(steps);
    CallConservation(Reached(steps).db, i);
  }

  /** The owner's balance is the backend's credits minus the weight of the owner's calls; only reversals
      can take it below zero; and no agent's month spend exceeds the cap of its latest admitted call. */
  lemma {:induction false} BalanceAndCap(steps: seq<Step>, user: int, agent: int, month: int)
    ensures var w := Reached(steps);
            && Balance(w.db.ledger, user) == BackendCredit(w.db.ledger, user) - OwnerWeight(w.db.calls, user)
            && (Reversed(w.db.ledger, user) == 0 ==> Balance(w.db.ledger, user) >= 0)
            && Balance(w.db.ledger, user) + Reversed(w.db.ledger, user) >= 0
            && MonthSpend(w.db.calls, agent, month) <= LatestCap(w, agent, month)
  {
    ReachedOk(steps);
    var w := Reached(steps);
    assert Conserved(w.db, user) && Solvent(w.db, user);
    assert MonthSpend(w.db.calls, agent, month) <= LatestCap(w, agent, month);
  }

  // ----- reversals -----

  /** What a step takes back fits the balance it finds. */
  predicate Covered(w: World, s: Step, user: int) {
    s.BackendStep? && s.row.kind == ReversalRow && s.row.user == user && InsertBackendRow(w.db, s.row) != w.db ==>
      -s.row.amount <= Balance(w.db.ledger, user)
  }

  predicate AllCovered(w: World, steps: seq<Step>, user: int)
    decreases |steps|
  {
    steps == [] || (Covered(w, steps[0], user) && AllCovered(Apply(w, steps[0]), steps[1..], user))
  }

  predicate NeverBelowZero(w: World, steps: seq<Step>, user: int)
    decreases |steps|
  {
    Balance(w.db.ledger, user) >= 0 && (steps == [] || NeverBelowZero(Apply(w, steps[0]), steps[1..], user))
  }

  lemma {:induction false} BackendRowBalance(w: World, row: Row, user: int)
    requires Balance(w.db.ledger, user) >= 0
    ensures Balance(InsertBackendRow(w.db, row).ledger, user) >= 0 <==> Covered(w, BackendStep(row), user)
  {
    AppendRow(w.db.ledger, row, row.key, user);
    assert w.db.ledger + [row] != w.db.ledger;
  }

  lemma {:induction false} ReserveBalance(w: World, q: Request, cycleKey: string, now: real, user: int)
    requires Balance(w.db.ledger, user) >= 0
    ensures Balance(DoReserve(w, q, cycleKey, now).db.ledger, user) >= 0
  {
    var key := ReserveKeyFor(q.agent, cycleKey);
    if key.Ok? && Reserve(w.db, q.(key := key.value), now).1 == Granted {
      GrantFacts(w.db, q.(key := key.value), now);
      AppendRow(w.db.ledger, ReservedRow(q.(key := key.value)), key.value, user);
    }
  }

  lemma {:induction false} StepBalance(w: World, s: Step, user: int)
    requires WInv(w) && Balance(w.db.ledger, user) >= 0
    ensures Balance(Apply(w, s).db.ledger, user) >= 0 <==> Covered(w, s, user)
  {
    match s
    case ReserveStep(q, cycleKey, now) => ReserveBalance(w, q, cycleKey, now, user);
    case FinalizeStep(key, mode, cycle, now) =>
      assert Conserved(w.db, user) && Solvent(w.db, user);
      FinalizeConserves(w.db, key, mode, cycle, now, user);
    case BackendStep(row) => BackendRowBalance(w, row, user);
    case _ => UnlockedStepsMoveNothing(w, s, 0, 0);
  }

  lemma {:induction false} RunBalance(w: World, steps: seq<Step>, user: int)
    requires WInv(w) && Balance(w.db.ledger, user) >= 0
    ensures NeverBelowZero(w, steps, user) <==> AllCovered(w, steps, user)
    decreases |steps|
  {
    if steps != [] {
      StepBalance(w, steps[0], user);
      if Covered(w, steps[0], user) {
        StepKeeps(w, steps[0]);
        RunBalance(Apply(w, steps[0]), steps[1..], user);
      }
    }
  }

  /** Over any run an owner's balance is never below zero if and only if each reversal takes back at most the
      balance it finds. */
  lemma {:induction false} BalanceHoldsExactly(steps: seq<Step>, user: int)
    ensures NeverBelowZero(Init, steps, user) <==> AllCovered(Init, steps, user)
  {
    InitOk();
    RunBalance(Init, steps, user);
  }

  /** The run that breaks it: a top-up, a reservation that spends all of it, and the reversal of the top-up. */
  function SpentTopup(q: Request, cycleKey: string, now: real): seq<Step> {
    [ BackendStep(Row(q.user, TopupRow, q.worst, None, None, None, None, "topup")),
      ReserveStep(q, cycleKey, now),
      BackendStep(Row(q.user, ReversalRow, -q.worst, None, None, None, None, "reversal")) ]
  }

  lemma {:induction false} BackendKeys()
    ensures !IsCallKey("topup") && !IsCallKey("reversal")
  {
    assert "topup"[0] == 't' && "reversal"[0] == 'r' && "reversal"[2] == 'v';
  }

  lemma {:induction false} FreshRowLands(t: Tables, r: Row, user: int)
    requires RowSignOk(r) && IsBackendKind(r.kind) && !IsCallKey(r.key) && !HasKey(t.ledger, r.key)
    ensures InsertBackendRow(t, r) == t.(ledger := t.ledger + [r])
    ensures Balance(t.ledger + [r], user) == Balance(t.ledger, user) + if r.user == user then r.amount else 0
  {
    AppendRow(t.ledger, r, r.key, user);
  }

  lemma {:induction false} SpendsTopup(top: Row, q: Request, now: real)
    requires top.user == q.user && top.amount == q.worst && top.key != q.key
    requires 0 < q.worst <= q.cap && IsSafeInteger(q.cap)
    ensures Reserve(Tables([top], []), q, now) == (Tables([top, ReservedRow(q)], [NewCall(q, now)]), Granted)
    ensures Balance([top, ReservedRow(q)], q.user) == 0
  {
    assert [] + [top] == [top] && [top] + [ReservedRow(q)] == [top, ReservedRow(q)];
    assert [] + [NewCall(q, now)] == [NewCall(q, now)];
    AppendRow([], top, q.key, q.user);
    AppendRow([top], ReservedRow(q), q.key, q.user);
    assert !OwnerBlocked([], q.user, now);
  }

  lemma {:induction false} RunOfThree(w: World, a: Step, b: Step, c: Step)
    ensures Run(w, [a, b, c]) == Apply(Apply(Apply(w, a), b), c)
  {
    assert [a, b, c][1..] == [b, c] && [b, c][1..] == [c] && [c][1..] == [];
    var w1 := Apply(w, a);
    var w2 := Apply(w1, b);
    assert Run(w, [a, b, c]) == Run(w1, [b, c]) == Run(w2, [c]);
    assert Run(w2, [c]) == Run(Apply(w2, c), []);
  }

  /** Whatever the amount, the admitted call and the cycle: the balance ends below zero by the whole top-up. */
  lemma {:induction false} ReversalCanOverdraw(q: Request, cycleKey: string, now: real)
    requires 0 < q.worst <= q.cap && IsSafeInteger(q.cap) && ReserveKeyFor(q.agent, cycleKey).Ok?
    ensures var w := Reached(SpentTopup(q, cycleKey, now));
            && |w.db.calls| == 1 && w.db.calls[0].status == ReservedCall && w.db.calls[0].worst == q.worst
            && Balance(w.db.ledger, q.user) == -q.worst
  {
    var steps := SpentTopup(q, cycleKey, now);
    var top, back := steps[0].row, steps[2].row;
    var q' := q.(key := ReserveKeyFor(q.agent, cycleKey).value);
    ReserveKeyInjective(q.agent, cycleKey, q.agent, cycleKey);
    BackendKeys();
    FreshRowLands(Init.db, top, q.user);
    assert [] + [top] == [top];
    SpendsTopup(top, q', now);
    var spent := Tables([top, ReservedRow(q')], [NewCall(q', now)]);
    assert q'.key != "reversal";
    assert !HasKey(spent.ledger, "reversal");
    FreshRowLands(spent, back, q.user);
    RunOfThree(Init, steps[0], steps[1], steps[2]);
  }

  /** At most one provider request per reservation; nothing possibly billed is released; and only usage the
      provider reported is ever charged, also where the charge exceeds the reserve and the call ends uncertain. */
  lemma {:induction false} AtMostOneRequest(steps: seq<Step>, i: nat)
    requires i < |Reached(steps).db.calls|
    ensures var w := Reached(steps); var c := w.db.calls[i];
            && Sent(w.wire, c.key) <= 1
            && (c.status == ReleasedCall ==>
                  || Sent(w.wire, c.key) == 0
                  || (c.key in w.replies && w.replies[c.key].usage.None? && !w.replies[c.key].ok
                      && w.replies[c.key].status.Some?
                      && w.replies[c.key].status.value in {400, 401, 403, 404, 413, 429}))
            && (c.status == FinalizedCall || (c.debit.Some? && c.debit.value > 0) ==>
                  c.key in w.replies && w.replies[c.key].usage.Some? && c.usage == w.replies[c.key].usage)
  {
    ReachedOk(steps);
    var w := Reached(steps);
    assert CallOk(w, w.db.calls[i]) && CallRows(w.db.ledger, w.db.calls[i]);
    CallConservation(w.db, i);
  }

  // ----- an uncertain call stops the owner -----

  predicate HasUncertain(calls: seq<PaidCall>, user: int) {
    exists i :: 0 <= i < |calls| && calls[i].user == user && calls[i].status == UncertainCall
  }

  /** The owner's reservations, in order. */
  function KeysOf(calls: seq<PaidCall>, user: int): seq<string> {
    if calls == [] then []
    else
      var last := calls[|calls| - 1];
      KeysOf(calls[..|calls| - 1], user) + if last.user == user then [last.key] else []
  }

  lemma {:induction false} KeysAfterUpdate(calls: seq<PaidCall>, i: nat, c: PaidCall, user: int)
    requires i < |calls| && SameIdentity(calls[i], c)
    ensures KeysOf(calls[i := c], user) == KeysOf(calls, user)
  {
    var n := |calls| - 1;
    if i == n {
      assert calls[i := c][..n] == calls[..n];
    } else {
      assert calls[i := c][..n] == calls[..n][i := c];
      KeysAfterUpdate(calls[..n], i, c, user);
    }
  }

  /** Rows in place, identities kept, uncertain rows left alone. */
  ghost predicate Blocked(before: seq<PaidCall>, after: seq<PaidCall>, user: int) {
    HasUncertain(after, user) && KeysOf(after, user) == KeysOf(before, user)
  }

  lemma {:induction false} UpdateStaysBlocked(calls: seq<PaidCall>, i: nat, c: PaidCall, user: int)
    requires HasUncertain(calls, user) && i < |calls| && SameIdentity(calls[i], c)
    requires calls[i].status == UncertainCall ==> c.status == UncertainCall
    ensures Blocked(calls, calls[i := c], user)
  {
    KeysAfterUpdate(calls, i, c, user);
    var j :| 0 <= j < |calls| && calls[j].user == user && calls[j].status == UncertainCall;
    assert calls[i := c][j].status == UncertainCall;
  }

  lemma {:induction false} ReserveRefusedWhenUncertain(t: Tables, q: Request, now: real)
    requires HasUncertain(t.calls, q.user)
    ensures Reserve(t, q, now).0 == t && Reserve(t, q, now).1 != Granted
  {
    var j :| 0 <= j < |t.calls| && t.calls[j].user == q.user && t.calls[j].status == UncertainCall;
    assert t.calls[j] in t.calls && Blocks(t.calls[j], now);
  }

  lemma {:induction false} OtherOwnersReserve(calls: seq<PaidCall>, c: PaidCall, user: int)
    requires HasUncertain(calls, user) && c.user != user
    ensures Blocked(calls, calls + [c], user)
  {
    var j :| 0 <= j < |calls| && calls[j].user == user && calls[j].status == UncertainCall;
    assert (calls + [c])[j] == calls[j];
    assert (calls + [c])[..|calls|] == calls;
  }

  lemma {:induction false} ReserveStaysBlocked(w: World, q: Request, cycleKey: string, now: real, user: int)
    requires HasUncertain(w.db.calls, user)
    ensures Blocked(w.db.calls, DoReserve(w, q, cycleKey, now).db.calls, user)
  {
    var key := ReserveKeyFor(q.agent, cycleKey);
    if key.Ok? {
      var q' := q.(key := key.value);
      if q.user == user {
        ReserveRefusedWhenUncertain(w.db, q', now);
      } else if Reserve(w.db, q', now).1 == Granted {
        GrantFacts(w.db, q', now);
        OtherOwnersReserve(w.db.calls, NewCall(q', now), user);
      }
    }
  }

  lemma {:induction false} DispatchStaysBlocked(t: Tables, key: string, now: real, user: int)
    requires HasUncertain(t.calls, user)
    ensures Blocked(t.calls, MarkDispatched(t, key, now).0.calls, user)
  {
    var i := FindCall(t.calls, key);
    if i < |t.calls| && t.calls[i].status == ReservedCall {
      UpdateStaysBlocked(t.calls, i, t.calls[i].(status := DispatchedCall, dispatchedAt := Some(now)), user);
    }
  }

  lemma {:induction false} RecordStaysBlocked(t: Tables, key: string, result: CallResult, now: real, user: int)
    requires HasUncertain(t.calls, user)
    ensures Blocked(t.calls, RecordResult(t, key, result, now).0.calls, user)
  {
    var i := FindCall(t.calls, key);
    if i < |t.calls| && t.calls[i].status == DispatchedCall {
      UpdateStaysBlocked(t.calls, i, WithResult(t.calls[i], result, now), user);
    }
  }

  lemma {:induction false} FinalizeStaysBlocked(
      t: Tables, key: string, mode: Mode, cycle: Option<int>, now: real, user: int)
    requires Inv(t) && HasUncertain(t.calls, user)
    ensures Blocked(t.calls, Finalize(t, key, mode, cycle, now).0.calls, user)
  {
    var i := FindCall(t.calls, key);
    if i < |t.calls| {
      var c := t.calls[i];
      assert CallRows(t.ledger, c);
      LedgerProofs.FinalizeStep(t.ledger, c, mode, cycle, now);
      UpdateStaysBlocked(t.calls, i, FinalizeCall(t.ledger, c, mode, cycle, now).1, user);
    }
  }

  lemma {:induction false} StepStaysBlocked(w: World, s: Step, user: int)
    requires WInv(w) && HasUncertain(w.db.calls, user)
    ensures Blocked(w.db.calls, Apply(w, s).db.calls, user)
  {
    match s
    case ReserveStep(q, cycleKey, now) => ReserveStaysBlocked(w, q, cycleKey, now, user);
    case DispatchStep(id, key, now, acked) => DispatchStaysBlocked(w.db, key, now, user);
    case RecordStep(id, now, written) =>
      if id in w.workers && w.workers[id].Replied? {
        RecordStaysBlocked(w.db, w.workers[id].key, w.workers[id].result, now, user);
      }
    case FinalizeStep(key, mode, cycle, now) => FinalizeStaysBlocked(w.db, key, mode, cycle, now, user);
    case _ =>
  }

  lemma {:induction false} RunStaysBlocked(w: World, steps: seq<Step>, user: int)
    requires WInv(w) && HasUncertain(w.db.calls, user)
    ensures Blocked(w.db.calls, Run(w, steps).db.calls, user)
    decreases |steps|
  {
    if steps != [] {
      StepStaysBlocked(w, steps[0], user);
      StepKeeps(w, steps[0]);
      RunStaysBlocked(Apply(w, steps[0]), steps[1..], user);
    }
  }

  /** Once an owner has an uncertain call, whatever happens next admits no further call of that owner. */
  lemma {:induction false} UncertainStopsOwner(steps: seq<Step>, later: seq<Step>, user: int)
    requires HasUncertain(Reached(steps).db.calls, user)
    ensures KeysOf(Reached(steps + later).db.calls, user) == KeysOf(Reached(steps).db.calls, user)
    ensures HasUncertain(Reached(steps + later).db.calls, user)
  {
    ReachedOk(steps);
    RunStaysBlocked(Reached(steps), later, user);
    RunConcat(Init, steps, later);
  }

  // ----- what finalising decides -----

  lemma {:induction false} CycleEndCases(ledger: seq<Row>, c: PaidCall, cycle: Option<int>, now: real)
    requires CallRows(ledger, c)
    ensures var (after, c', out) := FinalizeCall(ledger, c, CycleEnd, cycle, now);
            && (out == DebitedOutcome <==>
                  c.status == AnsweredCall && CallPrice(c).Some? && CallPrice(c).value.total <= c.worst)
            && (out == ReleasedOutcome <==> c.status in {ReservedCall, RejectedCall})
            && out !in {OpenOutcome, MissingOutcome} && Closed(c'.status)
            && (out == DebitedOutcome ==> c'.debit == Some(CallPrice(c).value.total) && c'.status == FinalizedCall)
  {
    if c.status == AnsweredCall && CallPrice(c).Some? {
      PriceIsNonnegative(c);
      SettleStep(ledger, c, CallPrice(c).value, cycle);
    }
  }

  /** At the end of a cycle a call is charged exactly when its reported usage can be priced within its
      reserve; anything else that may have been billed stays uncertain, and the rest is released. */
  lemma {:induction false} CycleEndOutcome(steps: seq<Step>, i: nat, cycle: Option<int>, now: real)
    requires i < |Reached(steps).db.calls|
    ensures var t := Reached(steps).db; var c := t.calls[i];
            var (t', out) := Finalize(t, c.key, CycleEnd, cycle, now);
            && (out == DebitedOutcome <==>
                  c.status == AnsweredCall && CallPrice(c).Some? && CallPrice(c).value.total <= c.worst)
            && (out == ReleasedOutcome <==> c.status in {ReservedCall, RejectedCall})
            && out !in {OpenOutcome, MissingOutcome}
            && Closed(t'.calls[i].status)
            && (out == DebitedOutcome ==> CallSum(t'.ledger, c.key) == -CallPrice(c).value.total)
  {
    ReachedOk(steps);
    var t := Reached(steps).db;
    var c := t.calls[i];
    FindDistinct(t.calls, i);
    assert CallRows(t.ledger, c);
    CycleEndCases(t.ledger, c, cycle, now);
    FinalizePersists(t.ledger, c, CycleEnd, cycle, now);
    FinalizeKeepsInv(t, c.key, CycleEnd, cycle, now);
    CallConservation(Finalize(t, c.key, CycleEnd, cycle, now).0, i);
  }

  /** A plain answer inside the reserve's input and output bounds is always debited. */
  lemma {:induction false} BoundedAnswerIsDebited(steps: seq<Step>, i: nat, cycle: Option<int>, now: real)
    requires i < |Reached(steps).db.calls|
    requires var c := Reached(steps).db.calls[i];
             && c.status == AnsweredCall && WorstCase(c.price, c.marginPct) == Ok(c.worst)
             && c.usage.Some? && WithinReserveBounds(c.usage.value)
    ensures Finalize(Reached(steps).db, Reached(steps).db.calls[i].key, CycleEnd, cycle, now).1 == DebitedOutcome
  {
    ReachedOk(steps);
    var c := Reached(steps).db.calls[i];
    assert CallRows(Reached(steps).db.ledger, c);
    BoundedUsageFitsReserve(c.price, c.usage.value, c.marginPct);
    CycleEndOutcome(steps, i, cycle, now);
  }

  /** Recovery does what the end of the cycle would have done, or leaves the call alone. */
  lemma {:induction false} RecoveryAgrees(t: Tables, key: string, cycle: Option<int>, now: real)
    ensures var r := Finalize(t, key, Recovery, cycle, now);
            r == Finalize(t, key, CycleEnd, cycle, now) || r == (t, OpenOutcome)
  {
    var i := FindCall(t.calls, key);
    if i < |t.calls| {
      assert t.calls[i := t.calls[i]] == t.calls;
    }
  }

  lemma {:induction false} DispatchMovesNothing(t: Tables, key: string, now: real, agent: int, month: int)
    ensures MarkDispatched(t, key, now).0.ledger == t.ledger
    ensures MonthSpend(MarkDispatched(t, key, now).0.calls, agent, month) == MonthSpend(t.calls, agent, month)
  {
    var i := FindCall(t.calls, key);
    if MarkDispatched(t, key, now).1 {
      UpdateCall(t.calls, i, t.calls[i].(status := DispatchedCall, dispatchedAt := Some(now)), agent, month, 0);
    }
  }

  lemma {:induction false} RecordMovesNothing(
      t: Tables, key: string, result: CallResult, now: real, agent: int, month: int)
    ensures RecordResult(t, key, result, now).0.ledger == t.ledger
    ensures MonthSpend(RecordResult(t, key, result, now).0.calls, agent, month) == MonthSpend(t.calls, agent, month)
  {
    var i := FindCall(t.calls, key);
    if RecordResult(t, key, result, now).1 {
      UpdateCall(t.calls, i, WithResult(t.calls[i], result, now), agent, month, 0);
    }
  }

  /** The steps that hold no owner lock move neither money nor spend. */
  lemma {:induction false} UnlockedStepsMoveNothing(w: World, s: Step, agent: int, month: int)
    requires !s.ReserveStep? && !s.FinalizeStep? && !s.BackendStep?
    ensures Apply(w, s).db.ledger == w.db.ledger
    ensures MonthSpend(Apply(w, s).db.calls, agent, month) == MonthSpend(w.db.calls, agent, month)
  {
    match s
    case DispatchStep(id, key, now, acked) => DispatchMovesNothing(w.db, key, now, agent, month);
    case RecordStep(id, now, written) =>
      if id in w.workers && w.workers[id].Replied? {
        RecordMovesNothing(w.db, w.workers[id].key, w.workers[id].result, now, agent, month);
      }
    case _ =>
  }

  // ----- repeating a transaction, with any run in between -----

  /** Rows stay where they are and keep their identity; closed ones do not change. */
  ghost predicate Persists(before: seq<PaidCall>, after: seq<PaidCall>) {
    && |before| <= |after|
    && forall i :: 0 <= i < |before| ==>
         SameIdentity(before[i], after[i]) && (Closed(before[i].status) ==> after[i] == before[i])
  }

  lemma {:induction false} FinalizePersists(
      ledger: seq<Row>, c: PaidCall, mode: Mode, cycle: Option<int>, now: real)
    ensures var c' := FinalizeCall(ledger, c, mode, cycle, now).1;
            SameIdentity(c, c') && (Closed(c.status) ==> c' == c)
  {
  }

  lemma {:induction false} UpdatePersists(calls: seq<PaidCall>, i: nat, c: PaidCall)
    requires i < |calls| && SameIdentity(calls[i], c) && (Closed(calls[i].status) ==> c == calls[i])
    ensures Persists(calls, calls[i := c])
  {
  }

  lemma {:induction false} ReservePersists(w: World, q: Request, cycleKey: string, now: real)
    ensures Persists(w.db.calls, DoReserve(w, q, cycleKey, now).db.calls)
  {
    var key := ReserveKeyFor(q.agent, cycleKey);
    if key.Ok? && Reserve(w.db, q.(key := key.value), now).1 == Granted {
      GrantFacts(w.db, q.(key := key.value), now);
    }
  }

  lemma {:induction false} DispatchPersists(t: Tables, key: string, now: real)
    ensures Persists(t.calls, MarkDispatched(t, key, now).0.calls)
  {
    var i := FindCall(t.calls, key);
    if MarkDispatched(t, key, now).1 {
      UpdatePersists(t.calls, i, t.calls[i].(status := DispatchedCall, dispatchedAt := Some(now)));
    }
  }

  lemma {:induction false} RecordPersists(t: Tables, key: string, result: CallResult, now: real)
    ensures Persists(t.calls, RecordResult(t, key, result, now).0.calls)
  {
    var i := FindCall(t.calls, key);
    if RecordResult(t, key, result, now).1 {
      UpdatePersists(t.calls, i, WithResult(t.calls[i], result, now));
    }
  }

  lemma {:induction false} StepPersists(w: World, s: Step)
    ensures Persists(w.db.calls, Apply(w, s).db.calls)
  {
    match s
    case ReserveStep(q, cycleKey, now) => ReservePersists(w, q, cycleKey, now);
    case DispatchStep(id, key, now, acked) => DispatchPersists(w.db, key, now);
    case RecordStep(id, now, written) =>
      if id in w.workers && w.workers[id].Replied? {
        RecordPersists(w.db, w.workers[id].key, w.workers[id].result, now);
      }
    case FinalizeStep(key, mode, cycle, now) =>
      var i := FindCall(w.db.calls, key);
      if i < |w.db.calls| {
        FinalizePersists(w.db.ledger, w.db.calls[i], mode, cycle, now);
        UpdatePersists(w.db.calls, i, FinalizeCall(w.db.ledger, w.db.calls[i], mode, cycle, now).1);
      }
    case _ =>
  }

  lemma {:induction false} RunPersists(w: World, steps: seq<Step>)
    ensures Persists(w.db.calls, Run(w, steps).db.calls)
    decreases |steps|
  {
    if steps != [] {
      StepPersists(w, steps[0]);
      RunPersists(Apply(w, steps[0]), steps[1..]);
      PersistsOn(w.db.calls, Apply(w, steps[0]).db.calls, Run(w, steps).db.calls);
    }
  }

  lemma {:induction false} PersistsOn(a: seq<PaidCall>, b: seq<PaidCall>, c: seq<PaidCall>)
    requires Persists(a, b) && Persists(b, c)
    ensures Persists(a, c)
  {
    forall i | 0 <= i < |a|
      ensures SameIdentity(a[i], c[i]) && (Closed(a[i].status) ==> c[i] == a[i])
    {
      assert SameIdentity(a[i], b[i]) && SameIdentity(b[i], c[i]);
    }
  }

  /** A finalised call is closed: whatever happens later, its row stays as it is, its ledger rows keep their sum, and
      finalising it again, in either mode and at any time, changes nothing. */
  lemma {:induction false} FinalizeTwice(
      steps: seq<Step>, key: string, mode: Mode, cycle: Option<int>, now: real,
      later: seq<Step>, mode': Mode, cycle': Option<int>, now': real)
    ensures var w := Reached(steps);
            var (t, out) := Finalize(w.db, key, mode, cycle, now);
            var w' := Run(w.(db := t), later);
            var i := FindCall(t.calls, key);
            && (out in {OpenOutcome, MissingOutcome} ==> t == w.db)
            && (Settling(out) ==>
                  && Finalize(w'.db, key, mode', cycle', now') == (w'.db, ClosedOutcome)
                  && i < |t.calls| && i < |w'.db.calls| && w'.db.calls[i] == t.calls[i]
                  && CallSum(w'.db.ledger, key) == CallSum(t.ledger, key))
  {
    ReachedOk(steps);
    var w := Reached(steps);
    var (t, out) := Finalize(w.db, key, mode, cycle, now);
    var i := FindCall(w.db.calls, key);
    if i < |w.db.calls| {
      var c := w.db.calls[i];
      SettlingCloses(w.db.ledger, c, mode, cycle, now);
      FinalizePersists(w.db.ledger, c, mode, cycle, now);
      assert w.db.calls[i := c] == w.db.calls;
      if Settling(out) {
        FindAfterUpdate(w.db.calls, i, FinalizeCall(w.db.ledger, c, mode, cycle, now).1, key);
        FinalizeKeeps(w, key, mode, cycle, now);
        ClosedForGood(w.(db := t), i, later, mode', cycle', now');
      }
    }
  }

  lemma {:induction false} ClosedForGood(
      w: World, i: nat, later: seq<Step>, mode: Mode, cycle: Option<int>, now: real)
    requires WInv(w) && i < |w.db.calls| && Closed(w.db.calls[i].status)
    ensures var t := Run(w, later).db;
            && i < |t.calls| && t.calls[i] == w.db.calls[i]
            && Finalize(t, w.db.calls[i].key, mode, cycle, now) == (t, ClosedOutcome)
            && CallSum(t.ledger, w.db.calls[i].key) == CallSum(w.db.ledger, w.db.calls[i].key)
  {
    RunPersists(w, later);
    RunKeeps(w, later);
    var t := Run(w, later).db;
    FindDistinct(t.calls, i);
    ClosedStays(t.ledger, t.calls[i], mode, cycle, now);
    assert t.calls[i := t.calls[i]] == t.calls;
    CallConservation(w.db, i);
    CallConservation(t, i);
  }

  /** A reservation key is good for one reservation: whatever happens later and whoever asks, a request under the same
      key is refused or rolled back. */
  lemma {:induction false} ReserveTwice(
      steps: seq<Step>, q: Request, now: real, later: seq<Step>, q': Request, now': real)
    requires Reserve(Reached(steps).db, q, now).1 == Granted && q'.key == q.key
    ensures var w := Run(Reached(steps).(db := Reserve(Reached(steps).db, q, now).0), later);
            Reserve(w.db, q', now').0 == w.db && Reserve(w.db, q', now').1 != Granted
  {
    var w := Reached(steps);
    GrantFacts(w.db, q, now);
    var w1 := w.(db := Reserve(w.db, q, now).0);
    assert w1.db.calls[|w.db.calls|].key == q.key;
    RunPersists(w1, later);
    var t := Run(w1, later).db;
    assert t.calls[|w.db.calls|].key == q.key;
  }
}
