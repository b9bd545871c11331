/** Paid calls across workers, crashes and recovery (runtime.ts).

A World is the tables plus everything that is not transactional: which worker stands where in
PaidCallProvider.decide, which requests reached the provider, and what the provider answered. Every
step is one transaction or one provider event, steps of different workers interleave freely, and the
clock of each step is unconstrained. */
module PaidCalls {
  import opened Common
  import opened Pricing
  import opened PaidKeys
  import opened Ledger
  import opened LedgerProofs

  /** Where a worker stands after its dispatch was committed and acknowledged. */
  datatype Worker =
    | Cleared(key: string)                       // may send
    | Waiting(key: string)                       // the request is out
    | Replied(key: string, result: CallResult)   // classified, not yet recorded

  datatype World = World(
    db: Tables,
    workers: map<nat, Worker>,
    wire: seq<string>,              // reservation keys of requests sent, in order
    replies: map<string, Reply>,    // what the provider answered
    caps: map<(int, int), int>)     // (agent, month) -> cap of the latest admitted reservation

  datatype Step =
    | ReserveStep(request: Request, cycleKey: string, now: real)
    | DispatchStep(id: nat, key: string, now: real, acked: bool)  // not acked: committed, but the worker saw an error
    | SendStep(id: nat)
    | DeferStep(id: nat)                                          // the answer says that no request was made
    | AnswerStep(id: nat, reply: Reply)                           // any other answer
    | RecordStep(id: nat, now: real, written: bool)               // not written: the database failed
    | FinalizeStep(key: string, mode: Mode, cycle: Option<int>, now: real)
    | CrashStep(id: nat)
    | BackendStep(row: Row)

  const Init := World(Tables([], []), map[], [], map[], map[])

  function DoReserve(w: World, q: Request, cycleKey: string, now: real): World {
    match ReserveKeyFor(q.agent, cycleKey)
    case Err(_) => w
    case Ok(key) =>
      var (db, out) := Reserve(w.db, q.(key := key), now);
      if out == Granted then w.(db := db, caps := w.caps[(q.agent, q.month) := q.cap]) else w
  }

  function DoDispatch(w: World, id: nat, key: string, now: real, acked: bool): World {
    if id in w.workers then w
    else
      var (db, dispatched) := MarkDispatched(w.db, key, now);
      w.(db := db, workers := if dispatched && acked then w.workers[id := Cleared(key)] else w.workers)
  }

  function DoAnswer(w: World, id: nat, reply: Reply): World {
    var result := ClassifyPaidCall(reply);
    if id in w.workers && w.workers[id].Waiting? && result != NotCalled then
      var key := w.workers[id].key;
      w.(workers := w.workers[id := Replied(key, result)], replies := w.replies[key := reply])
    else w
  }

  function DoRecord(w: World, id: nat, now: real, written: bool): World {
    if id in w.workers && w.workers[id].Replied? then
      var r := w.workers[id];
      w.(db := if written then RecordResult(w.db, r.key, r.result, now).0 else w.db, workers := w.workers - {id})
    else w
  }

  function Apply(w: World, s: Step): World {
    match s
    case ReserveStep(q, cycleKey, now) => DoReserve(w, q, cycleKey, now)
    case DispatchStep(id, key, now, acked) => DoDispatch(w, id, key, now, acked)
    case SendStep(id) =>
      if id in w.workers && w.workers[id].Cleared? then
        w.(workers := w.workers[id := Waiting(w.workers[id].key)], wire := w.wire + [w.workers[id].key])
      else w
    case DeferStep(id) =>
      if id in w.workers && w.workers[id].Cleared? then
        w.(workers := w.workers[id := Replied(w.workers[id].key, NotCalled)])
      else w
    case AnswerStep(id, reply) => DoAnswer(w, id, reply)
    case RecordStep(id, now, written) => DoRecord(w, id, now, written)
    case FinalizeStep(key, mode, cycle, now) => w.(db := Finalize(w.db, key, mode, cycle, now).0)
    case CrashStep(id) => w.(workers := w.workers - {id})
    case BackendStep(row) => w.(db := InsertBackendRow(w.db, row))
  }

  function Run(w: World, steps: seq<Step>): World
    decreases |steps|
  {
    if steps == [] then w else Run(Apply(w, steps[0]), steps[1..])
  }

  // ----- the invariant -----

  function Sent(wire: seq<string>, key: string): nat {
    if wire == [] then 0
    else Sent(wire[..|wire| - 1], key) + if wire[|wire| - 1] == key then 1 else 0
  }

  predicate RejectedReply(w: World, key: string) {
    key in w.replies && ClassifyPaidCall(w.replies[key]).Rejected?
  }

  predicate ReportedUsage(w: World, c: PaidCall) {
    c.key in w.replies && c.usage.Some? && w.replies[c.key].usage == c.usage
  }

  /** One call against the provider's side of the world. */
  predicate CallOk(w: World, c: PaidCall) {
    && Sent(w.wire, c.key) <= 1
    && (c.key in w.replies ==> Sent(w.wire, c.key) == 1)
    && (c.status == ReservedCall ==> Sent(w.wire, c.key) == 0)
    && (c.status == RejectedCall ==> RejectedReply(w, c.key))
    && (c.status in {AnsweredCall, FinalizedCall} ==> ReportedUsage(w, c))
    && (c.status == ReleasedCall ==> Sent(w.wire, c.key) == 0 || RejectedReply(w, c.key))
    && (c.status == DispatchedCall ==> c.debit.None?)
    && (c.status == UncertainCall && c.debit.Some? ==> ReportedUsage(w, c))
  }

  predicate CallsOk(w: World) {
    forall i :: 0 <= i < |w.db.calls| ==> CallOk(w, w.db.calls[i])
  }

  predicate InFlight(s: Status) {
    s == DispatchedCall || s == UncertainCall
  }

  predicate KeyInFlight(w: World, key: string) {
    var i := FindCall(w.db.calls, key);
    i < |w.db.calls| && InFlight(w.db.calls[i].status)
  }

  predicate WorkerOk(w: World, x: Worker) {
    && KeyInFlight(w, x.key)
    && match x
       case Cleared(key) => Sent(w.wire, key) == 0
       case Waiting(key) => Sent(w.wire, key) == 1 && key !in w.replies
       case Replied(key, result) =>
         if result == NotCalled then Sent(w.wire, key) == 0
         else key in w.replies && ClassifyPaidCall(w.replies[key]) == result
  }

  predicate WorkersOk(w: World) {
    && (forall id :: id in w.workers ==> WorkerOk(w, w.workers[id]))
    && (forall a, b :: a in w.workers && b in w.workers && a != b ==> w.workers[a].key != w.workers[b].key)
  }

  /** The provider only hears of reservations that exist. */
  ghost predicate WireOk(w: World) {
    forall key {:trigger FindCall(w.db.calls, key)} ::
      Sent(w.wire, key) > 0 || key in w.replies ==> FindCall(w.db.calls, key) < |w.db.calls|
  }

  /** The cap of the latest admitted reservation of that agent and month. */
  function LatestCap(w: World, agent: int, month: int): int {
    if (agent, month) in w.caps then w.caps[(agent, month)] else 0
  }

  ghost predicate CapsOk(w: World) {
    forall agent, month :: MonthSpend(w.db.calls, agent, month) <= LatestCap(w, agent, month)
  }

  ghost predicate MoneyOk(w: World) {
    forall user :: Conserved(w.db, user) && Solvent(w.db, user)
  }

  ghost predicate WInv(w: World) {
    Inv(w.db) && MoneyOk(w) && CapsOk(w) && CallsOk(w) && WorkersOk(w) && WireOk(w)
  }

  // ----- frames -----

  lemma {:induction false} SentAppend(wire: seq<string>, sent: string, key: string)
    ensures Sent(wire + [sent], key) == Sent(wire, key) + if sent == key then 1 else 0
  {
    assert (wire + [sent])[..|wire|] == wire;
  }

  /** Finding a key when the keys are distinct. */
  lemma {:induction false} FindDistinct(calls: seq<PaidCall>, i: nat)
    requires i < |calls|
    requires forall a, b :: 0 <= a < b < |calls| ==> calls[a].key != calls[b].key
    ensures FindCall(calls, calls[i].key) == i
  {
  }

  lemma {:induction false} FindAfterAppend(calls: seq<PaidCall>, c: PaidCall, key: string)
    ensures FindCall(calls + [c], key)
         == if FindCall(calls, key) < |calls| then FindCall(calls, key)
            else if c.key == key then |calls| else |calls| + 1
  {
    assert (calls + [c])[..|calls|] == calls;
  }

  lemma {:induction false} UpdateKeepsCaps(w: World, w': World, i: nat, c': PaidCall)
    requires CapsOk(w) && i < |w.db.calls| && SameIdentity(w.db.calls[i], c')
    requires w'.db.calls == w.db.calls[i := c'] && w'.caps == w.caps && Weight(c') <= Weight(w.db.calls[i])
    ensures CapsOk(w')
  {
    forall agent, month ensures MonthSpend(w'.db.calls, agent, month) <= LatestCap(w', agent, month) {
      UpdateCall(w.db.calls, i, c', agent, month, 0);
      assert MonthSpend(w.db.calls, agent, month) <= LatestCap(w, agent, month);
    }
  }

  lemma {:induction false} UpdateKeepsCalls(w: World, w': World, i: nat, c': PaidCall)
    requires CallsOk(w) && i < |w.db.calls| && CallOk(w, c')
    requires w'.db.calls == w.db.calls[i := c'] && w'.wire == w.wire && w'.replies == w.replies
    ensures CallsOk(w')
  {
    forall j | 0 <= j < |w'.db.calls| ensures CallOk(w', w'.db.calls[j]) {
      assert CallOk(w, w.db.calls[j]);
    }
  }

  lemma {:induction false} UpdateKeepsWorkers(w: World, w': World, i: nat, c': PaidCall)
    requires WorkersOk(w) && WireOk(w) && i < |w.db.calls| && SameIdentity(w.db.calls[i], c')
    requires FindCall(w.db.calls, c'.key) == i
    requires w'.db.calls == w.db.calls[i := c'] && w'.wire == w.wire && w'.replies == w.replies
               && w'.workers == w.workers
    requires InFlight(w.db.calls[i].status) ==>
               InFlight(c'.status) || forall id :: id in w.workers ==> w.workers[id].key != c'.key
    ensures WorkersOk(w') && WireOk(w')
  {
    forall key ensures FindCall(w'.db.calls, key) == FindCall(w.db.calls, key) {
      FindAfterUpdate(w.db.calls, i, c', key);
    }
    forall id | id in w.workers ensures WorkerOk(w', w.workers[id]) {
      assert WorkerOk(w, w.workers[id]);
    }
  }

  /** Replacing row i by a version of it keeps every other row, worker and cap in order. */
  lemma {:induction false} UpdateKeeps(w: World, t': Tables, i: nat, c': PaidCall)
    requires WInv(w) && i < |w.db.calls| && SameIdentity(w.db.calls[i], c')
    requires t'.calls == w.db.calls[i := c'] && Inv(t')
    requires forall user :: Conserved(t', user) && Solvent(t', user)
    requires Weight(c') <= Weight(w.db.calls[i])
    requires CallOk(w, c')
    requires InFlight(w.db.calls[i].status) ==>
               InFlight(c'.status) || forall id :: id in w.workers ==> w.workers[id].key != c'.key
    ensures WInv(w.(db := t'))
  {
    var w' := w.(db := t');
    FindDistinct(w.db.calls, i);
    UpdateKeepsCaps(w, w', i, c');
    UpdateKeepsCalls(w, w', i, c');
    UpdateKeepsWorkers(w, w', i, c');
  }

  // ----- each step -----

  /** What an admitted reservation was checked against. */
  lemma {:induction false} GrantFacts(t: Tables, q: Request, now: real)
    requires Reserve(t, q, now).1 == Granted
    ensures Reserve(t, q, now).0.calls == t.calls + [NewCall(q, now)]
    ensures FindCall(t.calls, q.key) == |t.calls|
    ensures q.worst > 0 && MonthSpend(t.calls, q.agent, q.month) + q.worst <= q.cap
    ensures Balance(t.ledger, q.user) >= q.worst && !OwnerBlocked(t.calls, q.user, now)
  {
  }

  lemma {:induction false} GrantKeepsCaps(w: World, w': World, c: PaidCall, cap: int)
    requires CapsOk(w) && w'.db.calls == w.db.calls + [c] && w'.caps == w.caps[(c.agent, c.month) := cap]
    requires Weight(c) == c.worst && MonthSpend(w.db.calls, c.agent, c.month) + c.worst <= cap
    ensures CapsOk(w')
  {
    forall agent, month ensures MonthSpend(w'.db.calls, agent, month) <= LatestCap(w', agent, month) {
      AppendCall(w.db.calls, c, agent, month, 0);
      assert MonthSpend(w.db.calls, agent, month) <= LatestCap(w, agent, month);
    }
  }

  /** A fresh reservation is known to no worker and to no provider. */
  lemma {:induction false} GrantKeepsCalls(w: World, w': World, c: PaidCall)
    requires CallsOk(w) && WorkersOk(w) && WireOk(w)
    requires w'.db.calls == w.db.calls + [c] && w'.workers == w.workers && w'.wire == w.wire && w'.replies == w.replies
    requires FindCall(w.db.calls, c.key) == |w.db.calls| && c.status == ReservedCall
    ensures CallsOk(w') && WorkersOk(w') && WireOk(w')
  {
    forall key ensures FindCall(w'.db.calls, key)
      == if FindCall(w.db.calls, key) < |w.db.calls| then FindCall(w.db.calls, key)
         else if c.key == key then |w.db.calls| else |w.db.calls| + 1
    {
      FindAfterAppend(w.db.calls, c, key);
    }
    forall j | 0 <= j < |w'.db.calls| ensures CallOk(w', w'.db.calls[j]) {
      if j < |w.db.calls| {
        assert CallOk(w, w.db.calls[j]);
      }
    }
    forall id | id in w.workers ensures WorkerOk(w', w.workers[id]) {
      assert WorkerOk(w, w.workers[id]);
    }
  }

  lemma {:induction false} ReserveKeeps(w: World, q: Request, cycleKey: string, now: real)
    requires WInv(w)
    ensures WInv(DoReserve(w, q, cycleKey, now))
  {
    var key := ReserveKeyFor(q.agent, cycleKey);
    if key.Ok? {
      ReserveKeyInjective(q.agent, cycleKey, q.agent, cycleKey);
      GrantKeeps(w, q.(key := key.value), now);
    }
  }

  lemma {:induction false} GrantKeeps(w: World, q: Request, now: real)
    requires WInv(w) && IsReserveKey(q.key)
    ensures Reserve(w.db, q, now).1 == Granted ==>
              WInv(w.(db := Reserve(w.db, q, now).0, caps := w.caps[(q.agent, q.month) := q.cap]))
  {
    var (db, out) := Reserve(w.db, q, now);
    if out == Granted {
      var w' := w.(db := db, caps := w.caps[(q.agent, q.month) := q.cap]);
      ReserveKeepsInv(w.db, q, now);
      forall user ensures Conserved(db, user) && Solvent(db, user) {
        assert Conserved(w.db, user) && Solvent(w.db, user);
        ReserveConserves(w.db, q, now, user);
      }
      GrantFacts(w.db, q, now);
      GrantKeepsCaps(w, w', NewCall(q, now), q.cap);
      GrantKeepsCalls(w, w', NewCall(q, now));
    }
  }

  /** Dispatching a reserved call keeps the world, and no worker holds its key: a worker that did would have made the
      call in flight already. */
  lemma {:induction false} DispatchUpdates(w: World, key: string, now: real)
    requires WInv(w) && MarkDispatched(w.db, key, now).1
    ensures var w1 := w.(db := MarkDispatched(w.db, key, now).0);
            WInv(w1) && KeyInFlight(w1, key) && Sent(w1.wire, key) == 0
    ensures forall other :: other in w.workers ==> w.workers[other].key != key
  {
    var db := MarkDispatched(w.db, key, now).0;
    var i := FindCall(w.db.calls, key);
    var c := w.db.calls[i];
    var c' := c.(status := DispatchedCall, dispatchedAt := Some(now));
    assert CallOk(w, c) && CallRows(w.db.ledger, c);
    DispatchKeepsInv(w.db, key, now);
    forall user ensures Conserved(db, user) && Solvent(db, user) {
      assert Conserved(w.db, user) && Solvent(w.db, user);
      DispatchConserves(w.db, key, now, user);
    }
    forall other | other in w.workers ensures w.workers[other].key != key {
      assert WorkerOk(w, w.workers[other]);
    }
    UpdateKeeps(w, db, i, c');
    FindAfterUpdate(w.db.calls, i, c', key);
  }

  lemma {:induction false} ClearingKeeps(w: World, id: nat, key: string)
    requires WInv(w) && id !in w.workers && KeyInFlight(w, key) && Sent(w.wire, key) == 0
    requires forall other :: other in w.workers ==> w.workers[other].key != key
    ensures WInv(w.(workers := w.workers[id := Cleared(key)]))
  {
    var w' := w.(workers := w.workers[id := Cleared(key)]);
    forall x | x in w'.workers ensures WorkerOk(w', w'.workers[x]) {
      if x != id {
        assert WorkerOk(w, w.workers[x]);
      }
    }
    forall j | 0 <= j < |w.db.calls| ensures CallOk(w', w.db.calls[j]) {
      assert CallOk(w, w.db.calls[j]);
    }
    assert CapsOk(w) && WireOk(w) && MoneyOk(w);
  }

  lemma {:induction false} DispatchKeeps(w: World, id: nat, key: string, now: real, acked: bool)
    requires WInv(w)
    ensures WInv(DoDispatch(w, id, key, now, acked))
  {
    var (db, dispatched) := MarkDispatched(w.db, key, now);
    if id !in w.workers && dispatched {
      DispatchUpdates(w, key, now);
      if acked { ClearingKeeps(w.(db := db), id, key); }
    }
  }

  /** Nothing about keys other than `key` differs between two provider sides. */
  ghost predicate SameElsewhere(w: World, w': World, key: string) {
    forall k :: k != key ==>
      && Sent(w'.wire, k) == Sent(w.wire, k)
      && (k in w'.replies <==> k in w.replies)
      && (k in w.replies ==> w'.replies[k] == w.replies[k])
  }

  /** A step of one worker that touches only the provider's side of its own key. */
  lemma {:induction false} ProviderEvent(w: World, w': World, id: nat, x': Worker)
    requires WInv(w) && id in w.workers && w'.db == w.db && w'.caps == w.caps
    requires w'.workers == w.workers[id := x'] && x'.key == w.workers[id].key
    requires SameElsewhere(w, w', x'.key)
    requires WorkerOk(w', x')
    requires var i := FindCall(w.db.calls, x'.key); i < |w.db.calls| ==> CallOk(w', w.db.calls[i])
    ensures WInv(w')
  {
    EventKeepsCalls(w, w', x'.key);
    EventKeepsWorkers(w, w', id, x');
    assert CapsOk(w) && MoneyOk(w) && KeyInFlight(w', x'.key);
  }

  lemma {:induction false} EventKeepsCalls(w: World, w': World, key: string)
    requires WInv(w) && w'.db == w.db && SameElsewhere(w, w', key)
    requires var i := FindCall(w.db.calls, key); i < |w.db.calls| ==> CallOk(w', w.db.calls[i])
    ensures CallsOk(w')
  {
    forall j | 0 <= j < |w.db.calls| ensures CallOk(w', w.db.calls[j]) {
      assert CallOk(w, w.db.calls[j]);
      FindDistinct(w.db.calls, j);
    }
  }

  lemma {:induction false} EventKeepsWorkers(w: World, w': World, id: nat, x': Worker)
    requires WorkersOk(w) && id in w.workers && w'.db == w.db
    requires w'.workers == w.workers[id := x'] && x'.key == w.workers[id].key
    requires SameElsewhere(w, w', x'.key) && WorkerOk(w', x')
    ensures WorkersOk(w')
  {
    forall y | y in w'.workers ensures WorkerOk(w', w'.workers[y]) {
      if y != id {
        assert WorkerOk(w, w.workers[y]);
      }
    }
  }

  lemma {:induction false} SendKeeps(w: World, id: nat)
    requires WInv(w)
    ensures WInv(Apply(w, SendStep(id)))
  {
    if id in w.workers && w.workers[id].Cleared? {
      var key := w.workers[id].key;
      var w' := Apply(w, SendStep(id));
      assert WorkerOk(w, w.workers[id]);
      forall k ensures Sent(w'.wire, k) == Sent(w.wire, k) + if k == key then 1 else 0 {
        SentAppend(w.wire, key, k);
      }
      assert CallOk(w, w.db.calls[FindCall(w.db.calls, key)]);
      ProviderEvent(w, w', id, Waiting(key));
    }
  }

  lemma {:induction false} DeferKeeps(w: World, id: nat)
    requires WInv(w)
    ensures WInv(Apply(w, DeferStep(id)))
  {
    if id in w.workers && w.workers[id].Cleared? {
      var key := w.workers[id].key;
      assert WorkerOk(w, w.workers[id]);
      assert CallOk(w, w.db.calls[FindCall(w.db.calls, key)]);
      ProviderEvent(w, Apply(w, DeferStep(id)), id, Replied(key, NotCalled));
    }
  }

  lemma {:induction false} AnswerKeeps(w: World, id: nat, reply: Reply)
    requires WInv(w)
    ensures WInv(DoAnswer(w, id, reply))
  {
    var result := ClassifyPaidCall(reply);
    if id in w.workers && w.workers[id].Waiting? && result != NotCalled {
      var key := w.workers[id].key;
      assert WorkerOk(w, w.workers[id]);
      assert CallOk(w, w.db.calls[FindCall(w.db.calls, key)]);
      ProviderEvent(w, DoAnswer(w, id, reply), id, Replied(key, result));
    }
  }

  lemma {:induction false} CrashKeeps(w: World, id: nat)
    requires WInv(w)
    ensures WInv(w.(workers := w.workers - {id}))
  {
    var w' := w.(workers := w.workers - {id});
    forall x | x in w'.workers ensures WorkerOk(w', w'.workers[x]) {
      assert WorkerOk(w, w.workers[x]);
    }
    forall j | 0 <= j < |w.db.calls| ensures CallOk(w', w.db.calls[j]) {
      assert CallOk(w, w.db.calls[j]);
    }
  }

  lemma {:induction false} RecordedCallOk(w: World, c: PaidCall, result: CallResult, now: real)
    requires CallOk(w, c) && c.status == DispatchedCall
    requires if result == NotCalled then Sent(w.wire, c.key) == 0
             else c.key in w.replies && ClassifyPaidCall(w.replies[c.key]) == result
    ensures CallOk(w, WithResult(c, result, now))
    ensures SameIdentity(c, WithResult(c, result, now)) && Weight(WithResult(c, result, now)) <= Weight(c)
  {
  }

  /** A result recorded for a call no worker holds any more. */
  lemma {:induction false} RecordUpdates(w: World, key: string, result: CallResult, now: real)
    requires WInv(w) && RecordResult(w.db, key, result, now).1
    requires forall id :: id in w.workers ==> w.workers[id].key != key
    requires if result == NotCalled then Sent(w.wire, key) == 0
             else key in w.replies && ClassifyPaidCall(w.replies[key]) == result
    ensures WInv(w.(db := RecordResult(w.db, key, result, now).0))
  {
    var db := RecordResult(w.db, key, result, now).0;
    var i := FindCall(w.db.calls, key);
    var c := w.db.calls[i];
    assert CallOk(w, c) && CallRows(w.db.ledger, c);
    RecordedCallOk(w, c, result, now);
    RecordKeepsInv(w.db, key, result, now);
    forall user ensures Conserved(db, user) && Solvent(db, user) {
      assert Conserved(w.db, user) && Solvent(w.db, user);
      RecordConserves(w.db, key, result, now, user);
    }
    UpdateKeeps(w, db, i, WithResult(c, result, now));
  }

  lemma {:induction false} RecordKeeps(w: World, id: nat, now: real, written: bool)
    requires WInv(w)
    ensures WInv(DoRecord(w, id, now, written))
  {
    if id in w.workers && w.workers[id].Replied? {
      var r := w.workers[id];
      assert WorkerOk(w, r);
      CrashKeeps(w, id);
      if written && RecordResult(w.db, r.key, r.result, now).1 {
        RecordUpdates(w.(workers := w.workers - {id}), r.key, r.result, now);
      }
    }
  }

  lemma {:induction false} FinalizedCallOk(w: World, c: PaidCall, mode: Mode, cycle: Option<int>, now: real)
    requires CallOk(w, c) && CallRows(w.db.ledger, c)
    ensures var c' := FinalizeCall(w.db.ledger, c, mode, cycle, now).1;
            CallOk(w, c') && (InFlight(c.status) ==> InFlight(c'.status))
  {
    match c.status
    case AnsweredCall =>
      if CallPrice(c).Some? {
        PriceIsNonnegative(c);
        SettleStep(w.db.ledger, c, CallPrice(c).value, cycle);
      }
    case _ =>
  }

  lemma {:induction false} FinalizeKeeps(w: World, key: string, mode: Mode, cycle: Option<int>, now: real)
    requires WInv(w)
    ensures WInv(w.(db := Finalize(w.db, key, mode, cycle, now).0))
  {
    var i := FindCall(w.db.calls, key);
    if i < |w.db.calls| {
      var c := w.db.calls[i];
      var db := Finalize(w.db, key, mode, cycle, now).0;
      assert CallOk(w, c) && CallRows(w.db.ledger, c);
      LedgerProofs.FinalizeStep(w.db.ledger, c, mode, cycle, now);
      FinalizedCallOk(w, c, mode, cycle, now);
      FinalizeKeepsInv(w.db, key, mode, cycle, now);
      forall user ensures Conserved(db, user) && Solvent(db, user) {
        assert Conserved(w.db, user) && Solvent(w.db, user);
        FinalizeConserves(w.db, key, mode, cycle, now, user);
      }
      UpdateKeeps(w, db, i, FinalizeCall(w.db.ledger, c, mode, cycle, now).1);
    }
  }

  lemma {:induction false} BackendKeeps(w: World, row: Row)
    requires WInv(w)
    ensures WInv(w.(db := InsertBackendRow(w.db, row)))
  {
    var db := InsertBackendRow(w.db, row);
    var w' := w.(db := db);
    BackendRowKeepsInv(w.db, row);
    forall user ensures Conserved(db, user) && Solvent(db, user) {
      assert Conserved(w.db, user) && Solvent(w.db, user);
      BackendRowConserves(w.db, row, user);
    }
    forall x | x in w.workers ensures WorkerOk(w', w.workers[x]) {
      assert WorkerOk(w, w.workers[x]);
    }
    forall j | 0 <= j < |w.db.calls| ensures CallOk(w', w.db.calls[j]) {
      assert CallOk(w, w.db.calls[j]);
    }
    assert CapsOk(w) && db.calls == w.db.calls;
  }

  lemma {:induction false} StepKeeps(w: World, s: Step)
    requires WInv(w)
    ensures WInv(Apply(w, s))
  {
    match s
    case ReserveStep(q, cycleKey, now) => ReserveKeeps(w, q, cycleKey, now);
    case DispatchStep(id, key, now, acked) => DispatchKeeps(w, id, key, now, acked);
    case SendStep(id) => SendKeeps(w, id);
    case DeferStep(id) => DeferKeeps(w, id);
    case AnswerStep(id, reply) => AnswerKeeps(w, id, reply);
    case RecordStep(id, now, written) => RecordKeeps(w, id, now, written);
    case FinalizeStep(key, mode, cycle, now) => FinalizeKeeps(w, key, mode, cycle, now);
    case CrashStep(id) => CrashKeeps(w, id);
    case BackendStep(row) => BackendKeeps(w, row);
  }

  lemma {:induction false} RunKeeps(w: World, steps: seq<Step>)
    requires WInv(w)
    ensures WInv(Run(w, steps))
    decreases |steps|
  {
    if steps != [] {
      StepKeeps(w, steps[0]);
      RunKeeps(Apply(w, steps[0]), steps[1..]);
    }
  }

  lemma {:induction false} InitOk()
    ensures WInv(Init)
  {
  }

  lemma {:induction false} RunConcat(w: World, a: seq<Step>, b: seq<Step>)
    ensures Run(w, a + b) == Run(Run(w, a), b)
    decreases |a|
  {
    if a == [] {
      assert a + b == b;
    } else {
      assert (a + b)[0] == a[0] && (a + b)[1..] == a[1..] + b;
      RunConcat(Apply(w, a[0]), a[1..], b);
    }
  }
}
