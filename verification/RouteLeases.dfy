/** The acquire and release hooks of the hosted router (runtime.ts, routedProviderFor): one call holds a lease of the
provider key's bucket and, under the shared-pool policy, one of its owner's bucket. */
module RouteLeases {
  import opened Common
  import opened Capacity

  /** The two leases of one call. */
  datatype Lease = Lease(key: Handle, owner: Option<Handle>)

  datatype Acquired =
    | Unmetered
    | Granted(lease: Lease)
    | CoolingDown
    | OwnerRefused(why: Denial, retryAfterMs: Option<int>, claimedByOther: bool)
    | KeyRefused(why: Denial)
    | Threw

  /** How one database call can end for its caller: an error may mean that nothing was written, or that the commit
      went through all the same. */
  datatype Fault = Fine | LostBefore | LostAfter

  /** The faults of one acquisition: the cooldown read, both reservations, giving the owner's lease back, and giving
      it back again after an error. */
  datatype Weather = Weather(cooldown: Fault, owner: Fault, key: Fault, giveBack: Fault, again: Fault)

  datatype Policy = Policy(capacityEnabled: bool, sharedPool: bool)

  /** One reservation: its limit as configured, its fresh lease id, its clock readings and the active agents. */
  datatype Bid = Bid(raw: Limit, id: nat, t: Clock, active: set<string>)

  // ----- the hooks as functions of the two rows -----

  function Reserved(row: Option<Row>, b: Bid): (Option<Row>, Option<Outcome>) {
    if Check(b.raw).Err? then (row, None)
    else
      var (r, out) := Reserve(row, Check(b.raw).value, b.id, b.t, b.active);
      (Some(r), Some(out))
  }

  /** A reservation under a fault: None where the hook sees an error. */
  function Attempt(row: Option<Row>, b: Bid, fault: Fault): (Option<Row>, Option<Outcome>) {
    match fault
    case Fine => Reserved(row, b)
    case LostBefore => (row, None)
    case LostAfter => (Reserved(row, b).0, None)
  }

  function GiveBack(row: Option<Row>, held: Option<Handle>, fault: Fault): Option<Row> {
    if held.None? || fault == LostBefore then row else Release(row, held.value, Some(0), true)
  }

  /** The key's bucket, with the owner's lease (if any) in hand; any error gives that lease back once more. */
  function AcquireKey(owner: Option<Row>, key: Option<Row>, held: Option<Handle>, b: Bid, w: Weather)
    : (Option<Row>, Option<Row>, Acquired)
  {
    var (key', out) := Attempt(key, b, w.key);
    match out
    case None => (GiveBack(owner, held, w.again), key', Threw)
    case Some(Admitted(h)) => (owner, key', Granted(Lease(h, held)))
    case Some(Denied(why, _, _)) =>
      var owner' := GiveBack(owner, held, w.giveBack);
      if held.Some? && w.giveBack != Fine then (GiveBack(owner', held, w.again), key', Threw)
      else (owner', key', KeyRefused(why))
  }

  function Acquire(policy: Policy, owner: Option<Row>, key: Option<Row>, cooling: bool, o: Bid, k: Bid, w: Weather)
    : (Option<Row>, Option<Row>, Acquired)
  {
    if !policy.capacityEnabled then (owner, key, Unmetered)
    else if w.cooldown != Fine then (owner, key, Threw)
    else if cooling then (owner, key, CoolingDown)
    else if !policy.sharedPool then AcquireKey(owner, key, None, k, w)
    else
      var (owner', out) := Attempt(owner, o, w.owner);
      match out
      case None => (owner', key, Threw)
      case Some(Denied(why, retry, other)) => (owner', key, OwnerRefused(why, retry, other))
      case Some(Admitted(h)) => AcquireKey(owner', key, Some(h), k, w)
  }

  /** What the provider's answer says about cost. `workerLimit` is the admission message of a 503. */
  datatype Answer = Answer(ok: bool, usage: Option<(int, int)>, status: Option<int>, workerLimit: bool)

  predicate RejectedBeforeInference(a: Answer, official: bool) {
    !a.ok && a.usage.None? && official && (a.status == Some(429) || (a.status == Some(503) && a.workerLimit))
  }

  function ActualTokens(a: Answer, official: bool): Option<int> {
    if a.usage.Some? then Some(a.usage.value.0 + a.usage.value.1)
    else if RejectedBeforeInference(a, official) then Some(0) else None
  }

  function ReleaseOne(row: Option<Row>, h: Handle, a: Answer, official: bool, unused: bool, fault: Fault): Option<Row> {
    if fault == LostBefore then row
    else Release(row, h, if unused then Some(0) else ActualTokens(a, official), unused)
  }

  // ----- the hooks as the runtime writes them -----

  class LeaseHooks {
    const policy: Policy
    const owner: ProviderBucket
    const key: ProviderBucket

    constructor (policy: Policy, owner: ProviderBucket, key: ProviderBucket)
      ensures this.policy == policy && this.owner == owner && this.key == key
    {
      this.policy, this.owner, this.key := policy, owner, key;
    }

    static method ReserveOn(bucket: ProviderBucket, b: Bid, fault: Fault) returns (out: Option<Outcome>)
      modifies bucket
      ensures (bucket.row, out) == Attempt(old(bucket.row), b, fault)
    {
      if fault == LostBefore { return None; }
      var r := bucket.ReserveProviderCapacity(b.raw, b.id, b.t, b.active);
      return if fault == LostAfter || r.Err? then None else Some(r.value);
    }

    method ReturnOwner(held: Option<Handle>, fault: Fault)
      modifies owner
      ensures owner.row == GiveBack(old(owner.row), held, fault)
    {
      if held.Some? && fault != LostBefore {
        owner.ReleaseProviderCapacity(held.value, Some(0), true);
      }
    }

    method AcquireLeases(cooling: bool, o: Bid, k: Bid, w: Weather) returns (out: Acquired)
      requires owner != key
      modifies owner, key
      ensures (owner.row, key.row, out) == Acquire(policy, old(owner.row), old(key.row), cooling, o, k, w)
    {
      if !policy.capacityEnabled { return Unmetered; }
      if w.cooldown != Fine { return Threw; }
      if cooling { return CoolingDown; }
      var held: Option<Handle> := None;
      if policy.sharedPool {
        var own := ReserveOn(owner, o, w.owner);
        if own.None? { return Threw; }
        if own.value.Denied? {
          return OwnerRefused(own.value.why, own.value.retryAfterMs, own.value.claimedByOther);
        }
        held := Some(own.value.lease);
      }
      var reservation := ReserveOn(key, k, w.key);
      if reservation.None? {
        ReturnOwner(held, w.again);
        return Threw;
      }
      if reservation.value.Admitted? { return Granted(Lease(reservation.value.lease, held)); }
      ReturnOwner(held, w.giveBack);
      if held.Some? && w.giveBack != Fine {
        ReturnOwner(held, w.again);
        return Threw;
      }
      return KeyRefused(reservation.value.why);
    }

    /** Each lease is released on its own: an error on the key's does not keep the owner's. */
    method ReleaseLeases(lease: Option<Lease>, a: Answer, official: bool, unused: bool, keyFault: Fault,
        ownerFault: Fault)
      requires owner != key
      modifies owner, key
      ensures lease.None? ==> owner.row == old(owner.row) && key.row == old(key.row)
      ensures lease.Some? ==> key.row == ReleaseOne(old(key.row), lease.value.key, a, official, unused, keyFault)
      ensures owner.row == if lease.Some? && lease.value.owner.Some?
                           then ReleaseOne(old(owner.row), lease.value.owner.value, a, official, unused, ownerFault)
                           else old(owner.row)
    {
      if lease.None? { return; }
      var actual := if unused then Some(0) else ActualTokens(a, official);
      if keyFault != LostBefore { key.ReleaseProviderCapacity(lease.value.key, actual, unused); }
      if lease.value.owner.Some? && ownerFault != LostBefore {
        owner.ReleaseProviderCapacity(lease.value.owner.value, actual, unused);
      }
    }
  }

  // ----- a refused call costs its owner nothing -----

  predicate Holds(row: Option<Row>, id: nat) {
    row.Some? && id in row.value.leases
  }

  lemma {:induction false} RefillSum(rate: nat, a: real, b: real)
    ensures Refill(rate, a) + Refill(rate, b) == Refill(rate, a + b)
    ensures a >= 0.0 ==> Refill(rate, a) >= 0.0
  {
  }

  /** Admitting a request and giving its lease back unused is invisible: at every later instant the bucket offers the
      same tokens and the same requests, and its leases and its live claim are as they were. */
  lemma {:induction false} AdmitThenGiveBack(b: Row, ask: Ask, id: nat, t: Clock, active: set<string>, later: real)
    requires ask.Valid() && b.tokenRate == ask.tokenRate && id !in b.leases
    requires b.lastRefill <= t.at <= later
    ensures var r := Release(Some(Admit(b, ask, id, t, active)), HandleOf(ask, id), Some(0), true);
            && r.Some?
            && AvailableTokens(r.value, ask, later) == AvailableTokens(b, ask, later)
            && AvailableRequests(r.value, later) == AvailableRequests(b, later)
            && r.value.leases == b.leases && r.value.blockedUntil == b.blockedUntil
            && r.value.claim == if ClaimLive(b, t.at, active) then b.claim else None
  {
    var r := Release(Some(Admit(b, ask, id, t, active)), HandleOf(ask, id), Some(0), true).value;
    assert r.leases == b.leases;
    assert Actual(HandleOf(ask, id), Some(0)) == 0;
    RefillSum(b.tokenRate, t.at - b.lastRefill, later - t.at);
    RefillSum(b.tokenRate, later - t.at, 0.0);
    RefillSum(b.requestRate, t.at - b.lastRefill, later - t.at);
    RefillSum(b.requestRate, later - t.at, 0.0);
    assert r.tokens == AvailableTokens(b, ask, t.at);
    assert r.requests == AvailableRequests(b, t.at);
  }

  /** When the key refuses, the owner's bucket is as if the owner had not been asked. */
  lemma {:induction false} KeyRefusalCostsOwnerNothing(
      owner: Option<Row>, key: Option<Row>, o: Bid, k: Bid, w: Weather, later: real)
    requires Check(o.raw).Ok? && o.t.at <= later
    requires var b := Snapshot(owner, Check(o.raw).value, o.t); b.lastRefill <= o.t.at && o.id !in b.leases
    requires Acquire(Policy(true, true), owner, key, false, o, k, w).2.KeyRefused?
    ensures var ask := Check(o.raw).value;
            var b := Snapshot(owner, ask, o.t);
            var after := Acquire(Policy(true, true), owner, key, false, o, k, w).0;
            && after.Some? && after.value.leases == b.leases
            && AvailableTokens(after.value, ask, later) == AvailableTokens(b, ask, later)
            && AvailableRequests(after.value, later) == AvailableRequests(b, later)
  {
    var ask := Check(o.raw).value;
    AdmitThenGiveBack(Snapshot(owner, ask, o.t), ask, o.id, o.t, o.active, later);
  }

  // ----- leases are held exactly while they are granted -----

  lemma {:induction false} ReserveHolds(row: Option<Row>, b: Bid)
    requires Check(b.raw).Ok? && !Holds(row, b.id)
    ensures Holds(Reserved(row, b).0, b.id) <==> Reserved(row, b).1.value.Admitted?
    ensures Reserved(row, b).1.value.Admitted? ==> Reserved(row, b).1.value.lease.id == b.id
  {
  }

  lemma {:induction false} ReleaseDrops(row: Option<Row>, h: Handle, reported: Option<int>, unused: bool)
    ensures !Holds(Release(row, h, reported, unused), h.id)
    ensures Release(Release(row, h, reported, unused), h, reported, unused) == Release(row, h, reported, unused)
  {
  }

  /** The owner's reservation committed but its caller saw an error. */
  predicate OwnerCommitLost(policy: Policy, owner: Option<Row>, cooling: bool, o: Bid, w: Weather) {
    && policy == Policy(true, true) && w.cooldown == Fine && !cooling
    && w.owner == LostAfter && Check(o.raw).Ok? && Reserved(owner, o).1.value.Admitted?
  }

  /** The key was not granted and no attempt to give the owner's lease back reached the database. */
  predicate OwnerReturnLost(
      policy: Policy, owner: Option<Row>, key: Option<Row>, cooling: bool, o: Bid, k: Bid, w: Weather) {
    && policy == Policy(true, true) && w.cooldown == Fine && !cooling
    && w.owner == Fine && Check(o.raw).Ok? && Reserved(owner, o).1.value.Admitted?
    && var out := Attempt(key, k, w.key).1;
       if out.None? then w.again == LostBefore
       else out.value.Denied? && w.giveBack == LostBefore && w.again == LostBefore
  }

  lemma {:induction false} KeyKeepsOrReturns(owner: Option<Row>, key: Option<Row>, h: Handle, k: Bid, w: Weather)
    requires Holds(owner, h.id)
    ensures var out := Attempt(key, k, w.key).1;
            Holds(AcquireKey(owner, key, Some(h), k, w).0, h.id) <==>
              || (out.Some? && out.value.Admitted?)
              || (if out.None? then w.again == LostBefore
                  else out.value.Denied? && w.giveBack == LostBefore && w.again == LostBefore)
  {
    ReleaseDrops(owner, h, Some(0), true);
  }

  /** After an acquisition the owner's bucket holds its lease exactly when the call was granted with it, or the
      reservation's own commit was lost on its caller, or every attempt to give it back was lost: only then does the
      lease wait for its expiry. A return that is repeated after an error changes nothing the second time. */
  lemma {:induction false} OwnerLeaseHeldExactly(
      policy: Policy, owner: Option<Row>, key: Option<Row>, cooling: bool, o: Bid, k: Bid, w: Weather)
    requires !Holds(owner, o.id)
    ensures var r := Acquire(policy, owner, key, cooling, o, k, w);
            Holds(r.0, o.id) <==>
              || (r.2.Granted? && r.2.lease.owner.Some?)
              || OwnerCommitLost(policy, owner, cooling, o, w)
              || OwnerReturnLost(policy, owner, key, cooling, o, k, w)
  {
    if policy == Policy(true, true) && w.cooldown == Fine && !cooling && Check(o.raw).Ok? {
      ReserveHolds(owner, o);
      var out := Reserved(owner, o).1.value;
      if w.owner == Fine && out.Admitted? {
        KeyKeepsOrReturns(Reserved(owner, o).0, key, out.lease, k, w);
      }
    }
  }

  // ----- what a call is charged -----

  /** A used lease is charged its reported usage; a rejection before inference nothing; anything else its reserve. */
  lemma {:induction false} ChargedExactly(h: Handle, a: Answer, official: bool)
    requires a.usage.Some? ==>
               a.usage.value.0 >= 0 && a.usage.value.1 >= 0 && IsSafeInteger(a.usage.value.0 + a.usage.value.1)
    ensures Actual(h, ActualTokens(a, official)) ==
            if a.usage.Some? then a.usage.value.0 + a.usage.value.1
            else if RejectedBeforeInference(a, official) then 0 else h.reserved
  {
  }
}
