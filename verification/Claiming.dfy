/** Claiming due agents (db.ts, claimDueAgents): the query takes every tenant's oldest due agent before any tenant's
second, then locks out what it took. */
module Claiming {
  import opened Common

  type Id = nat

  datatype Status = Active | Paused | Disabled

  /** The circuit of an agent's provider and model, where there is a row for it. */
  datatype Circuit = Circuit(strikes: int, probeAfter: Option<int>)

  datatype Agent = Agent(id: Id, owner: Option<nat>, isHouse: bool, status: Status, nextRunAt: int, cadence: int,
                         ownKey: bool, onNvidia: bool, circuit: Option<Circuit>)

  const RUN_LOCK_SECONDS := 360

  datatype Tenant = House | User(owner: nat) | Solo(id: Id)

  function TenantOf(a: Agent): Tenant {
    if a.isHouse then House else if a.owner.Some? then User(a.owner.value) else Solo(a.id)
  }

  predicate CircuitAdmits(a: Agent, now: int, routerEnabled: bool) {
    || (routerEnabled && !a.ownKey && a.onNvidia)
    || a.ownKey
    || a.circuit.None? || a.circuit.value.probeAfter.None?
    || a.circuit.value.strikes < 3 || a.circuit.value.probeAfter.value <= now
  }

  predicate IsDue(a: Agent, now: int, routerEnabled: bool, excluded: set<Id>) {
    a.status == Active && a.nextRunAt <= now && a.id !in excluded && CircuitAdmits(a, now, routerEnabled)
  }

  function Due(agents: seq<Agent>, now: int, routerEnabled: bool, excluded: set<Id>): seq<Agent> {
    if agents == [] then []
    else
      var first := if IsDue(agents[0], now, routerEnabled, excluded) then [agents[0]] else [];
      first + Due(agents[1..], now, routerEnabled, excluded)
  }

  // ----- the ranking -----

  predicate Before(a: Agent, b: Agent) {
    a.nextRunAt < b.nextRunAt || (a.nextRunAt == b.nextRunAt && a.id < b.id)
  }

  /** The due agents of `a`'s tenant that come before it. */
  function Ahead(due: seq<Agent>, a: Agent): set<Agent> {
    set b | b in due && TenantOf(b) == TenantOf(a) && Before(b, a)
  }

  function TenantPosition(due: seq<Agent>, a: Agent): nat {
    |Ahead(due, a)| + 1
  }

  predicate RanksBefore(due: seq<Agent>, a: Agent, b: Agent) {
    || TenantPosition(due, a) < TenantPosition(due, b)
    || (TenantPosition(due, a) == TenantPosition(due, b) && Before(a, b))
  }

  function InsertRanked(due: seq<Agent>, a: Agent, s: seq<Agent>): seq<Agent> {
    if s != [] && RanksBefore(due, s[0], a) then [s[0]] + InsertRanked(due, a, s[1..]) else [a] + s
  }

  function Ranked(due: seq<Agent>, s: seq<Agent>): seq<Agent> {
    if s == [] then [] else InsertRanked(due, s[0], Ranked(due, s[1..]))
  }

  /** Rows locked by another claim, or changed since the due list was made, are skipped. */
  function Available(s: seq<Agent>, skipped: set<Id>): seq<Agent> {
    if s == [] then []
    else (if s[0].id in skipped then [] else [s[0]]) + Available(s[1..], skipped)
  }

  function Batch(due: seq<Agent>, limit: nat, skipped: set<Id>): seq<Agent> {
    var rows := Available(Ranked(due, due), skipped);
    rows[..if limit < |rows| then limit else |rows|]
  }

  function Ids(rows: seq<Agent>): set<Id> {
    set a | a in rows :: a.id
  }

  function LockedUntil(a: Agent, now: int): int {
    now + Max(a.cadence, RUN_LOCK_SECONDS)
  }

  function Locked(agents: seq<Agent>, ids: set<Id>, now: int): seq<Agent> {
    seq(|agents|, i requires 0 <= i < |agents| =>
      if agents[i].id in ids then agents[i].(nextRunAt := LockedUntil(agents[i], now)) else agents[i])
  }

  class Fleet {
    var agents: seq<Agent>

    method ClaimDueAgents(now: int, limit: nat, routerEnabled: bool, excluded: set<Id>, skipped: set<Id>)
      returns (rows: seq<Agent>)
      modifies this
      ensures rows == Batch(Due(old(agents), now, routerEnabled, excluded), limit, skipped)
      ensures agents == Locked(old(agents), Ids(rows), now)
    {
      rows := Batch(Due(agents, now, routerEnabled, excluded), limit, skipped);
      if rows != [] {
        var ids := Ids(rows);
        var updated := agents;
        var i := 0;
        while i < |agents|
          invariant 0 <= i <= |agents| == |updated|
          invariant forall k :: 0 <= k < |agents| ==>
                      updated[k] == if k < i then Locked(agents, ids, now)[k] else agents[k]
        {
          if updated[i].id in ids {
            updated := updated[i := updated[i].(nextRunAt := LockedUntil(updated[i], now))];
          }
          i := i + 1;
        }
        assert updated == Locked(agents, ids, now);
        agents := updated;
      } else {
        assert Locked(agents, Ids(rows), now) == agents;
      }
    }
  }

  // ----- who is in the batch -----

  ghost predicate DistinctIds(agents: seq<Agent>) {
    forall i, j :: 0 <= i < j < |agents| ==> agents[i].id != agents[j].id
  }

  /** The primary key, on the members of a list. */
  ghost predicate Keyed(agents: seq<Agent>) {
    forall a, b :: a in agents && b in agents && a.id == b.id ==> a == b
  }

  lemma {:induction false} DueExact(agents: seq<Agent>, now: int, routerEnabled: bool, excluded: set<Id>)
    ensures forall a :: a in Due(agents, now, routerEnabled, excluded) <==>
              a in agents && IsDue(a, now, routerEnabled, excluded)
  {
    if agents != [] {
      DueExact(agents[1..], now, routerEnabled, excluded);
      assert agents == [agents[0]] + agents[1..];
    }
  }

  lemma {:induction false} DueDistinct(agents: seq<Agent>, now: int, routerEnabled: bool, excluded: set<Id>)
    requires DistinctIds(agents)
    ensures DistinctIds(Due(agents, now, routerEnabled, excluded))
  {
    if agents != [] {
      var rest := Due(agents[1..], now, routerEnabled, excluded);
      DueDistinct(agents[1..], now, routerEnabled, excluded);
      DueExact(agents[1..], now, routerEnabled, excluded);
      forall j | 0 <= j < |rest| ensures rest[j].id != agents[0].id {
        assert rest[j] in rest;
      }
    }
  }

  lemma {:induction false} DistinctKeyed(agents: seq<Agent>)
    requires DistinctIds(agents)
    ensures Keyed(agents)
  {
  }

  lemma {:induction false} InsertRankedExact(due: seq<Agent>, a: Agent, s: seq<Agent>)
    ensures multiset(InsertRanked(due, a, s)) == multiset(s) + multiset{a}
  {
    if s != [] && RanksBefore(due, s[0], a) {
      InsertRankedExact(due, a, s[1..]);
      assert s == [s[0]] + s[1..];
    }
  }

  lemma {:induction false} RankedExact(due: seq<Agent>, s: seq<Agent>)
    ensures multiset(Ranked(due, s)) == multiset(s)
  {
    if s != [] {
      RankedExact(due, s[1..]);
      InsertRankedExact(due, s[0], Ranked(due, s[1..]));
      assert s == [s[0]] + s[1..];
    }
  }

  lemma {:induction false} SameMembers(s: seq<Agent>, t: seq<Agent>)
    requires multiset(s) == multiset(t)
    ensures |s| == |t| && forall a :: a in s <==> a in t
  {
    assert |multiset(s)| == |s|;
    forall a ensures a in s <==> a in t {
      assert a in s <==> a in multiset(s);
      assert a in t <==> a in multiset(t);
    }
  }

  ghost predicate InOrder(due: seq<Agent>, s: seq<Agent>) {
    forall i, j :: 0 <= i < j < |s| ==> RanksBefore(due, s[i], s[j])
  }

  lemma {:induction false} InsertInOrder(due: seq<Agent>, a: Agent, s: seq<Agent>)
    requires InOrder(due, s) && forall b :: b in s ==> b.id != a.id
    ensures InOrder(due, InsertRanked(due, a, s))
  {
    if s != [] {
      assert s[0] in s;
      if RanksBefore(due, s[0], a) {
        InsertInOrder(due, a, s[1..]);
        InsertRankedExact(due, a, s[1..]);
        var t := InsertRanked(due, a, s[1..]);
        forall j | 0 <= j < |t| ensures RanksBefore(due, s[0], t[j]) {
          assert t[j] in multiset(t);
          assert t[j] == a || t[j] in s[1..];
        }
      } else {
        assert RanksBefore(due, a, s[0]);
      }
    }
  }

  lemma {:induction false} RankedInOrder(due: seq<Agent>, s: seq<Agent>)
    requires DistinctIds(s)
    ensures InOrder(due, Ranked(due, s))
  {
    if s != [] {
      RankedInOrder(due, s[1..]);
      RankedExact(due, s[1..]);
      SameMembers(Ranked(due, s[1..]), s[1..]);
      InsertInOrder(due, s[0], Ranked(due, s[1..]));
    }
  }

  lemma {:induction false} AvailableExact(s: seq<Agent>, skipped: set<Id>)
    ensures forall a :: a in Available(s, skipped) <==> a in s && a.id !in skipped
  {
    if s != [] {
      AvailableExact(s[1..], skipped);
      assert s == [s[0]] + s[1..];
    }
  }

  lemma {:induction false} AvailableInOrder(due: seq<Agent>, s: seq<Agent>, skipped: set<Id>)
    requires InOrder(due, s)
    ensures InOrder(due, Available(s, skipped))
  {
    if s != [] {
      AvailableInOrder(due, s[1..], skipped);
      AvailableExact(s[1..], skipped);
      var t := Available(s[1..], skipped);
      forall j | 0 <= j < |t| ensures RanksBefore(due, s[0], t[j]) {
        assert t[j] in t;
        var k :| 0 <= k < |s[1..]| && s[1..][k] == t[j];
        assert RanksBefore(due, s[0], s[k + 1]);
      }
    }
  }

  lemma {:induction false} RanksIrreflexive(due: seq<Agent>, a: Agent)
    ensures !RanksBefore(due, a, a)
  {
  }

  /** The batch is the limit's worth of available due agents that rank first: as many as there are, none twice, and
      every picked one before every available one left behind. */
  lemma {:induction false} BatchIsFirst(due: seq<Agent>, limit: nat, skipped: set<Id>)
    requires DistinctIds(due)
    ensures var b := Batch(due, limit, skipped);
            && |b| <= limit && InOrder(due, b)
            && (forall a :: a in b ==> a in due && a.id !in skipped)
            && (|b| == limit || forall a :: a in due && a.id !in skipped ==> a in b)
    ensures forall a, x ::
              a in Batch(due, limit, skipped) && x in due && x.id !in skipped && x !in Batch(due, limit, skipped) ==>
              RanksBefore(due, a, x)
  {
    var r := Ranked(due, due);
    var rows := Available(r, skipped);
    var b := Batch(due, limit, skipped);
    RankedExact(due, due);
    SameMembers(r, due);
    RankedInOrder(due, due);
    AvailableExact(r, skipped);
    AvailableInOrder(due, r, skipped);
    forall a, x | a in b && x in due && x.id !in skipped && x !in b ensures RanksBefore(due, a, x) {
      var i :| 0 <= i < |b| && b[i] == a;
      assert x in rows;
      var j :| 0 <= j < |rows| && rows[j] == x;
      assert j >= |b|;
      assert rows[i] == a;
    }
  }

  // ----- fairness -----

  ghost function Picks(due: seq<Agent>, limit: nat, t: Tenant): set<Agent> {
    set a | a in Batch(due, limit, {}) && TenantOf(a) == t
  }

  lemma {:induction false} Earliest(s: set<Agent>) returns (m: Agent)
    requires s != {} && forall a, b :: a in s && b in s && a.id == b.id ==> a == b
    ensures m in s && forall b :: b in s && b != m ==> Before(m, b)
  {
    var x :| x in s;
    m := x;
    if s != {x} {
      var rest := s - {x};
      assert rest != {};
      var n := Earliest(rest);
      assert x.id != n.id;
      if Before(n, x) { m := n; }
      forall b | b in s && b != m ensures Before(m, b) {
        assert b == x || b == n || Before(n, b);
      }
    }
  }

  lemma {:induction false} Latest(s: set<Agent>) returns (m: Agent)
    requires s != {} && forall a, b :: a in s && b in s && a.id == b.id ==> a == b
    ensures m in s && forall b :: b in s && b != m ==> Before(b, m)
  {
    var x :| x in s;
    m := x;
    if s != {x} {
      var rest := s - {x};
      assert rest != {};
      var n := Latest(rest);
      assert x.id != n.id;
      if Before(x, n) { m := n; }
      forall b | b in s && b != m ensures Before(b, m) {
        assert b == x || b == n || Before(b, n);
      }
    }
  }

  lemma {:induction false} SmallerSet<T>(a: set<T>, b: set<T>)
    requires a <= b
    ensures |a| <= |b| && (|a| == |b| ==> a == b)
  {
    if a != {} {
      var x :| x in a;
      SmallerSet(a - {x}, b - {x});
    }
  }

  lemma {:induction false} AheadGrows(due: seq<Agent>, b: Agent, a: Agent)
    requires b in due && TenantOf(a) == TenantOf(b) && Before(b, a)
    ensures TenantPosition(due, b) < TenantPosition(due, a)
  {
    assert Ahead(due, b) <= Ahead(due, a);
    assert b in Ahead(due, a) && b !in Ahead(due, b);
    SmallerSet(Ahead(due, b), Ahead(due, a));
  }

  /** Within a tenant the picks are its oldest due agents. */
  lemma {:induction false} OldestFirst(due: seq<Agent>, limit: nat, a: Agent, b: Agent)
    requires DistinctIds(due) && a in Batch(due, limit, {}) && b in due && TenantOf(a) == TenantOf(b) && Before(b, a)
    ensures b in Batch(due, limit, {})
  {
    BatchIsFirst(due, limit, {});
    AheadGrows(due, b, a);
  }

  /** A tenant's picks are those up to its last one. */
  lemma {:induction false} PicksUpTo(due: seq<Agent>, limit: nat, t: Tenant) returns (last: Agent)
    requires DistinctIds(due) && Picks(due, limit, t) != {}
    ensures last in Batch(due, limit, {}) && |Picks(due, limit, t)| == TenantPosition(due, last)
  {
    BatchIsFirst(due, limit, {});
    DistinctKeyed(due);
    last := Latest(Picks(due, limit, t));
    forall b | b in Ahead(due, last) ensures b in Picks(due, limit, t) {
      OldestFirst(due, limit, last, b);
    }
    assert Picks(due, limit, t) == Ahead(due, last) + {last};
  }

  /** And those before the first one left behind. */
  lemma {:induction false} PicksBefore(due: seq<Agent>, limit: nat, x: Agent) returns (first: Agent)
    requires DistinctIds(due) && x in due && x !in Batch(due, limit, {})
    ensures first in due && first !in Batch(due, limit, {})
    ensures |Picks(due, limit, TenantOf(x))| + 1 == TenantPosition(due, first)
  {
    var t := TenantOf(x);
    BatchIsFirst(due, limit, {});
    DistinctKeyed(due);
    var left := set a | a in due && TenantOf(a) == t && a !in Batch(due, limit, {});
    assert x in left;
    first := Earliest(left);
    assert forall b :: b in Ahead(due, first) ==> b !in left;
    forall b | b in Picks(due, limit, t) ensures b in Ahead(due, first) {
      if Before(first, b) { OldestFirst(due, limit, b, first); }
    }
    assert Picks(due, limit, t) == Ahead(due, first);
  }

  /** The batch is max-min fair: while a tenant still has a due agent left behind, no tenant has more than one pick
      beyond its. */
  lemma {:induction false} BatchIsFair(due: seq<Agent>, limit: nat, x: Agent, u: Tenant)
    requires DistinctIds(due) && x in due && x !in Batch(due, limit, {})
    ensures |Picks(due, limit, u)| <= |Picks(due, limit, TenantOf(x))| + 1
  {
    if Picks(due, limit, u) != {} {
      var last := PicksUpTo(due, limit, u);
      var first := PicksBefore(due, limit, x);
      BatchIsFirst(due, limit, {});
      assert RanksBefore(due, last, first);
    }
  }

  // ----- claims over time -----

  /** One claim by any scheduler: its time, its parameters, and the rows it found unavailable. */
  datatype Claim = Claim(now: int, limit: nat, routerEnabled: bool, excluded: set<Id>, skipped: set<Id>)

  function Claimed(agents: seq<Agent>, c: Claim): set<Id> {
    Ids(Batch(Due(agents, c.now, c.routerEnabled, c.excluded), c.limit, c.skipped))
  }

  function AfterClaim(agents: seq<Agent>, c: Claim): seq<Agent> {
    Locked(agents, Claimed(agents, c), c.now)
  }

  function AfterClaims(agents: seq<Agent>, cs: seq<Claim>): seq<Agent>
    decreases |cs|
  {
    if cs == [] then agents else AfterClaims(AfterClaim(agents, cs[0]), cs[1..])
  }

  lemma {:induction false} ClaimedAreDue(agents: seq<Agent>, c: Claim, k: nat)
    requires DistinctIds(agents) && k < |agents| && agents[k].id in Claimed(agents, c)
    ensures IsDue(agents[k], c.now, c.routerEnabled, c.excluded)
  {
    var due := Due(agents, c.now, c.routerEnabled, c.excluded);
    DueDistinct(agents, c.now, c.routerEnabled, c.excluded);
    DueExact(agents, c.now, c.routerEnabled, c.excluded);
    BatchIsFirst(due, c.limit, c.skipped);
    var a :| a in Batch(due, c.limit, c.skipped) && a.id == agents[k].id;
    assert a in due;
    DistinctKeyed(agents);
    assert agents[k] in agents;
  }

  lemma {:induction false} LockHolds(agents: seq<Agent>, cs: seq<Claim>, k: nat, until: int)
    requires DistinctIds(agents) && k < |agents| && agents[k].nextRunAt >= until
    requires forall i :: 0 <= i < |cs| ==> cs[i].now < until
    ensures |AfterClaims(agents, cs)| == |agents| && AfterClaims(agents, cs)[k] == agents[k]
    ensures DistinctIds(AfterClaims(agents, cs))
    decreases |cs|
  {
    if cs != [] {
      if agents[k].id in Claimed(agents, cs[0]) { ClaimedAreDue(agents, cs[0], k); }
      LockHolds(AfterClaim(agents, cs[0]), cs[1..], k, until);
    }
  }

  /** A claimed agent that nobody reschedules is not claimed again, by any scheduler, until its cadence or the run lock
      has passed, whichever is longer. */
  lemma {:induction false} NotClaimedAgain(agents: seq<Agent>, c: Claim, cs: seq<Claim>, d: Claim, k: nat)
    requires DistinctIds(agents) && k < |agents| && agents[k].id in Claimed(agents, c)
    requires forall i :: 0 <= i < |cs| ==> cs[i].now <= d.now
    requires agents[k].id in Claimed(AfterClaims(AfterClaim(agents, c), cs), d)
    ensures d.now >= c.now + Max(agents[k].cadence, RUN_LOCK_SECONDS)
  {
    var locked := AfterClaim(agents, c);
    var until := LockedUntil(agents[k], c.now);
    if d.now < until {
      LockHolds(locked, cs, k, until);
      ClaimedAreDue(AfterClaims(locked, cs), d, k);
    }
  }
}
