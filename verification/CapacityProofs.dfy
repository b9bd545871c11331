/** What the capacity bucket guarantees over whole runs: the long-run token rate, lease discipline and the
retry hint. */
module CapacityProofs {
  import opened Common
  import opened Capacity

  // ----- runs -----

  datatype Step =
    | ReserveAt(ask: Ask, id: nat, t: Clock, active: set<string>)
    | ReleaseAt(h: Handle, reported: Option<int>, unused: bool, at: real)
    | EndClaimAt(key: string, at: real)

  /** A bucket with its meter: `charged` is the tokens charged over the whole history, counting the reserve
      of an outstanding or expired lease and the usage of a reconciled one. */
  datatype Meter = Meter(row: Option<Row>, charged: int, born: real, clock: real, issued: map<nat, Handle>)

  const Start := Meter(None, 0, 0.0, 0.0, map[])

  function Reconciles(m: Meter, h: Handle): bool {
    m.row.Some? && h.id in m.row.value.leases
  }

  function Apply(m: Meter, s: Step): Meter
    requires s.ReserveAt? ==> s.ask.Valid()
  {
    match s
    case ReserveAt(ask, id, t, active) =>
      var (row, out) := Reserve(m.row, ask, id, t, active);
      m.(row := Some(row),
         charged := m.charged + (if out.Admitted? then ask.reserve else 0),
         born := if m.row.None? then t.upsert else m.born,
         clock := t.lease,
         issued := if out.Admitted? then m.issued[id := out.lease] else m.issued)
    case ReleaseAt(h, reported, unused, at) =>
      m.(row := Release(m.row, h, reported, unused),
         charged := m.charged
             + (if Reconciles(m, h) then Actual(h, reported) - m.row.value.leases[h.id].reserved else 0),
         clock := at)
    case EndClaimAt(key, at) => m.(row := EndClaim(m.row, key), clock := at)
  }

  /** The database clock never runs back, and lease ids are fresh. */
  predicate Enabled(m: Meter, s: Step) {
    match s
    case ReserveAt(ask, id, t, _) => ask.Valid() && t.Ordered() && m.clock <= t.upsert && id !in m.issued
    case ReleaseAt(h, _, _, at) => m.clock <= at && h.id in m.issued && m.issued[h.id] == h
    case EndClaimAt(_, at) => m.clock <= at
  }

  /** Limits of a deployment: no request raises the token rate above `rate` or the bucket above `cap`. */
  predicate Within(s: Step, rate: nat, cap: nat) {
    s.ReserveAt? ==> s.ask.tokenRate <= rate && s.ask.Cap() <= cap
  }

  predicate Legal(m: Meter, steps: seq<Step>, rate: nat, cap: nat)
    decreases |steps|
  {
    steps == [] ||
    (Enabled(m, steps[0]) && Within(steps[0], rate, cap) && Legal(Apply(m, steps[0]), steps[1..], rate, cap))
  }

  function Run(m: Meter, steps: seq<Step>, rate: nat, cap: nat): Meter
    requires Legal(m, steps, rate, cap)
    decreases |steps|
  {
    if steps == [] then m else Run(Apply(m, steps[0]), steps[1..], rate, cap)
  }

  // ----- refill arithmetic -----

  lemma {:induction false} RefillAdds(rate: nat, a: real, b: real)
    ensures Refill(rate, a) + Refill(rate, b) == Refill(rate, a + b)
  {
  }

  lemma {:induction false} RefillMonotone(r: nat, rate: nat, a: real, b: real)
    requires r <= rate && 0.0 <= a <= b
    ensures 0.0 <= Refill(r, a) <= Refill(rate, b)
    ensures Refill(rate, 0.0) == 0.0
  {
    assert r as real * a <= rate as real * a;
    assert rate as real * a <= rate as real * b;
  }

  // ----- the bound on what is charged -----

  ghost predicate Metered(m: Meter, rate: nat, cap: nat) {
    && (m.row.Some? ==>
          var b := m.row.value;
          && ValidRow(b) && b.tokenRate <= rate
          && m.born <= b.lastRefill <= m.clock
          && b.tokens <= cap as real)
    && (forall id :: id in m.issued ==> m.issued[id].burst.GetOr(0) <= cap)
    && rate <= cap
  }

  /** Tokens held plus tokens charged. */
  ghost function Backing(m: Meter): real {
    (if m.row.Some? then m.row.value.tokens else 0.0) + m.charged as real
  }

  /** When the bucket was last brought up to date. */
  ghost function Stamp(m: Meter): real {
    if m.row.Some? then m.row.value.lastRefill else m.born
  }

  lemma {:induction false} AdmissionCharges(m: Meter, s: Step, rate: nat, cap: nat)
    requires Metered(m, rate, cap) && s.ReserveAt? && Enabled(m, s) && Within(s, rate, cap)
    requires m.row.Some?
    ensures var m' := Apply(m, s);
            && Metered(m', rate, cap)
            && Stamp(m) <= Stamp(m') <= m'.clock
            && Backing(m') <= Backing(m) + Refill(rate, Stamp(m') - Stamp(m))
            && (Reserve(m.row, s.ask, s.id, s.t, s.active).1.Admitted? ==>
               Stamp(m') == s.t.at && 0.0 <= m'.row.value.tokens)
  {
    var b := Snapshot(m.row, s.ask, s.t);
    RefillMonotone(s.ask.tokenRate, rate, Elapsed(b, s.t.at), s.t.at - b.lastRefill);
    RefillMonotone(0, rate, 0.0, 0.0);
  }

  lemma {:induction false} StepCharges(m: Meter, s: Step, rate: nat, cap: nat)
    requires Metered(m, rate, cap) && Enabled(m, s) && Within(s, rate, cap) && m.row.Some?
    ensures var m' := Apply(m, s);
            && Metered(m', rate, cap) && m'.row.Some? && m'.born == m.born
            && Stamp(m) <= Stamp(m')
            && Backing(m') <= Backing(m) + Refill(rate, Stamp(m') - Stamp(m))
  {
    match s
    case ReserveAt(ask, id, t, active) => AdmissionCharges(m, s, rate, cap);
    case _ => RefillMonotone(0, rate, 0.0, 0.0);
  }

  /** Over any run, holdings and charges together grow no faster than the refill rate. */
  lemma {:induction false} RunCharges(m: Meter, steps: seq<Step>, rate: nat, cap: nat)
    requires Metered(m, rate, cap) && m.row.Some? && Legal(m, steps, rate, cap)
    ensures var m' := Run(m, steps, rate, cap);
            && Metered(m', rate, cap) && m'.row.Some? && m'.born == m.born
            && Stamp(m) <= Stamp(m')
            && Backing(m') <= Backing(m) + Refill(rate, Stamp(m') - Stamp(m))
    decreases |steps|
  {
    if steps == [] {
      RefillMonotone(0, rate, 0.0, 0.0);
    } else {
      var m1 := Apply(m, steps[0]);
      StepCharges(m, steps[0], rate, cap);
      RunCharges(m1, steps[1..], rate, cap);
      RefillAdds(rate, Stamp(m1) - Stamp(m), Stamp(Run(m, steps, rate, cap)) - Stamp(m1));
    }
  }

  /** The first request only creates the bucket, empty. */
  lemma {:induction false} FirstStepIsEmpty(s: Step, rate: nat, cap: nat)
    requires s.ReserveAt? && Enabled(Start, s) && Within(s, rate, cap) && rate <= cap
    ensures var m := Apply(Start, s);
            && Metered(m, rate, cap) && m.row.Some?
            && Backing(m) <= Refill(rate, Stamp(m) - m.born) && m.born == s.t.upsert && m.born <= Stamp(m)
  {
    var b := Snapshot(None, s.ask, s.t);
    RefillMonotone(s.ask.tokenRate, rate, Elapsed(b, s.t.at), s.t.at - s.t.upsert);
    RefillMonotone(0, rate, 0.0, 0.0);
  }

  lemma {:induction false} AdmissionSpends(m: Meter, s: Step, rate: nat, cap: nat)
    requires Metered(m, rate, cap) && m.row.Some? && s.ReserveAt? && Enabled(m, s) && Within(s, rate, cap)
    requires Reserve(m.row, s.ask, s.id, s.t, s.active).1.Admitted?
    ensures Apply(m, s).charged as real <= Backing(m) + Refill(rate, s.t.at - Stamp(m))
  {
    AdmissionCharges(m, s, rate, cap);
  }

  /** LONG-RUN RATE: at every admission the tokens charged since the bucket was created are at most the rate
      times the elapsed time, whatever was refunded, clamped or carried as debt before. */
  lemma {:induction false} LongRunRate(first: Step, steps: seq<Step>, last: Step, rate: nat, cap: nat)
    requires first.ReserveAt? && Enabled(Start, first) && Within(first, rate, cap) && rate <= cap
    requires Legal(Apply(Start, first), steps, rate, cap)
    requires var m := Run(Apply(Start, first), steps, rate, cap);
             && last.ReserveAt? && Enabled(m, last) && Within(last, rate, cap)
             && Reserve(m.row, last.ask, last.id, last.t, last.active).1.Admitted?
    ensures var m := Run(Apply(Start, first), steps, rate, cap);
            Apply(m, last).charged as real <= Refill(rate, last.t.at - first.t.upsert)
  {
    FirstStepIsEmpty(first, rate, cap);
    LongRunFrom(Apply(Start, first), steps, last, rate, cap);
  }

  lemma {:induction false} LongRunFrom(m0: Meter, steps: seq<Step>, last: Step, rate: nat, cap: nat)
    requires Metered(m0, rate, cap) && m0.row.Some? && Backing(m0) <= Refill(rate, Stamp(m0) - m0.born)
    requires Legal(m0, steps, rate, cap)
    requires var m := Run(m0, steps, rate, cap);
             && last.ReserveAt? && Enabled(m, last) && Within(last, rate, cap)
             && Reserve(m.row, last.ask, last.id, last.t, last.active).1.Admitted?
    ensures var m := Run(m0, steps, rate, cap);
            Apply(m, last).charged as real <= Refill(rate, last.t.at - m0.born)
  {
    var m := Run(m0, steps, rate, cap);
    RunCharges(m0, steps, rate, cap);
    AdmissionSpends(m, last, rate, cap);
    RefillChain(rate, m0.born, Stamp(m0), Stamp(m), last.t.at);
  }

  lemma {:induction false} RefillChain(rate: nat, a: real, b: real, c: real, d: real)
    ensures Refill(rate, b - a) + Refill(rate, c - b) + Refill(rate, d - c) == Refill(rate, d - a)
  {
    RefillAdds(rate, b - a, c - b);
    RefillAdds(rate, c - a, d - c);
  }

  /** BURST: from any reached state to a later admission, the net charge is at most what the bucket held, so
      at most the cap, plus the rate times the time since the bucket was last brought up to date. */
  lemma {:induction false} BurstFromLastRefill(m: Meter, steps: seq<Step>, last: Step, rate: nat, cap: nat)
    requires Metered(m, rate, cap) && m.row.Some? && Legal(m, steps, rate, cap)
    requires var e := Run(m, steps, rate, cap);
             && last.ReserveAt? && Enabled(e, last) && Within(last, rate, cap)
             && Reserve(e.row, last.ask, last.id, last.t, last.active).1.Admitted?
    ensures var e := Run(m, steps, rate, cap);
            (Apply(e, last).charged - m.charged) as real
              <= m.row.value.tokens + Refill(rate, last.t.at - Stamp(m))
              <= cap as real + Refill(rate, last.t.at - Stamp(m))
  {
    RunCharges(m, steps, rate, cap);
    var e := Run(m, steps, rate, cap);
    AdmissionCharges(e, last, rate, cap);
    RefillAdds(rate, Stamp(e) - Stamp(m), last.t.at - Stamp(e));
  }

  // ----- windows that start between two refills -----

  /** The level a request would see: the lazy refill clamped at the cap. */
  ghost function Level(m: Meter, rate: nat, cap: nat, at: real): real {
    if m.row.None? then 0.0
    else MinR(cap as real, m.row.value.tokens + Refill(rate, at - m.row.value.lastRefill))
  }

  /** A debt posted so late that refill which a full bucket would have lost already pays for it: with the debt added
      back, the stored tokens and their refill exceed the cap. */
  ghost predicate LateDebt(m: Meter, s: Step, rate: nat, cap: nat) {
    && s.ReleaseAt? && Reconciles(m, s.h)
    && var debt := Actual(s.h, s.reported) - m.row.value.leases[s.h.id].reserved;
       (debt > 0
        && debt as real + Release(m.row, s.h, s.reported, s.unused).value.tokens
           + Refill(rate, s.at - m.row.value.lastRefill)
           > cap as real)
  }

  ghost function Time(s: Step): real {
    match s
    case ReserveAt(_, _, t, _) => t.at
    case ReleaseAt(_, _, _, at) => at
    case EndClaimAt(_, at) => at
  }

  /** One release keeps level plus charges from growing exactly when it posts no late debt. */
  lemma {:induction false} ReleaseKeepsLevelExactly(m: Meter, s: Step, rate: nat, cap: nat)
    requires Metered(m, rate, cap) && m.row.Some? && s.ReleaseAt? && Enabled(m, s)
    ensures var m' := Apply(m, s);
            (Level(m', rate, cap, s.at) + m'.charged as real <= Level(m, rate, cap, s.at) + m.charged as real)
            <==> !LateDebt(m, s, rate, cap)
  {
    RefillMonotone(0, rate, 0.0, s.at - m.row.value.lastRefill);
  }

  lemma {:induction false} LevelGrows(m: Meter, rate: nat, cap: nat, a: real, b: real)
    requires Metered(m, rate, cap) && m.row.Some? && m.row.value.lastRefill <= a <= b
    ensures Level(m, rate, cap, b) <= Level(m, rate, cap, a) + Refill(rate, b - a)
    ensures Level(m, rate, cap, a) <= cap as real
  {
    RefillAdds(rate, a - m.row.value.lastRefill, b - a);
    RefillMonotone(0, rate, 0.0, b - a);
  }

  lemma {:induction false} StepKeepsLevel(m: Meter, s: Step, rate: nat, cap: nat)
    requires Metered(m, rate, cap) && m.row.Some? && Enabled(m, s) && Within(s, rate, cap)
    requires !LateDebt(m, s, rate, cap)
    ensures var m' := Apply(m, s);
            && Level(m', rate, cap, Time(s)) + m'.charged as real <= Level(m, rate, cap, Time(s)) + m.charged as real
            && m'.row.Some? && m'.row.value.lastRefill <= Time(s) <= m'.clock
  {
    RefillMonotone(0, rate, 0.0, Time(s) - m.row.value.lastRefill);
    match s
    case ReserveAt(ask, id, t, active) =>
      var b := Snapshot(m.row, ask, t);
      RefillMonotone(ask.tokenRate, rate, Elapsed(b, t.at), t.at - b.lastRefill);
    case _ =>
  }

  ghost predicate NoLateDebt(m: Meter, steps: seq<Step>, rate: nat, cap: nat)
    requires Legal(m, steps, rate, cap)
    decreases |steps|
  {
    steps == [] || (!LateDebt(m, steps[0], rate, cap) && NoLateDebt(Apply(m, steps[0]), steps[1..], rate, cap))
  }

  lemma {:induction false} RunKeepsLevel(m: Meter, steps: seq<Step>, rate: nat, cap: nat, s: real, e: real)
    requires Metered(m, rate, cap) && m.row.Some? && Legal(m, steps, rate, cap) && NoLateDebt(m, steps, rate, cap)
    requires m.row.value.lastRefill <= s
    requires forall i :: 0 <= i < |steps| ==> s <= Time(steps[i]) <= e
    requires s <= e
    ensures var m' := Run(m, steps, rate, cap);
            && m'.row.Some? && m'.row.value.lastRefill <= e && Metered(m', rate, cap)
            && Level(m', rate, cap, e) + m'.charged as real <= Level(m, rate, cap, s) + m.charged as real
               + Refill(rate, e - s)
    decreases |steps|
  {
    if steps == [] {
      LevelGrows(m, rate, cap, s, e);
    } else {
      var a, m1 := Time(steps[0]), Apply(m, steps[0]);
      LevelGrows(m, rate, cap, s, a);
      StepKeepsLevel(m, steps[0], rate, cap);
      StepCharges(m, steps[0], rate, cap);
      LegalIsOrdered(m1, steps[1..], rate, cap);
      forall i | 0 <= i < |steps[1..]| ensures a <= Time(steps[1..][i]) <= e {
        assert steps[1..][i] == steps[i + 1];
      }
      RunKeepsLevel(m1, steps[1..], rate, cap, a, e);
      RefillAdds(rate, a - s, e - a);
    }
  }

  lemma {:induction false} LegalIsOrdered(m: Meter, steps: seq<Step>, rate: nat, cap: nat)
    requires Legal(m, steps, rate, cap)
    ensures forall i :: 0 <= i < |steps| ==> m.clock <= Time(steps[i]) <= Run(m, steps, rate, cap).clock
    ensures m.clock <= Run(m, steps, rate, cap).clock
    decreases |steps|
  {
    if steps != [] {
      LegalIsOrdered(Apply(m, steps[0]), steps[1..], rate, cap);
      forall i | 0 <= i < |steps| ensures m.clock <= Time(steps[i]) <= Run(m, steps, rate, cap).clock {
        if i > 0 {
          assert steps[i] == steps[1..][i - 1];
        }
      }
    }
  }

  /** WINDOWS: between any instant s and a later admission, net charges are at most the cap plus the rate times
      the window, provided no late debt is posted in between. */
  lemma {:induction false} WindowRate(m: Meter, steps: seq<Step>, last: Step, rate: nat, cap: nat, s: real)
    requires Metered(m, rate, cap) && m.row.Some? && Legal(m, steps, rate, cap) && NoLateDebt(m, steps, rate, cap)
    requires m.row.value.lastRefill <= s
    requires forall i :: 0 <= i < |steps| ==> s <= Time(steps[i])
    requires var e := Run(m, steps, rate, cap);
             && last.ReserveAt? && Enabled(e, last) && Within(last, rate, cap) && s <= last.t.at
             && Reserve(e.row, last.ask, last.id, last.t, last.active).1.Admitted?
    ensures var e := Run(m, steps, rate, cap);
            (Apply(e, last).charged - m.charged) as real <= cap as real + Refill(rate, last.t.at - s)
  {
    LegalIsOrdered(m, steps, rate, cap);
    RunKeepsLevel(m, steps, rate, cap, s, last.t.at);
    var e := Run(m, steps, rate, cap);
    StepKeepsLevel(e, last, rate, cap);
    AdmissionCharges(e, last, rate, cap);
    LevelGrows(m, rate, cap, s, s);
    RefillMonotone(0, rate, 0.0, 0.0);
  }

  // ----- exactly when windows are bounded -----

  /** An admission after the steps `pre`, and the start `s` of a window that holds them all. */
  ghost predicate WindowTo(m: Meter, pre: seq<Step>, last: Step, rate: nat, cap: nat, s: real) {
    && m.row.Some? && Legal(m, pre, rate, cap) && m.row.value.lastRefill <= s
    && (forall i :: 0 <= i < |pre| ==> s <= Time(pre[i]))
    && var e := Run(m, pre, rate, cap);
       (last.ReserveAt? && Enabled(e, last) && Within(last, rate, cap) && s <= last.t.at
        && Reserve(e.row, last.ask, last.id, last.t, last.active).1.Admitted?)
  }

  ghost predicate WindowBounded(m: Meter, pre: seq<Step>, last: Step, rate: nat, cap: nat, s: real)
    requires WindowTo(m, pre, last, rate, cap, s)
  {
    (Apply(Run(m, pre, rate, cap), last).charged - m.charged) as real <= cap as real + Refill(rate, last.t.at - s)
  }

  /** No admission that could be made at any point of the run breaks the bound of a window that starts here. */
  ghost predicate WindowsFrom(m: Meter, steps: seq<Step>, rate: nat, cap: nat) {
    forall pre, last, s :: pre <= steps && WindowTo(m, pre, last, rate, cap, s) ==>
        WindowBounded(m, pre, last, rate, cap, s)
  }

  /** Nor of one that starts later in it. */
  ghost predicate WindowsObeyed(m: Meter, steps: seq<Step>, rate: nat, cap: nat)
    requires Legal(m, steps, rate, cap)
    decreases |steps|
  {
    WindowsFrom(m, steps, rate, cap) && (steps != [] ==> WindowsObeyed(Apply(m, steps[0]), steps[1..], rate, cap))
  }

  lemma {:induction false} PrefixLegal(m: Meter, steps: seq<Step>, pre: seq<Step>, rate: nat, cap: nat)
    requires Legal(m, steps, rate, cap) && NoLateDebt(m, steps, rate, cap) && pre <= steps
    ensures Legal(m, pre, rate, cap) && NoLateDebt(m, pre, rate, cap)
    decreases |steps|
  {
    if pre != [] {
      assert pre[0] == steps[0] && pre[1..] <= steps[1..];
      PrefixLegal(Apply(m, steps[0]), steps[1..], pre[1..], rate, cap);
    }
  }

  lemma {:induction false} NoLateDebtObeys(m: Meter, steps: seq<Step>, rate: nat, cap: nat)
    requires Metered(m, rate, cap) && m.row.Some? && Legal(m, steps, rate, cap) && NoLateDebt(m, steps, rate, cap)
    ensures WindowsObeyed(m, steps, rate, cap)
    decreases |steps|
  {
    forall pre, last, s | pre <= steps && WindowTo(m, pre, last, rate, cap, s)
      ensures WindowBounded(m, pre, last, rate, cap, s)
    {
      PrefixLegal(m, steps, pre, rate, cap);
      WindowRate(m, pre, last, rate, cap, s);
    }
    if steps != [] {
      StepCharges(m, steps[0], rate, cap);
      NoLateDebtObeys(Apply(m, steps[0]), steps[1..], rate, cap);
    }
  }

  // ----- the admission that a late debt pays for -----

  lemma {:induction false} FreshId(s: set<nat>) returns (id: nat)
    ensures forall x :: x in s ==> x < id
  {
    id := 0;
    if s != {} {
      var x :| x in s;
      var rest := FreshId(s - {x});
      assert forall y :: y in s ==> y == x || y in s - {x};
      id := Max(rest, x + 1);
    }
  }

  /** The first instant from `at` on at which the level is a whole number of at least one, and that number, at most
      the cap. */
  lemma {:induction false} FirstWholeLevel(level: real, rate: nat, cap: nat) returns (wait: real, k: nat)
    requires rate >= 1 && cap >= 1
    ensures wait >= 0.0 && 1 <= k <= cap
    ensures k as real <= level + Refill(rate, wait)
    ensures k == cap || k as real == level + Refill(rate, wait)
    ensures k == cap ==> wait == 0.0 || k as real == level + Refill(rate, wait)
  {
    if level >= cap as real {
      wait, k := 0.0, cap;
      assert Refill(rate, 0.0) == 0.0;
    } else {
      var c := Ceil(level);
      CeilIsAbove(level);
      k := Max(1, c);
      wait := (k as real - level) * 60.0 / rate as real;
      WaitRefills(k as real - level, rate);
    }
  }

  lemma {:induction false} WaitRefills(need: real, rate: nat)
    requires rate >= 1 && need >= 0.0
    ensures need * 60.0 / rate as real >= 0.0 && Refill(rate, need * 60.0 / rate as real) == need
  {
    var w := need * 60.0 / rate as real;
    assert w * rate as real == need * 60.0;
    assert rate as real * w == w * rate as real;
  }

  /** A request rate that has refilled one request after any time that is not zero. */
  lemma {:induction false} EnoughRequests(requests: real, elapsed: real) returns (rate: nat)
    requires elapsed > 0.0
    ensures rate >= 1 && requests + Refill(rate, elapsed) >= 1.0
  {
    var need := MaxR(1.0, (1.0 - requests) * 60.0 / elapsed);
    rate := Max(1, Ceil(need));
    CeilIsAbove(need);
    assert rate as real >= (1.0 - requests) * 60.0 / elapsed;
    MoreRefills((1.0 - requests) * 60.0 / elapsed, rate as real, elapsed);
    assert (1.0 - requests) * 60.0 / elapsed * elapsed == (1.0 - requests) * 60.0;
  }

  lemma {:induction false} MoreRefills(a: real, b: real, t: real)
    requires a <= b && t >= 0.0
    ensures a * t <= b * t
  {
    assert (b - a) * t >= 0.0;
  }

  /** An uncooled bucket admits a request for a whole level that it has reached. */
  lemma {:induction false} AdmitsWholeLevel(m: Meter, rate: nat, cap: nat, k: nat, at: real) returns (last: Step)
    requires Metered(m, rate, cap) && m.row.Some? && m.row.value.blockedUntil.None?
    requires m.clock <= at && m.row.value.lastRefill < at && rate >= 1 && 1 <= k <= cap
    requires k as real <= m.row.value.tokens + Refill(rate, at - m.row.value.lastRefill)
    ensures last.ReserveAt? && last.t.at == at && last.ask.reserve == k && Enabled(m, last) && Within(last, rate, cap)
    ensures Reserve(m.row, last.ask, last.id, last.t, last.active).1.Admitted?
  {
    var b := m.row.value;
    var id := FreshId(m.issued.Keys);
    var requestRate := EnoughRequests(b.requests, at - b.lastRefill);
    var ask := Ask(requestRate, rate, Some(cap),
        |LiveLeases(Snapshot(m.row, Ask(1, 1, None, 1, 1, 1, None), At(at)), at)| + 1, k, 1, None);
    last := ReserveAt(ask, id, At(at), {});
    AdmissionHolds(m.row, ask, at, cap);
  }

  lemma {:induction false} AdmissionHolds(row: Option<Row>, ask: Ask, at: real, cap: nat)
    requires row.Some? && row.value.blockedUntil.None? && ask.Valid() && ask.waiter.None? && ask.burst == Some(cap)
    requires row.value.lastRefill < at && ask.reserve <= cap
    requires ask.reserve as real <= row.value.tokens + Refill(ask.tokenRate, at - row.value.lastRefill)
    requires row.value.requests + Refill(ask.requestRate, at - row.value.lastRefill) >= 1.0
    requires |LiveLeases(Snapshot(row, ask, At(at)), at)| < ask.maxConcurrent
    ensures !Deny(Snapshot(row, ask, At(at)), ask, at, {}).Any()
  {
  }

  /** After a late debt an admission at the first whole level breaks the window that starts at the debt. */
  lemma {:induction false} LateDebtBreaks(m: Meter, s: Step, rate: nat, cap: nat)
    requires Metered(m, rate, cap) && m.row.Some? && m.row.value.blockedUntil.None?
    requires Enabled(m, s) && LateDebt(m, s, rate, cap)
    ensures exists last :: WindowTo(m, [s], last, rate, cap, s.at) && !WindowBounded(m, [s], last, rate, cap, s.at)
  {
    var e := Apply(m, s);
    var level := e.row.value.tokens + Refill(rate, s.at - m.row.value.lastRefill);
    LateDebtWaits(m, s, rate, cap);
    var wait, k := FirstWholeLevel(level, rate, cap);
    var at := s.at + wait;
    RefillAdds(rate, s.at - m.row.value.lastRefill, wait);
    StepCharges(m, s, rate, cap);
    var last := AdmitsWholeLevel(e, rate, cap, k, at);
    OneStepRun(m, s, rate, cap);
    assert WindowTo(m, [s], last, rate, cap, s.at);
    assert !WindowBounded(m, [s], last, rate, cap, s.at);
  }

  lemma {:induction false} OneStepRun(m: Meter, s: Step, rate: nat, cap: nat)
    requires Enabled(m, s) && Within(s, rate, cap)
    ensures Legal(m, [s], rate, cap) && Run(m, [s], rate, cap) == Apply(m, s)
  {
    assert [s][1..] == [];
  }

  /** A debt can be late only some time after the last refill. */
  lemma {:induction false} LateDebtWaits(m: Meter, s: Step, rate: nat, cap: nat)
    requires Metered(m, rate, cap) && m.row.Some? && Enabled(m, s) && LateDebt(m, s, rate, cap)
    ensures m.row.value.lastRefill < s.at && rate >= 1 && cap >= 1
  {
    if m.row.value.lastRefill == s.at { RefillMonotone(0, rate, 0.0, 0.0); }
  }

  lemma {:induction false} ObeysMeansNoLateDebt(m: Meter, steps: seq<Step>, rate: nat, cap: nat)
    requires Metered(m, rate, cap) && m.row.Some? && m.row.value.blockedUntil.None?
    requires Legal(m, steps, rate, cap) && WindowsObeyed(m, steps, rate, cap)
    ensures NoLateDebt(m, steps, rate, cap)
    decreases |steps|
  {
    if steps != [] {
      assert [steps[0]] <= steps;
      if LateDebt(m, steps[0], rate, cap) {
        LateDebtBreaks(m, steps[0], rate, cap);
      }
      StepCharges(m, steps[0], rate, cap);
      ObeysMeansNoLateDebt(Apply(m, steps[0]), steps[1..], rate, cap);
    }
  }

  /** WINDOWS, exactly: in a run of an uncooled bucket no admission that could be made at any point breaks the bound of
      any window if and only if the run posts no late debt. */
  lemma {:induction false} WindowsExactly(m: Meter, steps: seq<Step>, rate: nat, cap: nat)
    requires Metered(m, rate, cap) && m.row.Some? && m.row.value.blockedUntil.None? && Legal(m, steps, rate, cap)
    ensures WindowsObeyed(m, steps, rate, cap) <==> NoLateDebt(m, steps, rate, cap)
  {
    if NoLateDebt(m, steps, rate, cap) { NoLateDebtObeys(m, steps, rate, cap); }
    if WindowsObeyed(m, steps, rate, cap) { ObeysMeansNoLateDebt(m, steps, rate, cap); }
  }

  // A bucket of cap 100 refilled at one token a second, and a lease of it.
  const EXAMPLE_ASK := Ask(60, 60, Some(100), 2, 100, 10000, None)
  const EXAMPLE_LEASE := HandleOf(EXAMPLE_ASK, 1)

  function At(second: real): Clock {
    Clock(second, second, second, second)
  }

  const EXAMPLE_CREATE := ReserveAt(EXAMPLE_ASK, 0, At(0.0), {})
  const EXAMPLE_ADMIT := ReserveAt(EXAMPLE_ASK, 1, At(100.0), {})
  const EXAMPLE_DEBT := ReleaseAt(EXAMPLE_LEASE, Some(600), false, 1000.0)
  const EXAMPLE_LAST := ReserveAt(EXAMPLE_ASK, 2, At(1000.0), {})

  const EXAMPLE_EMPTY := Row(0.0, 0.0, 60, 60, 2, 0.0, None, None, map[])
  const EXAMPLE_HELD := Row(59.0, 0.0, 60, 60, 2, 100.0, None, None, map[1 := LeaseRow(100, 10100.0)])
  const EXAMPLE_OWING := Row(59.0, -500.0, 60, 60, 2, 100.0, None, None, map[])

  const METER_EMPTY := Meter(Some(EXAMPLE_EMPTY), 0, 0.0, 0.0, map[])
  const METER_HELD := Meter(Some(EXAMPLE_HELD), 100, 0.0, 100.0, map[1 := EXAMPLE_LEASE])
  const METER_OWING := Meter(Some(EXAMPLE_OWING), 600, 0.0, 1000.0, map[1 := EXAMPLE_LEASE])

  predicate Goes(m: Meter, s: Step, m': Meter) {
    Enabled(m, s) && Apply(m, s) == m'
  }

  lemma {:induction false} ExampleCreate()
    ensures Goes(Start, EXAMPLE_CREATE, METER_EMPTY)
  {
    assert Snapshot(None, EXAMPLE_ASK, At(0.0)) == EXAMPLE_EMPTY;
    assert AvailableTokens(EXAMPLE_EMPTY, EXAMPLE_ASK, 0.0) == 0.0;
  }

  lemma {:induction false} ExampleAdmit()
    ensures Goes(METER_EMPTY, EXAMPLE_ADMIT, METER_HELD)
  {
    assert Snapshot(Some(EXAMPLE_EMPTY), EXAMPLE_ASK, At(100.0)) == EXAMPLE_EMPTY;
    assert LiveLeases(EXAMPLE_EMPTY, 100.0) == {};
    assert AvailableTokens(EXAMPLE_EMPTY, EXAMPLE_ASK, 100.0) == 100.0;
    assert AvailableRequests(EXAMPLE_EMPTY, 100.0) == 60.0;
  }

  lemma {:induction false} ExampleDebt()
    ensures Goes(METER_HELD, EXAMPLE_DEBT, METER_OWING)
  {
    assert map[1 := LeaseRow(100, 10100.0)] - {1} == map[];
  }

  lemma {:induction false} ExampleLast()
    ensures Enabled(METER_OWING, EXAMPLE_LAST)
    ensures Reserve(METER_OWING.row, EXAMPLE_ASK, 2, At(1000.0), {}).1.Admitted?
    ensures Apply(METER_OWING, EXAMPLE_LAST).charged == 700
  {
    assert Snapshot(Some(EXAMPLE_OWING), EXAMPLE_ASK, At(1000.0)) == EXAMPLE_OWING;
    assert LiveLeases(EXAMPLE_OWING, 1000.0) == {};
    assert AvailableTokens(EXAMPLE_OWING, EXAMPLE_ASK, 1000.0) == 100.0;
    assert AvailableRequests(EXAMPLE_OWING, 1000.0) == 60.0;
  }

  /** Without that proviso the window bound fails. Four steps under one limit, from an absent bucket: a bucket idle past
      its cap of 100 absorbs a late debt of 500 and admits 100 more at the same instant, so that the empty window at
      instant 1000 is charged 600. */
  lemma {:induction false} LateDebtBreaksWindows()
    ensures Goes(Start, EXAMPLE_CREATE, METER_EMPTY) && Goes(METER_EMPTY, EXAMPLE_ADMIT, METER_HELD)
    ensures Goes(METER_HELD, EXAMPLE_DEBT, METER_OWING) && Enabled(METER_OWING, EXAMPLE_LAST)
    ensures Reserve(METER_OWING.row, EXAMPLE_ASK, 2, At(1000.0), {}).1.Admitted?
    ensures (Apply(METER_OWING, EXAMPLE_LAST).charged - METER_HELD.charged) as real > EXAMPLE_ASK.Cap() as real
              + Refill(60, 0.0)
  {
    ExampleCreate();
    ExampleAdmit();
    ExampleDebt();
    ExampleLast();
  }

  // ----- leases -----

  lemma {:induction false} SubsetSize(a: set<nat>, b: set<nat>)
    requires a <= b
    ensures |a| <= |b|
  {
    if a != {} {
      var x :| x in a;
      SubsetSize(a - {x}, b - {x});
    }
  }

  /** Live leases never exceed the concurrency limit. */
  ghost predicate SlotsKept(m: Meter, slots: nat) {
    m.row.Some? ==>
      forall at {:trigger LiveLeases(m.row.value, at)} :: m.clock <= at ==> |LiveLeases(m.row.value, at)| <= slots
  }

  lemma {:induction false} StepKeepsSlots(m: Meter, s: Step, slots: nat)
    requires SlotsKept(m, slots) && Enabled(m, s)
    requires s.ReserveAt? ==> s.ask.maxConcurrent <= slots
    ensures SlotsKept(Apply(m, s), slots)
  {
    var m' := Apply(m, s);
    if m'.row.Some? {
      forall at {:trigger LiveLeases(m'.row.value, at)} | m'.clock <= at
        ensures |LiveLeases(m'.row.value, at)| <= slots
      {
        var after := LiveLeases(m'.row.value, at);
        match s
        case ReserveAt(ask, id, t, active) =>
          var b := Snapshot(m.row, ask, t);
          var live := LiveLeases(b, t.at);
          if Reserve(m.row, ask, id, t, active).1.Admitted? {
            SubsetSize(after, live + {id});
          } else if m.row.Some? {
            SubsetSize(after, LiveLeases(m.row.value, at));
          } else {
            assert after == {};
          }
        case _ =>
          SubsetSize(after, LiveLeases(m.row.value, at));
      }
    }
  }

  lemma {:induction false} LiveLeasesBounded(m: Meter, steps: seq<Step>, rate: nat, cap: nat, slots: nat)
    requires SlotsKept(m, slots) && Legal(m, steps, rate, cap)
    requires forall i :: 0 <= i < |steps| && steps[i].ReserveAt? ==> steps[i].ask.maxConcurrent <= slots
    ensures SlotsKept(Run(m, steps, rate, cap), slots)
    decreases |steps|
  {
    if steps != [] {
      StepKeepsSlots(m, steps[0], slots);
      forall i | 0 <= i < |steps[1..]| && steps[1..][i].ReserveAt? ensures steps[1..][i].ask.maxConcurrent <= slots {
        assert steps[1..][i] == steps[i + 1];
      }
      LiveLeasesBounded(Apply(m, steps[0]), steps[1..], rate, cap, slots);
    }
  }

  /** A lease that was issued and is no longer there: released, or purged after it expired. */
  predicate Gone(m: Meter, id: nat) {
    id in m.issued && (m.row.Some? ==> id !in m.row.value.leases)
  }

  lemma {:induction false} StepKeepsGone(m: Meter, s: Step, id: nat)
    requires Gone(m, id) && Enabled(m, s)
    ensures Gone(Apply(m, s), id)
  {
  }

  lemma {:induction false} RunKeepsGone(m: Meter, steps: seq<Step>, rate: nat, cap: nat, id: nat)
    requires Gone(m, id) && Legal(m, steps, rate, cap)
    ensures Gone(Run(m, steps, rate, cap), id)
    decreases |steps|
  {
    if steps != [] {
      StepKeepsGone(m, steps[0], id);
      RunKeepsGone(Apply(m, steps[0]), steps[1..], rate, cap, id);
    }
  }

  /** A lease changes the bucket at most once: after its release, and after any further run of requests, releases and
      ended claims, releasing it again changes neither the row nor the charge, whatever it reports. */
  lemma {:induction false} LeaseReconcilesOnce(
      m: Meter, first: Step, steps: seq<Step>, rate: nat, cap: nat, again: Step)
    requires first.ReleaseAt? && Enabled(m, first) && Legal(Apply(m, first), steps, rate, cap)
    requires again.ReleaseAt? && again.h == first.h
    ensures var e := Run(Apply(m, first), steps, rate, cap);
            Apply(e, again).row == e.row && Apply(e, again).charged == e.charged
  {
    RunKeepsGone(Apply(m, first), steps, rate, cap, first.h.id);
  }

  // ----- the retry hint -----

  lemma {:induction false} CeilIsAbove(x: real)
    ensures x <= Ceil(x) as real < x + 1.0
  {
  }

  lemma {:induction false} RefillCovers(rate: nat, need: real, seconds: real)
    requires rate >= 1 && need / rate as real * 60.0 <= seconds
    ensures Refill(rate, seconds) >= need
  {
    var q := need / rate as real;
    assert q * rate as real == need;
    assert rate as real * (q * 60.0) <= rate as real * seconds;
    assert rate as real * (q * 60.0) == need * 60.0;
  }

  /** Waiting out RefillWait refills both budgets as far as the caps allow. */
  lemma {:induction false} WaitCovers(b: Row, ask: Ask, need: nat, at: real, at': real)
    requires ValidRow(b) && ask.Valid() && b.tokenRate == ask.tokenRate && b.requestRate == ask.requestRate
    requires at' >= at + RefillWait(b, ask, need, at)
    ensures AvailableRequests(b, at') >= 1.0
    ensures AvailableTokens(b, ask, at') >= MinR(need as real, ask.Cap() as real)
  {
    var d, e, e' := RefillDelay(b, at), Elapsed(b, at), Elapsed(b, at');
    var wait := RefillWait(b, ask, need, at) - d;
    assert e' >= e + wait;
    RefillAdds(b.tokenRate, e, wait);
    RefillAdds(b.requestRate, e, wait);
    RefillMonotone(b.tokenRate, b.tokenRate, e + wait, e');
    RefillMonotone(b.requestRate, b.requestRate, e + wait, e');
    RefillCovers(b.tokenRate, need as real - AvailableTokens(b, ask, at), wait);
    RefillCovers(b.requestRate, 1.0 - AvailableRequests(b, at), wait);
    RefillMonotone(b.tokenRate, b.tokenRate, 0.0, wait);
    RefillMonotone(b.requestRate, b.requestRate, 0.0, wait);
  }

  /** A denial leaves the tokens and requests of the bucket as they were. */
  lemma {:induction false} DenialLeavesBudget(
      row: Option<Row>, ask: Ask, id: nat, t: Clock, active: set<string>, t': Clock)
    requires ask.Valid() && Reserve(row, ask, id, t, active).1.Denied?
    ensures var b, b' := Snapshot(row, ask, t), Snapshot(Some(Reserve(row, ask, id, t, active).0), ask, t');
            && AvailableTokens(b', ask, t'.at) == AvailableTokens(b, ask, t'.at)
            && AvailableRequests(b', t'.at) == AvailableRequests(b, t'.at)
  {
    var b, b' := Snapshot(row, ask, t), Snapshot(Some(Reserve(row, ask, id, t, active).0), ask, t');
    assert b'.tokens == b.tokens && b'.requests == b.requests && b'.lastRefill == b.lastRefill;
    assert b'.tokenRate == b.tokenRate && b'.requestRate == b.requestRate;
  }

  /** Whoever waits out the hint finds what it asked for and what it owed then, as far as its cap allows. */
  lemma {:induction false} HintCovers(
      row: Option<Row>, ask: Ask, id: nat, t: Clock, active: set<string>, at': real)
    requires ask.Valid()
    requires var out := Reserve(row, ask, id, t, active).1;
             out.Denied? && out.retryAfterMs.Some? && at' >= t.at + out.retryAfterMs.value as real / 1000.0
    ensures var b := Snapshot(row, ask, t);
            && AvailableRequests(b, at') >= 1.0
            && MinR((ask.reserve + Owed(b, ask, t.at, active)) as real, ask.Cap() as real)
               <= AvailableTokens(b, ask, at') <= ask.Cap() as real
  {
    var b := Snapshot(row, ask, t);
    var need := ask.reserve + Owed(b, ask, t.at, active);
    CeilIsAbove(RefillWait(b, ask, need, t.at) * 1000.0);
    WaitCovers(b, ask, need, t.at, at');
  }

  /** HINT: a denied requester that returns no earlier than its hint, nothing having happened in between and no
      more being owed than before, has its request budget; and it has its token budget exactly when its
      reserve and what it still owes fit under its cap together, so always when it owes nothing. */
  lemma {:induction false} HintIsSound(
      row: Option<Row>, ask: Ask, id: nat, t: Clock, active: set<string>, t': Clock, active': set<string>)
    requires ask.Valid() && t.Ordered() && t'.Ordered()
    requires var out := Reserve(row, ask, id, t, active).1;
             out.Denied? && out.retryAfterMs.Some? && t'.at >= t.at + out.retryAfterMs.value as real / 1000.0
    requires var after := Some(Reserve(row, ask, id, t, active).0);
             Owed(Snapshot(after, ask, t'), ask, t'.at, active') <= Owed(Snapshot(row, ask, t), ask, t.at, active)
    ensures var b' := Snapshot(Some(Reserve(row, ask, id, t, active).0), ask, t');
            var owed := Owed(b', ask, t'.at, active');
            && !Deny(b', ask, t'.at, active').requestBudget
            && (Deny(b', ask, t'.at, active').tokenBudget <==> ask.reserve + owed > ask.Cap())
            && (owed == 0 ==> !Deny(b', ask, t'.at, active').tokenBudget)
  {
    HintCovers(row, ask, id, t, active, t'.at);
    DenialLeavesBudget(row, ask, id, t, active, t');
  }

  // An owner bucket refilled at one token a second in which agent 1 is owed 100, and agent 2 may hold 60.
  const OWED_CLAIM := Claim("agent:1", 100, 0.0, 135.0)
  const OWING_ASK := Ask(60, 60, Some(60), 1, 50, 900, Some(Waiter("agent:2", 135)))
  const OWING_ROW := Row(59.0, 20.0, 60, 60, 1, 0.0, None, Some(OWED_CLAIM), map[])

  lemma {:induction false} OwedAt(at: real)
    requires 0.0 <= at < 135.0
    ensures Owed(OWING_ROW, OWING_ASK, at, {"agent:1", "agent:2"}) == 100
    ensures Snapshot(Some(OWING_ROW), OWING_ASK, At(at)) == OWING_ROW
    ensures AvailableTokens(OWING_ROW, OWING_ASK, at) == MinR(60.0, 20.0 + at)
  {
    assert Snapshot(Some(OWING_ROW), OWING_ASK, At(at)).leases == map[];
  }

  /** When they do not fit, the hint falls short: agent 2, denied at instant 0 and told to return after 130 seconds,
      finds its 60 tokens, still owes 100, and is denied for tokens again. */
  lemma {:induction false} HintFallsShort()
    ensures var agents := {"agent:1", "agent:2"};
            var (row, out) := Reserve(Some(OWING_ROW), OWING_ASK, 0, At(0.0), agents);
            && out.Denied? && out.retryAfterMs.Some? && out.retryAfterMs.value as real / 1000.0 <= 130.001
            && row == OWING_ROW
            && Deny(Snapshot(Some(row), OWING_ASK, At(130.001)), OWING_ASK, 130.001, agents).tokenBudget
  {
    OwedAt(0.0);
    OwedAt(130.001);
    assert LiveLeases(OWING_ROW, 0.0) == {};
    assert AvailableRequests(OWING_ROW, 0.0) == 59.0;
    assert RefillWait(OWING_ROW, OWING_ASK, 150, 0.0) == 130.0;
  }
}
