/** The guard of admitted bench comparisons (benchGuard.ts): a run-level cap on provider calls that rests on the
router's own attempt bound. */
module BenchGuard {
  import opened Common
  import opened R = Route

  const BENCH_MAX_CALLS: nat := 40

  datatype Reason =
    | CallCapReached | WindowEnded | ProviderCapacity | RouteCooldown | OwnerDenials | ExceededByFallback | Operator

  /** Checked options: the cap covers at least one decision. */
  datatype Options = Options(maxCalls: nat, minIntervalMs: real, maxOwnerDenialStreak: nat, perDecision: nat,
      deadline: Option<real>)
  {
    predicate Valid() {
      1 <= perDecision <= maxCalls <= BENCH_MAX_CALLS && minIntervalMs >= 0.0
    }
  }

  datatype State = State(
    providerCalls: nat, decisions: nat, ownerDenialStreak: nat, aborted: Option<Reason>, lastDecisionAt: Option<real>)

  const Fresh := State(0, 0, 0, None, None)

  /** A routed result, as far as the guard reads it. */
  datatype Routed = Routed(ok: bool, ownerBudgetError: bool, attempts: seq<Attempt>)

  predicate StopsRun(a: Attempt) {
    || (a.outcome != Deferred && a.failure == Some(Capacity))
    || ModelCooldown in a.reasons || SharedKeyCooldown in a.reasons
  }

  /** The first attempt that must stop the run decides why. */
  method AbortReasonOf(attempts: seq<Attempt>) returns (r: Option<Reason>)
    ensures r == AbortReason(attempts)
  {
    var i := 0;
    assert attempts[0..] == attempts;
    while i < |attempts|
      invariant 0 <= i <= |attempts|
      invariant AbortReason(attempts) == AbortReason(attempts[i..])
    {
      assert attempts[i..][0] == attempts[i] && attempts[i..][1..] == attempts[i + 1..];
      var a := attempts[i];
      if a.outcome != Deferred && a.failure == Some(Capacity) { return Some(ProviderCapacity); }
      if ModelCooldown in a.reasons || SharedKeyCooldown in a.reasons { return Some(RouteCooldown); }
      i := i + 1;
    }
    return None;
  }

  function AbortReason(attempts: seq<Attempt>): Option<Reason> {
    if attempts == [] then None
    else if attempts[0].outcome != Deferred && attempts[0].failure == Some(Capacity) then Some(ProviderCapacity)
    else if ModelCooldown in attempts[0].reasons || SharedKeyCooldown in attempts[0].reasons then Some(RouteCooldown)
    else AbortReason(attempts[1..])
  }

  lemma {:induction false} RunStopsExactly(attempts: seq<Attempt>)
    ensures AbortReason(attempts).Some? <==> exists i :: 0 <= i < |attempts| && StopsRun(attempts[i])
  {
    if attempts != [] {
      RunStopsExactly(attempts[1..]);
      if StopsRun(attempts[0]) {
      } else if AbortReason(attempts).Some? {
        var i :| 0 <= i < |attempts[1..]| && StopsRun(attempts[1..][i]);
        assert attempts[i + 1] == attempts[1..][i];
      } else {
        forall i | 0 <= i < |attempts| ensures !StopsRun(attempts[i]) {
          if i > 0 {
            assert attempts[i] == attempts[1..][i - 1];
          }
        }
      }
    }
  }

  // ----- one decision: before, at and after the inner call -----

  function Or(aborted: Option<Reason>, reason: Reason): Option<Reason> {
    if aborted.Some? then aborted else Some(reason)
  }

  predicate Past(o: Options, now: real) {
    o.deadline.Some? && now >= o.deadline.value
  }

  /** mayDispatch. */
  function Gate(o: Options, s: State, now: real): State {
    if s.aborted.None? && Past(o, now) then s.(aborted := Some(WindowEnded)) else s
  }

  function StartAt(o: Options, s: State, now: real): real {
    match s.lastDecisionAt
    case None => now
    case Some(t) => MaxR(now, t + o.minIntervalMs)
  }

  /** Up to the spacing wait: the worst case of a whole decision must fit under the cap. */
  function Begin(o: Options, s: State, now: real): State {
    if s.aborted.Some? then s
    else if s.providerCalls + o.perDecision > o.maxCalls then s.(aborted := Some(CallCapReached))
    else if Past(o, StartAt(o, s, now)) then s.(aborted := Some(WindowEnded))
    else s
  }

  /** After the wait: the gate again, then the decision starts. */
  function Wake(o: Options, s: State, now: real): State {
    var g := Gate(o, s, now);
    if g.aborted.Some? then g else g.(lastDecisionAt := Some(now), decisions := g.decisions + 1)
  }

  function Account(o: Options, s: State, r: Routed): State {
    var calls := s.providerCalls + ProviderCalls(r.attempts);
    var abort := AbortReason(r.attempts);
    var aborted := if abort.Some? then abort else s.aborted;
    var denied := !r.ok && r.ownerBudgetError;
    var streak := if denied then s.ownerDenialStreak + 1 else if r.ok then 0 else s.ownerDenialStreak;
    var aborted' := if denied && streak >= o.maxOwnerDenialStreak then Or(aborted, OwnerDenials) else aborted;
    var aborted'' := if calls > o.maxCalls then Or(aborted', ExceededByFallback) else aborted';
    State(calls, s.decisions, streak, aborted'', s.lastDecisionAt)
  }

  class Guard {
    const options: Options
    var state: State

    constructor (options: Options)
      ensures this.options == options && state == Fresh
    {
      this.options := options;
      state := Fresh;
    }

    /** A signal or the operator; an earlier reason stays. */
    method Abort()
      modifies this
      ensures state == old(state).(aborted := Or(old(state).aborted, Operator))
    {
      if state.aborted.None? { state := state.(aborted := Some(Operator)); }
    }

    method MayDispatch(now: real) returns (may: bool)
      modifies this
      ensures state == Gate(options, old(state), now) && may == state.aborted.None?
    {
      if state.aborted.Some? { return false; }
      if options.deadline.Some? && now >= options.deadline.value {
        state := state.(aborted := Some(WindowEnded));
        return false;
      }
      return true;
    }

    method BeginDecision(now: real) returns (go: bool)
      modifies this
      ensures state == Begin(options, old(state), now) && go == state.aborted.None?
    {
      if state.aborted.Some? { return false; }
      if state.providerCalls + options.perDecision > options.maxCalls {
        state := state.(aborted := Some(CallCapReached));
        return false;
      }
      var startAt :=
          if state.lastDecisionAt.None? then now else MaxR(now, state.lastDecisionAt.value + options.minIntervalMs);
      if options.deadline.Some? && startAt >= options.deadline.value {
        state := state.(aborted := Some(WindowEnded));
        return false;
      }
      return true;
    }

    method WakeDecision(now: real) returns (go: bool)
      modifies this
      ensures state == Wake(options, old(state), now) && go == state.aborted.None?
    {
      go := MayDispatch(now);
      if go { state := state.(lastDecisionAt := Some(now), decisions := state.decisions + 1); }
    }

    method AccountDecision(r: Routed)
      modifies this
      ensures state == Account(options, old(state), r)
    {
      state := state.(providerCalls := state.providerCalls + ProviderCalls(r.attempts));
      var abort := AbortReasonOf(r.attempts);
      if abort.Some? { state := state.(aborted := abort); }
      if !r.ok && r.ownerBudgetError {
        state := state.(ownerDenialStreak := state.ownerDenialStreak + 1);
        if state.ownerDenialStreak >= options.maxOwnerDenialStreak {
          state := state.(aborted := Or(state.aborted, OwnerDenials));
        }
      } else if r.ok {
        state := state.(ownerDenialStreak := 0);
      }
      if state.providerCalls > options.maxCalls {
        state := state.(aborted := Or(state.aborted, ExceededByFallback));
      }
    }
  }

  // ----- whole runs: decisions are queued, aborts and gate checks come at any time -----

  datatype Phase = Idle | Spacing(until: real) | Deciding

  /** `made` counts the requests that reached a provider, `lost` those of decisions that threw. */
  datatype Run = Run(state: State, phase: Phase, made: nat, lost: nat)

  datatype Step =
    | SubmitStep(now: real)
    | WakeStep(now: real)
    | ReturnStep(result: Routed)
    | ThrowStep(calls: nat)
    | AbortStep
    | GateStep(now: real)

  /** The queue starts a decision only when none is running, a sleep lasts at least as asked, and the router
      makes at most `perDecision` requests in one decision. */
  predicate Enabled(o: Options, x: Run, s: Step) {
    match s
    case SubmitStep(_) => x.phase == Idle
    case WakeStep(now) => x.phase.Spacing? && now >= x.phase.until
    case ReturnStep(r) => x.phase == Deciding && ProviderCalls(r.attempts) <= o.perDecision
    case ThrowStep(calls) => x.phase == Deciding && calls <= o.perDecision
    case _ => true
  }

  function Apply(o: Options, x: Run, s: Step): Run {
    match s
    case SubmitStep(now) =>
      var b := Begin(o, x.state, now);
      x.(state := b, phase := if b.aborted.Some? then Idle else Spacing(StartAt(o, x.state, now)))
    case WakeStep(now) =>
      var w := Wake(o, x.state, now);
      x.(state := w, phase := if w.aborted.Some? then Idle else Deciding)
    case ReturnStep(r) =>
      Run(Account(o, x.state, r), Idle, x.made + ProviderCalls(r.attempts), x.lost)
    case ThrowStep(calls) => x.(phase := Idle, made := x.made + calls, lost := x.lost + calls)
    case AbortStep => x.(state := x.state.(aborted := Or(x.state.aborted, Operator)))
    case GateStep(now) => x.(state := Gate(o, x.state, now))
  }

  predicate Legal(o: Options, x: Run, steps: seq<Step>)
    decreases |steps|
  {
    steps == [] || (Enabled(o, x, steps[0]) && Legal(o, Apply(o, x, steps[0]), steps[1..]))
  }

  function After(o: Options, x: Run, steps: seq<Step>): Run
    decreases |steps|
  {
    if steps == [] then x else After(o, Apply(o, x, steps[0]), steps[1..])
  }

  const Initial := Run(Fresh, Idle, 0, 0)

  /** A decision in progress left room for its own worst case when it began. */
  predicate Inv(o: Options, x: Run) {
    && o.Valid()
    && x.made == x.state.providerCalls + x.lost
    && x.state.providerCalls <= o.maxCalls
    && (x.phase != Idle ==> x.state.providerCalls + o.perDecision <= o.maxCalls)
    && x.state.aborted != Some(ExceededByFallback)
    && (x.phase.Spacing? && x.state.lastDecisionAt.Some? ==>
       x.phase.until >= x.state.lastDecisionAt.value + o.minIntervalMs)
  }

  lemma {:induction false} StepKeeps(o: Options, x: Run, s: Step)
    requires Inv(o, x) && Enabled(o, x, s)
    ensures Inv(o, Apply(o, x, s))
    ensures x.state.aborted.Some? ==>
              Apply(o, x, s).state.aborted.Some? && Apply(o, x, s).state.decisions == x.state.decisions
    ensures Apply(o, x, s).state.decisions != x.state.decisions ==>
              && s.WakeStep? && !Past(o, s.now) && Apply(o, x, s).state.lastDecisionAt == Some(s.now)
              && (x.state.lastDecisionAt.Some? ==> s.now >= x.state.lastDecisionAt.value + o.minIntervalMs)
  {
    if s.ReturnStep? {
      AbortIsNotExceeded(s.result.attempts);
    }
  }

  lemma {:induction false} AbortIsNotExceeded(attempts: seq<Attempt>)
    ensures AbortReason(attempts) in {None, Some(ProviderCapacity), Some(RouteCooldown)}
  {
    if attempts != [] {
      AbortIsNotExceeded(attempts[1..]);
    }
  }

  lemma {:induction false} RunKeeps(o: Options, x: Run, steps: seq<Step>)
    requires Inv(o, x) && Legal(o, x, steps)
    ensures Inv(o, After(o, x, steps))
    ensures x.state.aborted.Some? ==>
              After(o, x, steps).state.aborted.Some? && After(o, x, steps).state.decisions == x.state.decisions
    decreases |steps|
  {
    if steps != [] {
      StepKeeps(o, x, steps[0]);
      RunKeeps(o, Apply(o, x, steps[0]), steps[1..]);
    }
  }

  /** CALL CAP: whatever is submitted, aborted or checked, and in whatever order, the counted provider calls never
      exceed the cap and the branch that reports an excess is never taken. The calls really made are the counted
      ones plus those of decisions that threw, so they obey the cap whenever every decision returns. */
  lemma {:induction false} CallsStayUnderCap(o: Options, steps: seq<Step>)
    requires o.Valid() && Legal(o, Initial, steps)
    ensures var x := After(o, Initial, steps);
            && x.state.providerCalls <= o.maxCalls
            && x.made == x.state.providerCalls + x.lost
            && (x.lost == 0 ==> x.made <= o.maxCalls)
            && x.state.aborted != Some(ExceededByFallback)
  {
    RunKeeps(o, Initial, steps);
  }

  /** After any abort no further inner decision starts. */
  lemma {:induction false} AbortIsFinal(o: Options, steps: seq<Step>, later: seq<Step>)
    requires o.Valid() && Legal(o, Initial, steps)
    requires var x := After(o, Initial, steps); x.state.aborted.Some? && Legal(o, x, later)
    ensures After(o, After(o, Initial, steps), later).state.decisions == After(o, Initial, steps).state.decisions
  {
    RunKeeps(o, Initial, steps);
    RunKeeps(o, After(o, Initial, steps), later);
  }

  // ----- why a decision that throws is left out -----

  const ROUTE := R.Route.Route(Nvidia, NemotronSuper, None, "key")

  /** A decision that made n requests, all answered. */
  function Answered(n: nat): (attempts: seq<Attempt>)
    ensures |attempts| == n && forall i :: 0 <= i < n ==> attempts[i] == Attempt(ROUTE, Success, None, [])
  {
    if n == 0 then [] else Answered(n - 1) + [Attempt(ROUTE, Success, None, [])]
  }

  lemma {:induction false} AnsweredCounts(n: nat)
    ensures ProviderCalls(Answered(n)) == n && AbortReason(Answered(n)).None?
  {
    RunStopsExactly(Answered(n));
    AnsweredCalls(n);
  }

  lemma {:induction false} AnsweredCalls(n: nat)
    ensures ProviderCalls(Answered(n)) == n
  {
    if n > 0 {
      AnsweredCalls(n - 1);
      assert Answered(n)[..n - 1] == Answered(n - 1);
    }
  }

  const TWO_CALLS := Options(2, 0.0, 3, 2, None)
  const ASKED := Run(Fresh, Spacing(0.0), 0, 0)
  const ASKING := Run(State(0, 1, 0, None, Some(0.0)), Deciding, 0, 0)
  const THREW := Run(State(0, 1, 0, None, Some(0.0)), Idle, 2, 2)
  const ASKED_AGAIN := Run(State(0, 1, 0, None, Some(0.0)), Spacing(1.0), 2, 2)
  const ASKING_AGAIN := Run(State(0, 2, 0, None, Some(1.0)), Deciding, 2, 2)
  const ANSWERED := Run(State(2, 2, 0, None, Some(1.0)), Idle, 4, 2)

  ghost predicate Steps(o: Options, x: Run, y: Run) {
    exists s :: Goes(o, x, s, y)
  }

  predicate Goes(o: Options, x: Run, s: Step, y: Run) {
    Enabled(o, x, s) && Apply(o, x, s) == y
  }

  lemma {:induction false} AnswerOfTwo()
    ensures Steps(TWO_CALLS, ASKING_AGAIN, ANSWERED)
  {
    AnsweredCounts(2);
    assert Goes(TWO_CALLS, ASKING_AGAIN, ReturnStep(Routed(true, false, Answered(2))), ANSWERED);
  }

  /** Decisions that throw after reaching a provider are not counted: with a cap of 2, two decisions of which the
      first throws make 4 calls. */
  lemma {:induction false} ThrownCallsEscapeTheCap()
    ensures TWO_CALLS.Valid() && ANSWERED.made > TWO_CALLS.maxCalls
    ensures Steps(TWO_CALLS, Initial, ASKED) && Steps(TWO_CALLS, ASKED, ASKING) && Steps(TWO_CALLS, ASKING, THREW)
    ensures Steps(TWO_CALLS, THREW, ASKED_AGAIN) && Steps(TWO_CALLS, ASKED_AGAIN, ASKING_AGAIN)
    ensures Steps(TWO_CALLS, ASKING_AGAIN, ANSWERED)
  {
    assert Goes(TWO_CALLS, Initial, SubmitStep(0.0), ASKED);
    assert Goes(TWO_CALLS, ASKED, WakeStep(0.0), ASKING);
    assert Goes(TWO_CALLS, ASKING, ThrowStep(2), THREW);
    assert Goes(TWO_CALLS, THREW, SubmitStep(1.0), ASKED_AGAIN);
    assert Goes(TWO_CALLS, ASKED_AGAIN, WakeStep(1.0), ASKING_AGAIN);
    AnswerOfTwo();
  }

  // ----- exactly when the cap covers the calls really made -----

  /** No decision throws after it has reached a provider. */
  predicate Lossless(steps: seq<Step>) {
    forall i :: 0 <= i < |steps| && steps[i].ThrowStep? ==> steps[i].calls == 0
  }

  ghost predicate CapHolds(o: Options, x: Run) {
    forall steps {:trigger Legal(o, x, steps)} ::
      Legal(o, x, steps) && Lossless(steps) ==> After(o, x, steps).made <= o.maxCalls
  }

  lemma {:induction false} LosslessKeepsLost(o: Options, x: Run, steps: seq<Step>)
    requires Legal(o, x, steps) && Lossless(steps)
    ensures After(o, x, steps).lost == x.lost
    decreases |steps|
  {
    if steps != [] {
      assert steps[0].ThrowStep? ==> steps[0].calls == 0;
      forall i | 0 <= i < |steps[1..]| && steps[1..][i].ThrowStep? ensures steps[1..][i].calls == 0 {
        assert steps[1..][i] == steps[i + 1];
      }
      LosslessKeepsLost(o, Apply(o, x, steps[0]), steps[1..]);
    }
  }

  /** Ready for a further decision, with no deadline ahead. */
  predicate Ready(o: Options, x: Run) {
    && Inv(o, x) && x.phase == Idle && x.state.aborted.None? && o.deadline.None?
    && x.state.providerCalls + o.perDecision <= o.maxCalls
  }

  /** One whole decision of n answered requests. */
  lemma {:induction false} OneDecision(o: Options, x: Run, n: nat) returns (steps: seq<Step>, y: Run)
    requires Ready(o, x) && n <= o.perDecision
    ensures Legal(o, x, steps) && Lossless(steps) && After(o, x, steps) == y
    ensures Inv(o, y) && y.phase == Idle && y.state.aborted.None?
    ensures y.state.providerCalls == x.state.providerCalls + n && y.made == x.made + n && y.lost == x.lost
  {
    var start := StartAt(o, x.state, 0.0);
    var a, b, c := SubmitStep(0.0), WakeStep(start), ReturnStep(Routed(true, false, Answered(n)));
    AnsweredCounts(n);
    var x1 := Apply(o, x, a);
    var x2 := Apply(o, x1, b);
    y := Apply(o, x2, c);
    steps := [a, b, c];
    assert steps[1..] == [b, c] && [b, c][1..] == [c] && [c][1..] == [];
    assert Legal(o, y, []) && After(o, y, []) == y;
    assert Legal(o, x2, [c]) && After(o, x2, [c]) == y;
    assert Legal(o, x1, [b, c]) && After(o, x1, [b, c]) == y;
    RunKeeps(o, x, steps);
  }

  lemma {:induction false} LegalConcat(o: Options, x: Run, a: seq<Step>, b: seq<Step>)
    requires Legal(o, x, a) && Legal(o, After(o, x, a), b)
    ensures Legal(o, x, a + b) && After(o, x, a + b) == After(o, After(o, x, a), b)
    decreases |a|
  {
    if a == [] {
      assert a + b == b;
    } else {
      assert (a + b)[0] == a[0] && (a + b)[1..] == a[1..] + b;
      LegalConcat(o, Apply(o, x, a[0]), a[1..], b);
    }
  }

  /** Decisions of one call each until the last one admitted takes the counted calls to the cap. */
  lemma {:induction false} FillToCap(o: Options, x: Run) returns (steps: seq<Step>)
    requires Ready(o, x)
    ensures Legal(o, x, steps) && Lossless(steps) && After(o, x, steps).made == o.maxCalls + x.lost
    decreases o.maxCalls - x.state.providerCalls
  {
    if x.state.providerCalls + o.perDecision == o.maxCalls {
      var y;
      steps, y := OneDecision(o, x, o.perDecision);
    } else {
      var first, y := OneDecision(o, x, 1);
      var rest := FillToCap(o, y);
      LegalConcat(o, x, first, rest);
      steps := first + rest;
    }
  }

  /** While a decision is still admitted and no deadline cuts the run short, the calls really made stay under the cap
      in every continuation, with no further loss, if and only if none has been lost. */
  lemma {:induction false} CapHoldsExactly(o: Options, x: Run)
    requires Ready(o, x)
    ensures CapHolds(o, x) <==> x.lost == 0
  {
    if x.lost == 0 {
      forall steps | Legal(o, x, steps) && Lossless(steps) ensures After(o, x, steps).made <= o.maxCalls {
        RunKeeps(o, x, steps);
        LosslessKeepsLost(o, x, steps);
      }
    } else {
      var steps := FillToCap(o, x);
      assert Legal(o, x, steps) && Lossless(steps);
    }
  }
}
