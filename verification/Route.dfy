/** The routed decision (route.ts): at most two audited attempts over a candidate list that may grow while it
is walked, with hooks that answer anything and may throw at any time. */
module Route {
  import opened Common

  // Names are data; only those a rule depends on are told apart.
  datatype Provider = Nvidia | OpenAi | OtherProvider(name: string)

  datatype Model = NemotronNano | NemotronSuper | NemotronSuper35 | NemotronLightning | OpenAiBackup
      | OtherModel(name: string)

  datatype BaseUrl = NvidiaUrl | OtherUrl(url: string)

  /** `keyRef` is an opaque capacity and credential pool id. */
  datatype Route = Route(provider: Provider, model: Model, baseUrl: Option<BaseUrl>, keyRef: string)

  // routeKey joins the four parts with NUL; a pair of routes shares a key when they share all four.
  type RouteKey = Route

  function KeyOf(r: Route): RouteKey {
    r
  }

  datatype AdmissionReason = RequestBudget | TokenBudget | Concurrency | SharedKeyCooldown | ModelCooldown

  datatype Scope = KeyScope | RouteScope | OwnerScope

  datatype Acquired =
    | Grant
    | Refusal(scope: Option<Scope>, retryAfterMs: Option<real>, reasons: seq<AdmissionReason>, claimedByOther: bool)

  datatype Availability = Eligible | Ineligible

  datatype Usage = Usage(prompt: nat, completion: nat)

  datatype FailureClass = Capacity | Permanent | Transient | Malformed

  /** A provider's answer. `parses` is the decision parser's verdict, and `toolString` that the answer was a
      tool call whose actions came as a string. A thrown call is a failure without a status. */
  datatype Reply =
    | Text(parses: bool, toolString: bool, usage: Option<Usage>)
    | Failure(malformed: bool, status: Option<int>, exhausted: bool, deferred: bool, usage: Option<Usage>)

  function ClassifyFailure(f: Reply): FailureClass
    requires f.Failure?
  {
    if f.malformed then Malformed
    else if f.status == Some(429) || (f.status == Some(503) && f.exhausted) then Capacity
    else if f.status == Some(404) || f.status == Some(410) then Permanent
    else Transient
  }

  datatype AttemptOutcome = Success | Failed | Deferred

  /** `reasons` are the local admission reasons of a deferral. */
  datatype Attempt = Attempt(route: Route, outcome: AttemptOutcome, failure: Option<FailureClass>,
      reasons: seq<AdmissionReason>)

  datatype Candidate = Candidate(route: Route, jsonContent: bool)

  datatype Decision = Decision(ok: bool, deferred: bool, usage: Option<Usage>, attempts: seq<Attempt>)

  datatype Thrown = Thrown

  const MAX_ROUTE_ATTEMPTS: nat := 2
  const MAX_OWNER_REFILL_WAIT_MS := 120_000.0
  const MAX_RECOVERY_REFILL_WAIT_MS := 60_000.0
  const MAX_CONCURRENT_OWNER_WAITS: nat := 2
  const MIN_RECOVERY_RESPONSE_MS := 30_000.0

  /** canRetrySuperToolOutput. */
  predicate CanRetryToolOutput(r: Route, toolString: bool) {
    && r.provider == Nvidia && (r.model == NemotronSuper || r.model == NemotronSuper35)
    && (r.baseUrl.None? || r.baseUrl == Some(NvidiaUrl)) && toolString
  }

  // ----- what the outside sees -----

  /** Capacity grants, provider requests and capacity releases, in order. */
  datatype Event =
    | Granted(route: Route)
    | Called(route: Route, usage: Option<Usage>)
    | Released(route: Route, unused: bool)

  datatype Phase = Free | Holding(route: Route) | Spent(route: Route) | Broken

  /** A grant is answered by one request and a release, or by an unused release. */
  function Next(p: Phase, e: Event): Phase {
    match (p, e)
    case (Free, Granted(r)) => Holding(r)
    case (Holding(h), Called(r, _)) => if r == h then Spent(h) else Broken
    case (Holding(h), Released(r, unused)) => if r == h && unused then Free else Broken
    case (Spent(h), Released(r, unused)) => if r == h && !unused then Free else Broken
    case _ => Broken
  }

  function PhaseOf(trace: seq<Event>): Phase {
    if trace == [] then Free else Next(PhaseOf(trace[..|trace| - 1]), trace[|trace| - 1])
  }

  function Calls(trace: seq<Event>): nat {
    if trace == [] then 0 else Calls(trace[..|trace| - 1]) + if trace[|trace| - 1].Called? then 1 else 0
  }

  function AddUsage(a: Option<Usage>, b: Option<Usage>): Option<Usage> {
    match (a, b)
    case (_, None) => a
    case (None, Some(_)) => b
    case (Some(u), Some(v)) => Some(Usage(u.prompt + v.prompt, u.completion + v.completion))
  }

  function Reported(trace: seq<Event>): Option<Usage> {
    if trace == [] then None
    else
      var last := trace[|trace| - 1];
      AddUsage(Reported(trace[..|trace| - 1]), if last.Called? then last.usage else None)
  }

  lemma {:induction false} Append(trace: seq<Event>, e: Event)
    ensures PhaseOf(trace + [e]) == Next(PhaseOf(trace), e)
    ensures Calls(trace + [e]) == Calls(trace) + if e.Called? then 1 else 0
    ensures Reported(trace + [e]) == AddUsage(Reported(trace), if e.Called? then e.usage else None)
  {
    assert (trace + [e])[..|trace|] == trace;
  }

  lemma {:induction false} PrefixNotBroken(trace: seq<Event>, n: nat)
    requires PhaseOf(trace) != Broken && n <= |trace|
    ensures PhaseOf(trace[..n]) != Broken
    decreases |trace|
  {
    if n < |trace| {
      PrefixNotBroken(trace[..|trace| - 1], n);
      assert trace[..|trace| - 1][..n] == trace[..n];
    } else {
      assert trace[..n] == trace;
    }
  }

  lemma {:induction false} PhaseStep(trace: seq<Event>, n: nat)
    requires n < |trace|
    ensures PhaseOf(trace[..n + 1]) == Next(PhaseOf(trace[..n]), trace[n])
  {
    assert trace[..n + 1] == trace[..n] + [trace[n]];
    Append(trace[..n], trace[n]);
  }

  /** What the discipline means: when nothing is held at the end, every grant is followed at once either by its
      unused release, or by one request on its route and then its release, and nothing else is in the trace. */
  lemma {:induction false} DisciplineMeans(trace: seq<Event>, i: nat)
    requires PhaseOf(trace) == Free && i < |trace|
    ensures trace[i].Granted? ==>
              i + 1 < |trace| && trace[i + 1].route == trace[i].route
              && (trace[i + 1] == Released(trace[i].route, true)
                  || (trace[i + 1].Called? && i + 2 < |trace| && trace[i + 2] == Released(trace[i].route, false)))
    ensures trace[i].Called? ==> i > 0 && trace[i - 1] == Granted(trace[i].route)
    ensures trace[i].Released? ==>
              i > 0 && trace[i - 1].route == trace[i].route
              && (if trace[i].unused then trace[i - 1].Granted? else trace[i - 1].Called?)
  {
    PrefixNotBroken(trace, i + 1);
    PrefixNotBroken(trace, i);
    PhaseStep(trace, i);
    assert trace[..|trace|] == trace;
    if i > 0 {
      PhaseStep(trace, i - 1);
      PrefixNotBroken(trace, i - 1);
    }
    if i + 1 < |trace| {
      PhaseStep(trace, i + 1);
      PrefixNotBroken(trace, i + 2);
      if i + 2 < |trace| {
        PhaseStep(trace, i + 2);
        PrefixNotBroken(trace, i + 3);
      } else {
        assert trace[..i + 2] == trace;
      }
    } else {
      assert trace[..i + 1] == trace;
    }
  }

  // ----- hooks: any answer, any failure, and other cycles at every await -----

  class Hooks {
    var trace: seq<Event>
    var closed: bool   // the operator gate has answered no
    var others: nat    // owner waits of other cycles of this process
    var mine: nat      // and of this one

    /** ownerWaitsInFlight, a counter every cycle of the process shares. */
    function WaitsInFlight(): nat
      reads this
    {
      others + mine
    }

    predicate Valid()
      reads this
    {
      WaitsInFlight() <= MAX_CONCURRENT_OWNER_WAITS
    }

    constructor (others: nat)
      requires others <= MAX_CONCURRENT_OWNER_WAITS
      ensures Valid() && trace == [] && !closed && mine == 0 && this.others == others
    {
      trace, closed, mine := [], false, 0;
      this.others := others;
    }

    /** Other cycles run at an await; each keeps the counter within its limit as this one does. */
    method Await()
      requires Valid()
      modifies this`others
      ensures Valid()
    {
      var n: nat := *;
      if n + mine <= MAX_CONCURRENT_OWNER_WAITS {
        others := n;
      }
    }

    method Now() returns (ms: real) {
      ms := *;
    }

    method Stopped() returns (stop: bool)
      modifies this`closed
      ensures closed == (old(closed) || stop)
    {
      stop := *;
      closed := closed || stop;
    }

    method IsAvailable(r: Route) returns (a: Result<Availability, Thrown>)
      requires Valid()
      modifies this`others
      ensures Valid()
    {
      Await();
      a := *;
    }

    method Acquire(r: Route) returns (a: Result<Acquired, Thrown>)
      requires Valid() && !closed && PhaseOf(trace) == Free
      modifies this`others, this`trace
      ensures Valid()
      ensures a == Ok(Grant) ==> trace == old(trace) + [Granted(r)] && PhaseOf(trace) == Holding(r)
      ensures a != Ok(Grant) ==> trace == old(trace)
      ensures Calls(trace) == Calls(old(trace)) && Reported(trace) == Reported(old(trace))
    {
      Await();
      a := *;
      if a == Ok(Grant) {
        Append(trace, Granted(r));
        trace := trace + [Granted(r)];
      }
    }

    method Release(r: Route, unused: bool) returns (a: Result<(), Thrown>)
      requires Valid() && PhaseOf(trace) == if unused then Holding(r) else Spent(r)
      modifies this`others, this`trace
      ensures Valid()
      ensures trace == old(trace) + [Released(r, unused)] && PhaseOf(trace) == Free
      ensures Calls(trace) == Calls(old(trace)) && Reported(trace) == Reported(old(trace))
    {
      Append(trace, Released(r, unused));
      trace := trace + [Released(r, unused)];
      Await();
      a := *;
    }

    /** One provider request, with a positive time budget that leaves the response margin after a wait. */
    method Call(r: Route, timeoutMs: real, waited: bool) returns (reply: Reply)
      requires Valid() && !closed && PhaseOf(trace) == Holding(r)
      requires timeoutMs > 0.0 && (waited ==> timeoutMs >= MIN_RECOVERY_RESPONSE_MS)
      modifies this`others, this`trace
      ensures Valid()
      ensures trace == old(trace) + [Called(r, reply.usage)] && PhaseOf(trace) == Spent(r)
      ensures Calls(trace) == Calls(old(trace)) + 1 && Reported(trace) == AddUsage(Reported(old(trace)), reply.usage)
    {
      reply := *;
      Append(trace, Called(r, reply.usage));
      trace := trace + [Called(r, reply.usage)];
      Await();
    }

    method Observe(r: Route) returns (out: Result<(), Thrown>)
      requires Valid()
      modifies this`others
      ensures Valid()
    {
      Await();
      out := *;
    }

    method StillEligible(r: Route) returns (a: Result<bool, Thrown>)
      requires Valid()
      modifies this`others
      ensures Valid()
    {
      Await();
      a := *;
    }

    /** Failures are swallowed: the claim expires on its own. */
    method AbandonOwnerWait(r: Route)
      requires Valid()
      modifies this`others
      ensures Valid()
    {
      Await();
    }

    /** A first-call wait holds one of the process's wait slots. */
    method Sleep(counted: bool)
      requires Valid() && mine == 0
      requires counted ==> WaitsInFlight() < MAX_CONCURRENT_OWNER_WAITS
      modifies this`others, this`mine
      ensures Valid() && mine == 0
    {
      if counted { mine := mine + 1; }
      Await();
      if counted { mine := mine - 1; }
    }
  }

  // ----- admission, with at most one owner-refill wait -----

  /** `ended`: a recovery that may no longer dispatch ends the cycle without an attempt. */
  datatype Admission = Admission(acquired: Acquired, waited: bool, stoppedAfterWait: bool, routeChanged: bool,
      ended: bool)

  predicate OwnerBudgetDenial(a: Acquired, jsonContent: bool, first: bool) {
    && (jsonContent || first) && a.Refusal? && a.scope == Some(OwnerScope) && a.reasons != []
    && forall i :: 0 <= i < |a.reasons| ==> a.reasons[i] in {TokenBudget, RequestBudget}
  }

  /** Ask for capacity and, on an owner budget denial that a bounded wait can cure, wait and ask once more.
      A request that finds the operator gate closed after its wait comes back as the owner denial it was. */
  method Admit(h: Hooks, route: Route, jsonContent: bool, first: bool, deadline: real)
    returns (r: Result<Admission, Thrown>)
    requires h.Valid() && h.mine == 0 && !h.closed && PhaseOf(h.trace) == Free
    modifies h
    ensures h.Valid() && h.mine == 0
    ensures r.Ok? && r.value.acquired == Grant ==>
              h.trace == old(h.trace) + [Granted(route)] && PhaseOf(h.trace) == Holding(route) && !h.closed
                  && !r.value.ended
    ensures r.Err? || r.value.acquired != Grant ==> h.trace == old(h.trace)
    ensures r.Ok? && h.closed ==> r.value.acquired.Refusal? && r.value.acquired.scope == Some(OwnerScope)
    ensures Calls(h.trace) == Calls(old(h.trace)) && Reported(h.trace) == Reported(old(h.trace))
  {
    var acquired :- h.Acquire(route);
    var fairness := first && !jsonContent;
    var ceiling := if fairness then MAX_OWNER_REFILL_WAIT_MS else MAX_RECOVERY_REFILL_WAIT_MS;
    if !OwnerBudgetDenial(acquired, jsonContent, first) {
      return Ok(Admission(acquired, false, false, false, false));
    }
    // No hint, a hint over the ceiling, no time left, no turn of its own, or no wait slot: defer at once.
    var hint := acquired.retryAfterMs;
    if hint.None? || hint.value <= 0.0 || hint.value > ceiling {
      return Ok(Admission(acquired, false, false, false, false));
    }
    var now := h.Now();
    if now + hint.value + MIN_RECOVERY_RESPONSE_MS > deadline
       || (fairness && acquired.claimedByOther)
       || (fairness && h.WaitsInFlight() >= MAX_CONCURRENT_OWNER_WAITS) {
      return Ok(Admission(acquired, false, false, false, false));
    }
    h.Sleep(fairness);
    var stopped := h.Stopped();
    var usable := !stopped;
    if usable {
      now := h.Now();
      usable := now + MIN_RECOVERY_RESPONSE_MS <= deadline;
    }
    if usable {
      var availability :- h.IsAvailable(route);
      now := h.Now();
      usable := availability == Eligible && now + MIN_RECOVERY_RESPONSE_MS <= deadline;
    }
    var canDispatch := usable;
    if usable {
      canDispatch :- h.StillEligible(route);
    }
    if canDispatch {
      acquired :- h.Acquire(route);
    }
    return Ok(Admission(acquired, true, stopped, usable && !canDispatch, !canDispatch && !first));
  }

  // ----- the decision -----

  function ProviderCalls(attempts: seq<Attempt>): nat {
    if attempts == [] then 0
    else ProviderCalls(attempts[..|attempts| - 1]) + if attempts[|attempts| - 1].outcome != Deferred then 1 else 0
  }

  lemma {:induction false} AppendAttempt(attempts: seq<Attempt>, a: Attempt)
    ensures ProviderCalls(attempts + [a]) == ProviderCalls(attempts) + if a.outcome != Deferred then 1 else 0
  {
    assert (attempts + [a])[..|attempts|] == attempts;
  }

  lemma {:induction false} CallsAreAttempts(attempts: seq<Attempt>)
    ensures ProviderCalls(attempts) <= |attempts|
  {
    if attempts != [] {
      CallsAreAttempts(attempts[..|attempts| - 1]);
    }
  }

  /** Local deferrals and upstream 429s only. */
  predicate AllCapacity(attempts: seq<Attempt>) {
    forall i :: 0 <= i < |attempts| ==> attempts[i].outcome != Success && attempts[i].failure == Some(Capacity)
  }

  predicate NoSuccess(attempts: seq<Attempt>) {
    forall i :: 0 <= i < |attempts| ==> attempts[i].outcome != Success
  }

  datatype Dispatched = Unsent(stopped: bool) | Answered(reply: Reply)

  /** Under a grant: one request if time and the operator gate still allow it, and one release either way. */
  method Dispatch(h: Hooks, route: Route, waited: bool, deadline: real) returns (r: Result<Dispatched, Thrown>)
    requires h.Valid() && h.mine == 0 && !h.closed && PhaseOf(h.trace) == Holding(route)
    modifies h
    ensures h.Valid() && h.mine == 0 && PhaseOf(h.trace) == Free
    ensures r.Ok? && r.value.Answered? ==>
              !h.closed && Calls(h.trace) == Calls(old(h.trace)) + 1
              && Reported(h.trace) == AddUsage(Reported(old(h.trace)), r.value.reply.usage)
    ensures r.Ok? && r.value.Unsent? ==>
              Calls(h.trace) == Calls(old(h.trace)) && Reported(h.trace) == Reported(old(h.trace))
    ensures Calls(h.trace) <= Calls(old(h.trace)) + 1
  {
    var started := h.Now();
    var remaining := deadline - started;
    if remaining <= 0.0 || (waited && remaining < MIN_RECOVERY_RESPONSE_MS) {
      var _ :- h.Release(route, true);
      h.AbandonOwnerWait(route);
      return Ok(Unsent(false));
    }
    var stopped := h.Stopped();
    if stopped {
      var _ :- h.Release(route, true);
      h.AbandonOwnerWait(route);
      return Ok(Unsent(true));
    }
    var reply := h.Call(route, remaining, waited);
    var _ :- h.Release(route, false);
    return Ok(Answered(reply));
  }

  predicate Accepted(reply: Reply) {
    reply.Text? && reply.parses
  }

  function AttemptOf(route: Route, reply: Reply): Attempt {
    match reply
    case Text(parses, _, _) =>
      if parses then Attempt(route, Success, None, []) else Attempt(route, Failed, Some(Malformed), [])
    case Failure(_, _, _, _, _) => Attempt(route, Failed, Some(ClassifyFailure(reply)), [])
  }

  // ----- what one decision remembers -----

  lemma {:induction false} ExtendsBy(before: seq<Attempt>, a: Attempt)
    ensures Extends(before, before + [a], a.route) && Extends(before, before, a.route)
  {
    assert (before + [a])[..|before|] == before;
  }

  /** One attempt more on a route that was not blocked. */
  lemma {:induction false} AttemptKeepsOk(c: Cycle, a: Attempt, c': Cycle)
    requires c.Ok() && |c.attempts| < MAX_ROUTE_ATTEMPTS && !c.Blocks(a.route) && a.outcome != Success
    requires c'.attempts == c.attempts + [a]
    requires c.blockedKeys <= c'.blockedKeys && c.blockedRoutes <= c'.blockedRoutes
               && c.blockedProviders <= c'.blockedProviders
    requires a.failure == Some(Capacity) ==> c'.Blocks(a.route)
    requires !c'.attemptedFailure ==> !c.attemptedFailure && a.failure == Some(Capacity)
    ensures c'.Ok()
  {
    AppendKeepsNoRepeat(c.attempts, a, c);
  }

  lemma {:induction false} AppendKeepsNoRepeat(attempts: seq<Attempt>, a: Attempt, c: Cycle)
    requires NoRepeat(attempts) && !c.Blocks(a.route)
    requires forall i :: 0 <= i < |attempts| && attempts[i].failure == Some(Capacity) ==> c.Blocks(attempts[i].route)
    ensures NoRepeat(attempts + [a])
  {
  }

  /** A route that met a capacity limit is not attempted again. */
  predicate NoRepeat(attempts: seq<Attempt>) {
    forall i, j :: 0 <= i < j < |attempts| && attempts[i].failure == Some(Capacity) ==>
      KeyOf(attempts[j].route) != KeyOf(attempts[i].route)
  }

  /** At most one attempt more, on `r`. */
  predicate Extends(before: seq<Attempt>, after: seq<Attempt>, r: Route) {
    before == after || (|after| == |before| + 1 && after[..|before|] == before && after[|before|].route == r)
  }

  datatype Cycle = Cycle(
    attempts: seq<Attempt>,
    blockedKeys: set<string>, blockedRoutes: set<RouteKey>, blockedProviders: set<Provider>,
    lastDeferred: bool,       // lastFailure.deferred
    attemptedFailure: bool,   // a non-capacity provider failure was seen
    usage: Option<Usage>)
  {
    predicate Ok() {
      && |attempts| <= MAX_ROUTE_ATTEMPTS && NoSuccess(attempts) && (!attemptedFailure ==> AllCapacity(attempts))
      && NoRepeat(attempts)
      && forall i :: 0 <= i < |attempts| && attempts[i].failure == Some(Capacity) ==> Blocks(attempts[i].route)
    }

    predicate Blocks(r: Route) {
      r.keyRef in blockedKeys || KeyOf(r) in blockedRoutes || r.provider in blockedProviders
    }

    predicate First() {
      forall i :: 0 <= i < |attempts| ==> attempts[i].outcome == Deferred
    }

    /** A local refusal: the route is blocked by its key, or alone when the refusal was the route's. */
    method Refuse(r: Route, scope: Option<Scope>, reasons: seq<AdmissionReason>) returns (c: Cycle)
      requires Ok() && |attempts| < MAX_ROUTE_ATTEMPTS && !Blocks(r)
      ensures c.Ok() && ProviderCalls(c.attempts) == ProviderCalls(attempts)
      ensures c.attempts == attempts + [Attempt(r, Deferred, Some(Capacity), reasons)]
      ensures c.usage == usage
      ensures scope != Some(RouteScope) ==> r.keyRef in c.blockedKeys
      ensures c.Blocks(r)
    {
      var a := Attempt(r, Deferred, Some(Capacity), reasons);
      AppendAttempt(attempts, a);
      c := this.(attempts := attempts + [a], lastDeferred := true);
      if scope == Some(RouteScope) {
        c := c.(blockedRoutes := blockedRoutes + {KeyOf(r)});
      } else {
        c := c.(blockedKeys := blockedKeys + {r.keyRef});
      }
      AttemptKeepsOk(this, a, c);
    }

    /** Is there a route of another provider whose key is not blocked? */
    predicate Independent(r: Route, routes: seq<Route>) {
      exists i :: 0 <= i < |routes| && routes[i].provider != r.provider && routes[i].keyRef !in blockedKeys
    }

    /** A failed provider attempt. An upstream capacity failure blocks the route, and a transient one the whole
        provider when an independent one is left. */
    method Fail(r: Route, reply: Reply, routes: seq<Route>) returns (c: Cycle)
      requires Ok() && |attempts| < MAX_ROUTE_ATTEMPTS && !Accepted(reply) && !Blocks(r)
      ensures c.Ok() && ProviderCalls(c.attempts) == ProviderCalls(attempts) + 1
      ensures c.attempts == attempts + [AttemptOf(r, reply)]
      ensures c.usage == AddUsage(usage, reply.usage)
      ensures reply.Failure? && ClassifyFailure(reply) == Capacity ==> c.Blocks(r)
      ensures reply.Failure? && ClassifyFailure(reply) == Transient && Independent(r, routes) ==>
                r.provider in c.blockedProviders
    {
      var a := AttemptOf(r, reply);
      AppendAttempt(attempts, a);
      c := this.(attempts := attempts + [a], usage := AddUsage(usage, reply.usage),
                 lastDeferred := reply.Failure? && reply.deferred);
      if reply.Failure? && a.failure == Some(Capacity) {
        c := c.(blockedRoutes := blockedRoutes + {KeyOf(r)});
      }
      if reply.Failure? && a.failure == Some(Transient) && Independent(r, routes) {
        c := c.(blockedProviders := blockedProviders + {r.provider});
      }
      if a.failure != Some(Capacity) {
        c := c.(attemptedFailure := true);
      }
      AttemptKeepsOk(this, a, c);
    }

    method Succeed(r: Route, reply: Reply) returns (d: Decision)
      requires Ok() && |attempts| < MAX_ROUTE_ATTEMPTS && Accepted(reply) && !Blocks(r)
      ensures d.attempts == attempts + [AttemptOf(r, reply)]
      ensures DecisionOk(d) && d.ok && ProviderCalls(d.attempts) == ProviderCalls(attempts) + 1
      ensures d.usage == AddUsage(usage, reply.usage)
    {
      var all := attempts + [AttemptOf(r, reply)];
      AppendAttempt(attempts, AttemptOf(r, reply));
      AppendKeepsNoRepeat(attempts, AttemptOf(r, reply), this);
      assert all[|all| - 1].outcome == Success;
      d := Decision(true, false, AddUsage(usage, reply.usage), all);
    }

    /** An attempted provider failure wins over any later deferral. */
    method GiveUp() returns (d: Decision)
      requires Ok()
      ensures DecisionOk(d) && !d.ok && d.attempts == attempts && d.usage == usage
      ensures d.deferred == (AllCapacity(attempts) && lastDeferred && !attemptedFailure)
    {
      d := Decision(false, !attemptedFailure && lastDeferred, usage, attempts);
    }
  }

  method CandidatesOf(routes: seq<Route>) returns (candidates: seq<Candidate>)
    ensures |candidates| == |routes|
    ensures forall i :: 0 <= i < |routes| ==> candidates[i] == Candidate(routes[i], false)
  {
    candidates := seq(|routes|, i requires 0 <= i < |routes| => Candidate(routes[i], false));
  }

  /** candidates.splice(index, 0, c). */
  method Splice(candidates: seq<Candidate>, index: nat, c: Candidate) returns (more: seq<Candidate>)
    requires index <= |candidates|
    ensures |more| == |candidates| + 1 && more[index] == c
    ensures more[..index] == candidates[..index] && more[index + 1..] == candidates[index..]
    ensures forall i :: 0 <= i < |more| ==> more[i] == c || more[i] in candidates
  {
    more := candidates[..index] + [c] + candidates[index..];
  }

  /** A decision succeeds by its last attempt, and is deferred only when every attempt was capacity-class. */
  predicate DecisionOk(d: Decision) {
    && |d.attempts| <= MAX_ROUTE_ATTEMPTS && NoRepeat(d.attempts)
    && (d.deferred ==> AllCapacity(d.attempts))
    && (d.ok <==> !NoSuccess(d.attempts))
    && (d.ok ==> d.attempts[|d.attempts| - 1].outcome == Success && !d.deferred)
  }

  /** The books agree: requests made are the non-deferred attempts, and usage is what they reported. */
  ghost predicate Booked(h: Hooks, c: Cycle)
    reads h
  {
    Calls(h.trace) == ProviderCalls(c.attempts) && c.usage == Reported(h.trace)
  }

  datatype Turn =
    | Skip                          // blocked or unavailable: look at the next candidate
    | Leave(stopped: bool)          // no time left, gate closed, or a recovery that may not dispatch
    | Go(admission: Admission)

  /** From the cursor to the admission of one candidate. */
  method Consider(h: Hooks, c: Cycle, candidate: Candidate, deadline: real) returns (r: Result<Turn, Thrown>)
    requires h.Valid() && h.mine == 0 && !h.closed && PhaseOf(h.trace) == Free
    modifies h
    ensures h.Valid() && h.mine == 0
    ensures Calls(h.trace) == Calls(old(h.trace)) && Reported(h.trace) == Reported(old(h.trace))
    ensures PhaseOf(h.trace)
              == if r.Ok? && r.value.Go? && r.value.admission.acquired.Grant? then Holding(candidate.route) else Free
    ensures r.Ok? && r.value.Go? && h.closed ==>
              r.value.admission.acquired.Refusal? && r.value.admission.acquired.scope == Some(OwnerScope)
    ensures r.Ok? && r.value.Skip? ==> !h.closed
    ensures r.Ok? && r.value.Go? ==> !c.Blocks(candidate.route)
  {
    var route := candidate.route;
    var now := h.Now();
    if now >= deadline { return Ok(Leave(false)); }
    var stopped := h.Stopped();
    if stopped { return Ok(Leave(true)); }
    if c.Blocks(route) { return Ok(Skip); }
    var availability :- h.IsAvailable(route);
    if availability != Eligible { return Ok(Skip); }
    var admission :- Admit(h, route, candidate.jsonContent, c.First(), deadline);
    if admission.ended {
      h.AbandonOwnerWait(route);
      return Ok(Leave(admission.stoppedAfterWait));
    }
    return Ok(Go(admission));
  }

  datatype After =
    | PassOver
    | Continue(cycle: Cycle, retry: bool)
    | Finish(cycle: Cycle)
    | Decided(decision: Decision)

  /** What an attempt on `r` leaves behind. */
  ghost predicate AfterOk(h: Hooks, c: Cycle, r: Route, after: After)
    reads h
  {
    match after
    case PassOver => false
    case Continue(c', _) => c'.Ok() && Booked(h, c') && |c'.attempts| == |c.attempts| + 1 && !h.closed
        && Extends(c.attempts, c'.attempts, r)
    case Finish(c') => c'.Ok() && Booked(h, c') && Extends(c.attempts, c'.attempts, r)
    case Decided(d) => DecisionOk(d) && Calls(h.trace) == ProviderCalls(d.attempts) && d.usage == Reported(h.trace)
                       && Extends(c.attempts, d.attempts, r)
  }

  /** A local refusal is an attempt that made no request; the owner's ends the cycle. */
  method Refused(h: Hooks, c: Cycle, route: Route, admission: Admission) returns (r: Result<After, Thrown>)
    requires h.Valid() && h.mine == 0 && c.Ok() && |c.attempts| < MAX_ROUTE_ATTEMPTS && Booked(h, c) && !c.Blocks(route)
    requires PhaseOf(h.trace) == Free && admission.acquired.Refusal?
    requires h.closed ==> admission.acquired.scope == Some(OwnerScope)
    modifies h
    ensures h.Valid() && h.mine == 0 && PhaseOf(h.trace) == Free && Calls(h.trace) == Calls(old(h.trace))
    ensures r.Ok? ==> AfterOk(h, c, route, r.value)
    ensures r.Ok? && admission.acquired.scope == Some(OwnerScope) ==> r.value.Finish?
  {
    h.AbandonOwnerWait(route);
    var reasons := if admission.routeChanged || admission.stoppedAfterWait then [] else admission.acquired.reasons;
    var c' := c.Refuse(route, admission.acquired.scope, reasons);
    ExtendsBy(c.attempts, Attempt(route, Deferred, Some(Capacity), reasons));
    var _ :- h.Observe(route);
    return Ok(if admission.acquired.scope == Some(OwnerScope) then Finish(c') else Continue(c', false));
  }

  /** What the answer to a request makes of the cycle. */
  method Concluded(h: Hooks, c: Cycle, candidate: Candidate, reply: Reply, routes: seq<Route>)
    returns (r: Result<After, Thrown>)
    requires h.Valid() && h.mine == 0 && c.Ok() && |c.attempts| < MAX_ROUTE_ATTEMPTS && !c.Blocks(candidate.route)
    requires PhaseOf(h.trace) == Free && !h.closed
    requires Calls(h.trace) == ProviderCalls(c.attempts) + 1 && Reported(h.trace) == AddUsage(c.usage, reply.usage)
    modifies h
    ensures h.Valid() && h.mine == 0 && PhaseOf(h.trace) == Free && Calls(h.trace) == Calls(old(h.trace))
    ensures r.Ok? ==> AfterOk(h, c, candidate.route, r.value)
    ensures r.Ok? ==> (r.value.Decided? <==> Accepted(reply))
  {
    var route := candidate.route;
    ExtendsBy(c.attempts, AttemptOf(route, reply));
    if Accepted(reply) {
      var decision := c.Succeed(route, reply);
      var _ :- h.Observe(route);
      return Ok(Decided(decision));
    }
    var c' := c.Fail(route, reply, routes);
    var _ :- h.Observe(route);
    return Ok(Continue(c', reply.Text? && !candidate.jsonContent && CanRetryToolOutput(route, reply.toolString)));
  }

  /** From the admission of one candidate to its attempt. */
  method Attempting(h: Hooks, c: Cycle, candidate: Candidate, admission: Admission, routes: seq<Route>, deadline: real)
    returns (r: Result<After, Thrown>)
    requires h.Valid() && h.mine == 0 && c.Ok() && |c.attempts| < MAX_ROUTE_ATTEMPTS && Booked(h, c)
    requires !c.Blocks(candidate.route)
    requires PhaseOf(h.trace) == if admission.acquired.Grant? then Holding(candidate.route) else Free
    requires h.closed ==> admission.acquired.Refusal? && admission.acquired.scope == Some(OwnerScope)
    modifies h
    ensures h.Valid() && h.mine == 0 && PhaseOf(h.trace) == Free
    ensures Calls(h.trace) <= Calls(old(h.trace)) + 1
    ensures r.Ok? ==> AfterOk(h, c, candidate.route, r.value)
  {
    if admission.acquired.Refusal? {
      r := Refused(h, c, candidate.route, admission);
      return;
    }
    var dispatched :- Dispatch(h, candidate.route, admission.waited, deadline);
    if dispatched.Unsent? {
      return Ok(Finish(c.(lastDeferred := c.lastDeferred || dispatched.stopped)));
    }
    r := Concluded(h, c, candidate, dispatched.reply, routes);
  }

  /** Every attempt is on a route of the chain. */
  predicate OnRoutes(attempts: seq<Attempt>, routes: seq<Route>) {
    forall i :: 0 <= i < |attempts| ==> attempts[i].route in routes
  }

  lemma {:induction false} ExtendsOnRoutes(before: seq<Attempt>, after: seq<Attempt>, r: Route, routes: seq<Route>)
    requires Extends(before, after, r) && OnRoutes(before, routes) && r in routes
    ensures OnRoutes(after, routes)
  {
    forall i | 0 <= i < |after| ensures after[i].route in routes {
      assert i < |before| ==> after[i] == before[i];
    }
  }

  /** One pass of the loop: a candidate that is passed over, or its attempt. */
  method Consult(h: Hooks, c: Cycle, candidate: Candidate, routes: seq<Route>, deadline: real)
    returns (r: Result<After, Thrown>)
    requires h.Valid() && h.mine == 0 && !h.closed && PhaseOf(h.trace) == Free
    requires c.Ok() && |c.attempts| < MAX_ROUTE_ATTEMPTS && Booked(h, c) && Calls(h.trace) < MAX_ROUTE_ATTEMPTS
    requires OnRoutes(c.attempts, routes) && candidate.route in routes
    modifies h
    ensures h.Valid() && h.mine == 0 && PhaseOf(h.trace) == Free && Calls(h.trace) <= MAX_ROUTE_ATTEMPTS
    ensures r.Ok? ==> match r.value
                      case PassOver => !h.closed && Booked(h, c)
                      case Continue(c', _) => c'.Ok() && Booked(h, c') && OnRoutes(c'.attempts, routes)
                                              && |c'.attempts| == |c.attempts| + 1 && !h.closed
                      case Finish(c') => c'.Ok() && Booked(h, c') && OnRoutes(c'.attempts, routes)
                      case Decided(d) => DecisionOk(d) && d.usage == Reported(h.trace)
                                         && Calls(h.trace) == ProviderCalls(d.attempts)
                                         && OnRoutes(d.attempts, routes)
  {
    var turn :- Consider(h, c, candidate, deadline);
    if turn.Skip? { return Ok(PassOver); }
    if turn.Leave? { return Ok(Finish(c.(lastDeferred := c.lastDeferred || turn.stopped))); }
    var after :- Attempting(h, c, candidate, turn.admission, routes, deadline);
    match after {
      case Continue(c', _) => ExtendsOnRoutes(c.attempts, c'.attempts, candidate.route, routes);
      case Finish(c') => ExtendsOnRoutes(c.attempts, c'.attempts, candidate.route, routes);
      case Decided(d) => ExtendsOnRoutes(c.attempts, d.attempts, candidate.route, routes);
      case PassOver =>
    }
    return Ok(after);
  }

  /** RoutedProvider.decide. The list of candidates may grow behind the cursor; each growth spends an attempt. */
  method Decide(h: Hooks, routes: seq<Route>, timeoutMs: Option<real>) returns (out: Result<Decision, Thrown>)
    requires h.Valid() && h.mine == 0 && h.trace == [] && !h.closed
    modifies h
    ensures h.Valid() && h.mine == 0 && PhaseOf(h.trace) == Free
    ensures Calls(h.trace) <= MAX_ROUTE_ATTEMPTS
    ensures out.Ok? ==>
              && DecisionOk(out.value)
              && Calls(h.trace) == ProviderCalls(out.value.attempts)
              && out.value.usage == Reported(h.trace)
              && OnRoutes(out.value.attempts, routes)
  {
    var start := h.Now();
    var deadline := start + if timeoutMs.Some? && timeoutMs.value < 300_000.0 then timeoutMs.value else 300_000.0;
    var c := Cycle([], {}, {}, {}, true, false, None);
    var candidates := CandidatesOf(routes);
    var index := 0;
    while index < |candidates| && |c.attempts| < MAX_ROUTE_ATTEMPTS
      invariant 0 <= index <= |candidates|
      invariant h.Valid() && h.mine == 0 && PhaseOf(h.trace) == Free && !h.closed
      invariant c.Ok() && Booked(h, c) && OnRoutes(c.attempts, routes)
      invariant forall i :: 0 <= i < |candidates| ==> candidates[i].route in routes
      decreases MAX_ROUTE_ATTEMPTS - |c.attempts|, |candidates| - index
    {
      CallsAreAttempts(c.attempts);
      var candidate := candidates[index];
      index := index + 1;
      var after :- Consult(h, c, candidate, routes, deadline);
      match after {
        case PassOver => continue;
        case Decided(decision) =>
          return Ok(decision);
        case Finish(c') =>
          c := c';
          break;
        case Continue(c', retry) =>
          c := c';
          // The second attempt, on the same route as JSON content.
          if retry { candidates := Splice(candidates, index, Candidate(candidate.route, true)); }
      }
    }
    CallsAreAttempts(c.attempts);
    var decision := c.GiveUp();
    return Ok(decision);
  }
}
