/** The poll loop (scheduler.ts, runScheduler): runs are launched into free slots and finish whenever they finish,
also while the loop is waiting for a claim. */
module Scheduler {
  import opened Common
  import C = Claiming

  datatype Run = Run(agentId: C.Id, startedAt: int)

  /** A claim on its way to the database: the free slots and the excluded agents were read when it left. */
  datatype Pending = Pending(limit: nat, excluded: set<C.Id>)

  /** `clock` is the last reading of the clock. */
  datatype State = State(inFlight: seq<Run>, heartbeat: int, clock: int, pending: Option<Pending>)

  datatype Config = Config(maxConcurrent: int, claimBatch: int)

  function OldestFrom(runs: seq<Run>): Option<int> {
    if runs == [] then None
    else
      match OldestFrom(runs[..|runs| - 1])
      case None => Some(runs[|runs| - 1].startedAt)
      case Some(oldest) => Some(Min(oldest, runs[|runs| - 1].startedAt))
  }

  function RunningIds(runs: seq<Run>): set<C.Id> {
    set r | r in runs :: r.agentId
  }

  function Beat(s: State, now: int): State {
    s.(clock := now, heartbeat := match OldestFrom(s.inFlight) case None => now case Some(oldest) => Min(now, oldest))
  }

  function Finish(s: State, k: nat, now: int): State
    requires k < |s.inFlight|
  {
    Beat(s.(inFlight := s.inFlight[..k] + s.inFlight[k + 1..]), now)
  }

  function Launch(s: State, id: C.Id, now: int): State {
    s.(clock := now, inFlight := s.inFlight + [Run(id, now)])
  }

  function StartClaim(s: State, c: Config): State {
    var free := c.maxConcurrent - |s.inFlight|;
    if free > 0 && Min(c.claimBatch, free) > 0
    then s.(pending := Some(Pending(Min(c.claimBatch, free), RunningIds(s.inFlight)))) else s.(pending := None)
  }

  function LaunchAll(s: State, ids: seq<C.Id>, nows: seq<int>): State
    requires |ids| == |nows|
    decreases |ids|
  {
    if ids == [] then s else LaunchAll(Launch(s, ids[0], nows[0]), ids[1..], nows[1..])
  }

  /** One iteration of the loop is a beat, the start of a claim and its end; runs finish between any two of them. */
  datatype Step =
    | BeatStep(now: int)
    | FinishStep(k: nat, now: int)
    | StartClaimStep
    | EndClaimStep(due: seq<C.Agent>, skipped: set<C.Id>, nows: seq<int>)
    | ClaimFailed

  /** The clock does not go back, and the rows a claim brings are a batch of some due list that left out the agents
      excluded when it started. */
  ghost predicate Allowed(s: State, e: Step) {
    match e
    case BeatStep(now) => now >= s.clock
    case FinishStep(k, now) => k < |s.inFlight| && now >= s.clock
    case StartClaimStep => true
    case EndClaimStep(due, skipped, nows) =>
      && s.pending.Some? && C.DistinctIds(due)
      && (forall a :: a in due ==> a.id !in s.pending.value.excluded)
      && |nows| == |Rows(s, due, skipped)|
      && (forall i :: 0 <= i < |nows| ==> nows[i] >= s.clock)
      && (forall i, j :: 0 <= i < j < |nows| ==> nows[i] <= nows[j])
    case ClaimFailed => true
  }

  function Rows(s: State, due: seq<C.Agent>, skipped: set<C.Id>): seq<C.Id>
    requires s.pending.Some?
  {
    var b := C.Batch(due, s.pending.value.limit, skipped);
    seq(|b|, i requires 0 <= i < |b| => b[i].id)
  }

  ghost function Next(s: State, e: Step, c: Config): State
    requires Allowed(s, e)
  {
    match e
    case BeatStep(now) => Beat(s, now)
    case FinishStep(k, now) => Finish(s, k, now)
    case StartClaimStep => StartClaim(s, c)
    case EndClaimStep(due, skipped, nows) => LaunchAll(s, Rows(s, due, skipped), nows).(pending := None)
    case ClaimFailed => s.(pending := None)
  }

  // ----- the loop's own methods -----

  class Loop {
    var s: State

    constructor (now: int)
      ensures s == State([], now, now, None)
    {
      s := State([], now, now, None);
    }

    method OldestRunningStart() returns (oldest: Option<int>)
      ensures oldest == OldestFrom(s.inFlight)
    {
      oldest := None;
      var i := 0;
      while i < |s.inFlight|
        invariant 0 <= i <= |s.inFlight|
        invariant oldest == OldestFrom(s.inFlight[..i])
      {
        var startedAt := s.inFlight[i].startedAt;
        oldest := if oldest.None? then Some(startedAt) else Some(Min(oldest.value, startedAt));
        assert s.inFlight[..i + 1][..i] == s.inFlight[..i];
        i := i + 1;
      }
      assert s.inFlight[..i] == s.inFlight;
    }

    method BeatNow(now: int)
      modifies this
      ensures s == Beat(old(s), now)
    {
      var oldest := OldestRunningStart();
      s := s.(clock := now, heartbeat := if oldest.None? then now else Min(now, oldest.value));
    }

    method FinishRun(k: nat, now: int)
      requires k < |s.inFlight|
      modifies this
      ensures s == Finish(old(s), k, now)
    {
      s := s.(inFlight := s.inFlight[..k] + s.inFlight[k + 1..]);
      BeatNow(now);
    }

    method LaunchDue(ids: seq<C.Id>, nows: seq<int>)
      requires |ids| == |nows|
      modifies this
      ensures s == LaunchAll(old(s), ids, nows)
    {
      var i := 0;
      while i < |ids|
        invariant 0 <= i <= |ids|
        invariant LaunchAll(s, ids[i..], nows[i..]) == LaunchAll(old(s), ids, nows)
      {
        s := Launch(s, ids[i], nows[i]);
        i := i + 1;
      }
    }
  }

  // ----- the invariant -----

  ghost predicate Inv(s: State, c: Config) {
    && |s.inFlight| + (if s.pending.Some? then s.pending.value.limit else 0) <= Max(0, c.maxConcurrent)
    && (forall i, j :: 0 <= i < j < |s.inFlight| ==> s.inFlight[i].agentId != s.inFlight[j].agentId)
    && (forall i :: 0 <= i < |s.inFlight| ==> s.heartbeat <= s.inFlight[i].startedAt <= s.clock)
    && s.heartbeat <= s.clock
    && (s.pending.Some? ==> forall i :: 0 <= i < |s.inFlight| ==> s.inFlight[i].agentId in s.pending.value.excluded)
  }

  lemma {:induction false} OldestIsLeast(runs: seq<Run>)
    ensures runs == [] <==> OldestFrom(runs).None?
    ensures forall i :: 0 <= i < |runs| ==> OldestFrom(runs).value <= runs[i].startedAt
    ensures OldestFrom(runs).Some? ==> exists i :: 0 <= i < |runs| && runs[i].startedAt == OldestFrom(runs).value
  {
    if runs != [] {
      var n := |runs| - 1;
      OldestIsLeast(runs[..n]);
      if OldestFrom(runs).value == runs[n].startedAt {
      } else {
        var i :| 0 <= i < n && runs[..n][i].startedAt == OldestFrom(runs[..n]).value;
        assert runs[i].startedAt == OldestFrom(runs).value;
      }
      forall i | 0 <= i < |runs| ensures OldestFrom(runs).value <= runs[i].startedAt {
        assert i < n ==> runs[..n][i] == runs[i];
      }
    }
  }

  lemma {:induction false} BeatKeeps(s: State, c: Config, now: int)
    requires Inv(s, c) && now >= s.clock
    ensures Inv(Beat(s, now), c) && Beat(s, now).heartbeat >= s.heartbeat
  {
    OldestIsLeast(s.inFlight);
  }

  lemma {:induction false} FinishKeeps(s: State, c: Config, k: nat, now: int)
    requires Inv(s, c) && k < |s.inFlight| && now >= s.clock
    ensures Inv(Finish(s, k, now), c) && Finish(s, k, now).heartbeat >= s.heartbeat
  {
    var rest := s.(inFlight := s.inFlight[..k] + s.inFlight[k + 1..]);
    assert forall i :: 0 <= i < |rest.inFlight| ==> rest.inFlight[i] == s.inFlight[if i < k then i else i + 1];
    BeatKeeps(rest, c, now);
  }

  lemma {:induction false} StartClaimKeeps(s: State, c: Config)
    requires Inv(s, c)
    ensures Inv(StartClaim(s, c), c)
  {
  }

  /** What is true while a claimed batch is being launched. */
  ghost predicate Launching(s: State, ids: seq<C.Id>, nows: seq<int>, c: Config) {
    && |ids| == |nows| && |s.inFlight| + |ids| <= Max(0, c.maxConcurrent)
    && (forall i, j :: 0 <= i < j < |ids| ==> ids[i] != ids[j])
    && (forall i, j :: 0 <= i < |ids| && 0 <= j < |s.inFlight| ==> ids[i] != s.inFlight[j].agentId)
    && (forall i :: 0 <= i < |nows| ==> nows[i] >= s.clock)
    && (forall i, j :: 0 <= i < j < |nows| ==> nows[i] <= nows[j])
  }

  lemma {:induction false} LaunchAllKeeps(s: State, ids: seq<C.Id>, nows: seq<int>, c: Config)
    requires Inv(s.(pending := None), c) && Launching(s, ids, nows, c)
    ensures Inv(LaunchAll(s, ids, nows).(pending := None), c)
    ensures LaunchAll(s, ids, nows).heartbeat == s.heartbeat
    decreases |ids|
  {
    if ids != [] {
      var t := Launch(s, ids[0], nows[0]);
      assert Launching(t, ids[1..], nows[1..], c);
      LaunchAllKeeps(t, ids[1..], nows[1..], c);
    }
  }

  lemma {:induction false} EndClaimKeeps(s: State, c: Config, due: seq<C.Agent>, skipped: set<C.Id>, nows: seq<int>)
    requires Inv(s, c) && Allowed(s, EndClaimStep(due, skipped, nows))
    ensures Inv(Next(s, EndClaimStep(due, skipped, nows), c), c)
    ensures Next(s, EndClaimStep(due, skipped, nows), c).heartbeat == s.heartbeat
  {
    var ids := Rows(s, due, skipped);
    RowsFit(s, due, skipped);
    assert forall i, j :: 0 <= i < |ids| && 0 <= j < |s.inFlight| ==> ids[i] != s.inFlight[j].agentId;
    LaunchAllKeeps(s, ids, nows, c);
  }

  /** The claimed rows fit the slots that were free, name no excluded agent, and none twice. */
  lemma {:induction false} RowsFit(s: State, due: seq<C.Agent>, skipped: set<C.Id>)
    requires s.pending.Some? && C.DistinctIds(due) && forall a :: a in due ==> a.id !in s.pending.value.excluded
    ensures |Rows(s, due, skipped)| <= s.pending.value.limit
    ensures forall i :: 0 <= i < |Rows(s, due, skipped)| ==> Rows(s, due, skipped)[i] !in s.pending.value.excluded
    ensures forall i, j :: 0 <= i < j < |Rows(s, due, skipped)| ==> Rows(s, due, skipped)[i] != Rows(s, due, skipped)[j]
  {
    var limit := s.pending.value.limit;
    var b := C.Batch(due, limit, skipped);
    C.BatchIsFirst(due, limit, skipped);
    C.DistinctKeyed(due);
    forall i | 0 <= i < |b| ensures b[i].id !in s.pending.value.excluded {
      assert b[i] in b;
    }
    forall i, j | 0 <= i < j < |b| ensures b[i].id != b[j].id {
      assert b[i] in b && b[j] in b && C.RanksBefore(due, b[i], b[j]);
      C.RanksIrreflexive(due, b[i]);
    }
  }

  lemma {:induction false} StepKeeps(s: State, e: Step, c: Config)
    requires Inv(s, c) && Allowed(s, e)
    ensures Inv(Next(s, e, c), c) && Next(s, e, c).heartbeat >= s.heartbeat
  {
    match e
    case BeatStep(now) => BeatKeeps(s, c, now);
    case FinishStep(k, now) => FinishKeeps(s, c, k, now);
    case StartClaimStep => StartClaimKeeps(s, c);
    case EndClaimStep(due, skipped, nows) => EndClaimKeeps(s, c, due, skipped, nows);
    case ClaimFailed =>
  }

  // ----- whole runs of the loop -----

  ghost predicate Reaches(s: State, es: seq<Step>, end: State, c: Config)
    decreases |es|
  {
    if es == [] then end == s else Allowed(s, es[0]) && Reaches(Next(s, es[0], c), es[1..], end, c)
  }

  lemma {:induction false} RunKeeps(s: State, es: seq<Step>, end: State, c: Config)
    requires Inv(s, c) && Reaches(s, es, end, c)
    ensures Inv(end, c) && end.heartbeat >= s.heartbeat
    decreases |es|
  {
    if es != [] {
      StepKeeps(s, es[0], c);
      RunKeeps(Next(s, es[0], c), es[1..], end, c);
    }
  }

  /** From the start, whatever the interleaving: no more runs than slots, no agent running twice, and a heartbeat that
      never goes back and never passes the start of a run still in flight. */
  lemma {:induction false} SlotsAndHeartbeat(
      boot: int, es: seq<Step>, mid: State, later: seq<Step>, end: State, c: Config)
    requires Reaches(State([], boot, boot, None), es, mid, c) && Reaches(mid, later, end, c)
    ensures |end.inFlight| <= Max(0, c.maxConcurrent)
    ensures forall i, j :: 0 <= i < j < |end.inFlight| ==> end.inFlight[i].agentId != end.inFlight[j].agentId
    ensures boot <= mid.heartbeat <= end.heartbeat
    ensures forall i :: 0 <= i < |end.inFlight| ==> end.heartbeat <= end.inFlight[i].startedAt
  {
    RunKeeps(State([], boot, boot, None), es, mid, c);
    RunKeeps(mid, later, end, c);
  }

  /** The heartbeat a beat sets is exact: the present with nothing in flight, otherwise the oldest start. */
  lemma {:induction false} BeatIsExact(s: State, c: Config, now: int)
    requires Inv(s, c) && now >= s.clock
    ensures s.inFlight == [] ==> Beat(s, now).heartbeat == now
    ensures s.inFlight != [] ==>
              exists i :: 0 <= i < |s.inFlight| && Beat(s, now).heartbeat == s.inFlight[i].startedAt
    ensures forall i :: 0 <= i < |s.inFlight| ==> Beat(s, now).heartbeat <= s.inFlight[i].startedAt
  {
    OldestIsLeast(s.inFlight);
  }

  /** A run that does not finish is still there, with its start, after any steps that finish others. */
  ghost predicate Hangs(s: State, es: seq<Step>, r: Run, c: Config)
    decreases |es|
  {
    && r in s.inFlight
    && (es != [] && Allowed(s, es[0]) ==> Hangs(Next(s, es[0], c), es[1..], r, c))
  }

  /** One hung run pins the heartbeat at or below its own start for as long as it hangs. */
  lemma {:induction false} HungRunPins(s: State, es: seq<Step>, end: State, r: Run, c: Config)
    requires Inv(s, c) && Reaches(s, es, end, c) && Hangs(s, es, r, c)
    ensures end.heartbeat <= r.startedAt
    decreases |es|
  {
    if es == [] {
      var i :| 0 <= i < |s.inFlight| && s.inFlight[i] == r;
    } else {
      StepKeeps(s, es[0], c);
      HungRunPins(Next(s, es[0], c), es[1..], end, r, c);
    }
  }
}
