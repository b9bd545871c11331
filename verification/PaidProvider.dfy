/** PaidCallProvider.decide and recoverPaidCalls as the runtime writes them, with everything else that may
happen at each await. */
module PaidProvider {
  import opened Common
  import opened Pricing
  import opened PaidKeys
  import opened Ledger
  import opened LedgerProofs
  import opened PaidCalls

  /** The shared database, the provider and every other worker; `log` is every step taken since `start`. */
  class Cluster {
    const start: World
    var world: World
    var log: seq<Step>

    ghost predicate Valid()
      reads this
    {
      world == Run(start, log)
    }

    constructor (w: World)
      ensures Valid() && start == world == w && log == []
    {
      start, world, log := w, w, [];
    }

    method Do(s: Step)
      requires Valid()
      modifies this
      ensures Valid() && log == old(log) + [s]
    {
      RunConcat(start, log, [s]);
      assert [s][1..] == [];
      world := Apply(world, s);
      log := log + [s];
    }

    /** Whatever others do while this worker awaits. */
    method Interleave(steps: seq<Step>)
      requires Valid()
      modifies this
      ensures Valid() && log == old(log) + steps
    {
      var i := 0;
      while i < |steps|
        invariant 0 <= i <= |steps| && Valid()
        invariant log == old(log) + steps[..i]
      {
        Do(steps[i]);
        i := i + 1;
      }
    }
  }

  // ----- one paid decision -----

  /** How committing 'dispatched' can go wrong for the caller. */
  datatype DispatchFault = NoFault | FailedBeforeCommit | FailedAfterCommit

  /** What the inner provider does: answer, or throw with the request already out. */
  datatype Inner = Answers(reply: Reply) | Throws

  datatype Decision = OverBound | NotDispatched | Returned(reply: Reply) | Thrown

  /** The inner call, with the steps others take until it returns. An answer that classifies as not called is the
      provider's word that no request went out. */
  function InnerSteps(id: nat, inner: Inner, inFlight: seq<Step>): seq<Step> {
    match inner
    case Throws => [SendStep(id)] + inFlight + [CrashStep(id)]
    case Answers(reply) =>
      if ClassifyPaidCall(reply) == NotCalled then inFlight + [DeferStep(id)]
      else [SendStep(id)] + inFlight + [AnswerStep(id, reply)]
  }

  /** The steps a decision takes by itself, given what others did while the inner call ran and before the record. */
  function StepsAfterDispatch(
      id: nat, now: real, inner: Inner, written: bool,
      inFlight: seq<Step>, beforeRecord: seq<Step>): seq<Step>
  {
    InnerSteps(id, inner, inFlight) + if inner.Throws? then [] else beforeRecord + [RecordStep(id, now, written)]
  }

  class PaidCallProvider {
    const cluster: Cluster
    const id: nat
    const reserveKey: string
    var results: seq<CallResult>

    constructor (cluster: Cluster, id: nat, reserveKey: string)
      ensures this.cluster == cluster && this.id == id && this.reserveKey == reserveKey && results == []
    {
      this.cluster, this.id, this.reserveKey := cluster, id, reserveKey;
      results := [];
    }

    /** A decision is a run of the shared machine: its own steps in program order, others' steps between
        them. The provider is asked only after an acknowledged dispatch, and exactly one result is noted
        unless the inner provider throws. */
    method Decide(
        inputBytes: nat, now: real, fault: DispatchFault, inner: Inner, written: bool,
        beforeSend: seq<Step>, inFlight: seq<Step>, beforeRecord: seq<Step>) returns (out: Decision)
      requires cluster.Valid()
      modifies this`results, cluster
      ensures cluster.Valid()
      ensures out == OverBound <==> inputBytes > MAX_INPUT_BYTES
      ensures out in {OverBound, NotDispatched}
                || (fault == NoFault && MarkDispatched(old(cluster.world).db, reserveKey, now).1)
      ensures cluster.log == old(cluster.log)
                + (if out == OverBound || fault == FailedBeforeCommit then []
                   else [DispatchStep(id, reserveKey, now, fault == NoFault)])
                + (if out in {OverBound, NotDispatched} then []
                   else beforeSend + StepsAfterDispatch(id, now, inner, written, inFlight, beforeRecord))
      ensures match out
              case Returned(reply) => inner == Answers(reply) && results == old(results) + [ClassifyPaidCall(reply)]
              case Thrown => inner == Throws && results == old(results)
              case _ => results == old(results) + [NotCalled]
    {
      if inputBytes > MAX_INPUT_BYTES {
        results := results + [NotCalled];
        return OverBound;
      }
      var dispatched := false;
      if fault != FailedBeforeCommit {
        // The commit may succeed although the caller sees an error.
        dispatched := MarkDispatched(cluster.world.db, reserveKey, now).1 && fault == NoFault;
        cluster.Do(DispatchStep(id, reserveKey, now, fault == NoFault));
      }
      if !dispatched {
        results := results + [NotCalled];
        return NotDispatched;
      }
      cluster.Interleave(beforeSend);
      out := CallInner(now, inner, written, inFlight, beforeRecord);
      Regroup(old(cluster.log), [DispatchStep(id, reserveKey, now, true)], beforeSend,
              StepsAfterDispatch(id, now, inner, written, inFlight, beforeRecord));
    }

    /** After the dispatch: ask the inner provider, classify its answer, record it. */
    method CallInner(now: real, inner: Inner, written: bool, inFlight: seq<Step>, beforeRecord: seq<Step>)
      returns (out: Decision)
      requires cluster.Valid()
      modifies this`results, cluster
      ensures cluster.Valid()
      ensures cluster.log == old(cluster.log) + StepsAfterDispatch(id, now, inner, written, inFlight, beforeRecord)
      ensures match inner
              case Answers(reply) => out == Returned(reply) && results == old(results) + [ClassifyPaidCall(reply)]
              case Throws => out == Thrown && results == old(results)
    {
      Ask(inner, inFlight);
      if inner.Throws? {
        return Thrown;
      }
      results := results + [ClassifyPaidCall(inner.reply)];
      Record(now, written, beforeRecord);
      return Returned(inner.reply);
    }

    /** The inner call takes as long as the others take. */
    method Ask(inner: Inner, inFlight: seq<Step>)
      requires cluster.Valid()
      modifies cluster
      ensures cluster.Valid() && cluster.log == old(cluster.log) + InnerSteps(id, inner, inFlight)
    {
      var deferred := inner.Answers? && ClassifyPaidCall(inner.reply) == NotCalled;
      if !deferred {
        cluster.Do(SendStep(id));
      }
      cluster.Interleave(inFlight);
      var last :=
        if inner.Throws? then CrashStep(id)
        else if deferred then DeferStep(id) else AnswerStep(id, inner.reply);
      cluster.Do(last);
      Regroup(old(cluster.log), if deferred then [] else [SendStep(id)], inFlight, [last]);
    }

    method Record(now: real, written: bool, beforeRecord: seq<Step>)
      requires cluster.Valid()
      modifies cluster
      ensures cluster.Valid() && cluster.log == old(cluster.log) + (beforeRecord + [RecordStep(id, now, written)])
    {
      cluster.Interleave(beforeRecord);
      cluster.Do(RecordStep(id, now, written));
    }
  }

  lemma {:induction false} Regroup<T>(a: seq<T>, b: seq<T>, c: seq<T>, d: seq<T>)
    ensures a + b + c + d == a + b + (c + d)
    ensures a + b + c + d == a + (b + c + d)
    ensures b == [] ==> b + c + d == c + d && a + b == a
  {
  }

  // ----- recovery -----

  datatype Summary = Summary(released: nat, debited: nat, uncertain: nat, failed: nat)

  function Count(s: Summary, out: Finalization): Summary {
    match out
    case ReleasedOutcome => s.(released := s.released + 1)
    case DebitedOutcome => s.(debited := s.debited + 1)
    case UncertainOutcome => s.(uncertain := s.uncertain + 1)
    case _ => s
  }

  /** The tables after a pass over the first n candidates; a failed transaction changes nothing. */
  function Recovered(t: Tables, stale: seq<string>, fails: set<string>, now: real, n: nat): Tables
    requires n <= |stale|
  {
    if n == 0 then t
    else
      var before := Recovered(t, stale, fails, now, n - 1);
      if stale[n - 1] in fails then before else Finalize(before, stale[n - 1], Recovery, None, now).0
  }

  function FailCount(stale: seq<string>, fails: set<string>, n: nat): nat
    requires n <= |stale|
  {
    if n == 0 then 0 else FailCount(stale, fails, n - 1) + if stale[n - 1] in fails then 1 else 0
  }

  /** One recovery pass over a candidate list that may be out of date: every candidate is finalised by the
      recovery rules or counted as failed, and no failure stops the others. */
  method RecoverStale(store: CreditStore, stale: seq<string>, fails: set<string>, now: real)
    returns (summary: Summary)
    modifies store
    ensures store.Contents() == Recovered(old(store.Contents()), stale, fails, now, |stale|)
    ensures summary.released + summary.debited + summary.uncertain + summary.failed <= |stale|
    ensures summary.failed == FailCount(stale, fails, |stale|)
  {
    summary := Summary(0, 0, 0, 0);
    var i := 0;
    while i < |stale|
      invariant 0 <= i <= |stale|
      invariant store.Contents() == Recovered(old(store.Contents()), stale, fails, now, i)
      invariant summary.released + summary.debited + summary.uncertain + summary.failed <= i
      invariant summary.failed == FailCount(stale, fails, i)
    {
      if stale[i] in fails {
        summary := summary.(failed := summary.failed + 1);
      } else {
        var out := store.FinalizePaidCall(stale[i], Recovery, None, now);
        summary := Count(summary, out);
      }
      i := i + 1;
    }
  }

  /** Each uncertain call is alerted once per process. */
  method AlertUncertain(uncertain: seq<string>, alerted: set<string>)
    returns (alerts: seq<string>, alerted': set<string>)
    ensures alerted' == alerted + set k | k in uncertain
    ensures forall k :: k in alerts <==> k in uncertain && k !in alerted
    ensures forall a, b :: 0 <= a < b < |alerts| ==> alerts[a] != alerts[b]
  {
    alerts, alerted' := [], alerted;
    var j := 0;
    while j < |uncertain|
      invariant 0 <= j <= |uncertain|
      invariant forall k :: k in alerted' <==> k in alerted || k in uncertain[..j]
      invariant forall k :: k in alerts <==> k in uncertain[..j] && k !in alerted
      invariant forall a, b :: 0 <= a < b < |alerts| ==> alerts[a] != alerts[b]
    {
      if uncertain[j] !in alerted' {
        alerts := alerts + [uncertain[j]];
        alerted' := alerted' + {uncertain[j]};
      }
      j := j + 1;
    }
  }
}
