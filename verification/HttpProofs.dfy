/** What the completion observer reports, over every interleaving of its events. */
module HttpProofs {
  import opened Common
  import opened HttpCompletion

  // ----- lists of positions -----

  /** `Carriers` lists exactly the requests with that id. */
  lemma {:induction false} CarriersExact(ms: seq<Incoming>, id: RequestId)
    ensures forall k :: k in Carriers(ms, id) <==> 0 <= k < |ms| && Carries(ms[k], id)
  {
    if ms != [] {
      var n := |ms| - 1;
      CarriersExact(ms[..n], id);
      assert forall k :: 0 <= k < n ==> ms[..n][k] == ms[k];
    }
  }

  /** Two different carriers make the list longer than one. */
  lemma {:induction false} CarriersSeparate(ms: seq<Incoming>, id: RequestId)
    ensures forall i, j :: 0 <= i < j < |Carriers(ms, id)| ==> Carriers(ms, id)[i] < Carriers(ms, id)[j]
    ensures var c := Carriers(ms, id); |c| > 1 ==> c[0] in c && c[1] in c && c[0] != c[1]
  {
    if ms != [] {
      var n := |ms| - 1;
      CarriersSeparate(ms[..n], id);
      CarriersExact(ms[..n], id);
      forall i | 0 <= i < |Carriers(ms[..n], id)|
        ensures Carriers(ms[..n], id)[i] < n
      {
        assert Carriers(ms[..n], id)[i] in Carriers(ms[..n], id);
      }
    }
  }

  lemma {:induction false} CountPositive(s: seq<nat>, x: nat)
    ensures Count(s, x) > 0 <==> x in s
  {
    if s != [] {
      CountPositive(s[..|s| - 1], x);
      assert s == s[..|s| - 1] + [s[|s| - 1]];
    }
  }

  lemma {:induction false} CountPush(s: seq<nat>, y: nat, x: nat)
    ensures Count(s + [y], x) == Count(s, x) + if x == y then 1 else 0
  {
    assert (s + [y])[..|s|] == s;
  }

  lemma {:induction false} CountDrop(s: seq<nat>, k: nat, x: nat)
    requires k < |s|
    ensures Count(s[..k] + s[k + 1..], x) == Count(s, x) - if s[k] == x then 1 else 0
  {
    var n := |s| - 1;
    if k == n {
      assert s[..k] + s[k + 1..] == s[..n];
    } else {
      CountDrop(s[..n], k, x);
      assert s[..k] + s[k + 1..] == (s[..n][..k] + s[..n][k + 1..]) + [s[n]];
      CountPush(s[..n][..k] + s[..n][k + 1..], s[n], x);
    }
  }

  lemma {:induction false} SendsPush(s: seq<Start>, e: Start, i: nat)
    ensures Sends(s + [e], i) == Sends(s, i) + if e.index == i then [e.body] else []
  {
    assert (s + [e])[..|s|] == s;
  }

  lemma {:induction false} SendsNone(s: seq<Start>, i: nat)
    requires forall k :: 0 <= k < |s| ==> s[k].index != i
    ensures Sends(s, i) == []
  {
    if s != [] {
      SendsNone(s[..|s| - 1], i);
    }
  }

  lemma {:induction false} CountNone(s: seq<nat>, i: nat)
    requires forall k :: 0 <= k < |s| ==> s[k] != i
    ensures Count(s, i) == 0
  {
    if s != [] {
      CountNone(s[..|s| - 1], i);
    }
  }

  lemma {:induction false} InvIndices(o: Observer)
    requires ObjectsOk(o) && ListsOk(o)
    ensures IndicesOk(o)
  {
    forall id, k | id in o.pending && 0 <= k < |o.pending[id]|
      ensures o.pending[id][k] < |o.objects|
    {
      CarriersExact(o.messages, id);
      assert Waiting(o, id) == Carriers(o.messages, id);
      assert o.pending[id][k] in Carriers(o.messages, id);
    }
  }

  // ----- emission -----

  ghost predicate Ready(o: Observer) {
    && ObjectsOk(o) && ListsOk(o)
    && (o.completed ==> EmissionOk(o))
    && (!o.completed ==> o.batches == [])
    && (!o.completed && o.delivery == Some(Aborted) ==>
          forall i :: 0 <= i < |o.objects| ==> !Responded(o.objects[i].outcome))
  }

  lemma {:induction false} ReportsObject(o: Observer, i: nat, http: Option<int>)
    requires ObjectsOk(o) && i < |o.objects| && !o.completed && o.delivery.Some?
    requires o.delivery == Some(Finished) ==> o.flights == []
    requires o.delivery == Some(Aborted) ==> !Responded(o.objects[i].outcome)
    ensures RecordOk(o, i, Record(o.objects[i], o.delivery.value, http))
  {
    assert ObjectOk(o, i);
    CountPositive(o.flights, i);
  }

  lemma {:induction false} EmitKeeps(o: Observer, http: Option<int>)
    requires Ready(o) && IndicesOk(o)
    ensures Inv(Emit(o, http))
  {
    var e := Emit(o, http);
    if e != o {
      var b := Batch(o, http);
      forall i | 0 <= i < |b| && i < |o.messages|
        ensures RecordOk(e, i, b[i])
      {
        ReportsObject(o, i, http);
      }
      forall i | 0 <= i < |e.objects| ensures ObjectOk(e, i) {
        assert ObjectOk(o, i);
      }
      assert e.batches[0] == b;
    }
  }

  lemma {:induction false} FinishKeeps(o: Observer, http: Option<int>)
    requires Inv(o) && IndicesOk(o) && !o.completed
    ensures Inv(Finish(o, http))
  {
    var p := o.(delivery := Some(Finished));
    forall i | 0 <= i < |p.objects| ensures ObjectOk(p, i) {
      assert ObjectOk(o, i);
    }
    assert forall id :: Waiting(p, id) == Waiting(o, id);
    EmitKeeps(p, http);
  }

  lemma {:induction false} AbortKeeps(o: Observer, http: Option<int>)
    requires Inv(o) && IndicesOk(o) && !o.completed
    ensures Inv(Abort(o, http))
  {
    // the observer completes at once, so what is claimed of the objects until then is claimed of the result
    var p := o.(delivery := Some(Aborted), objects := WithdrawAll(o));
    var e := Emit(p, http);
    var b := Batch(p, http);
    forall i | 0 <= i < |o.objects|
      ensures !Responded(p.objects[i].outcome) && SameCall(p.objects[i], o.messages[i]) && ObjectOk(e, i)
    {
      assert ObjectOk(o, i);
      assert o.records[i] == i;
    }
    forall i | 0 <= i < |b| && i < |o.messages| ensures RecordOk(e, i, b[i]) {
      assert !Responded(p.objects[i].outcome);
    }
    assert e.batches[0] == b;
  }

  // ----- messages -----

  lemma {:induction false} ReceiveLists(o: Observer, m: Incoming)
    requires Inv(o) && !o.completed
    ensures ListsOk(Receive(o, m))
  {
    var r := Receive(o, m);
    assert r.messages[..|o.messages|] == o.messages;
    forall id: RequestId ensures Waiting(r, id) == Carriers(r.messages, id) {
      assert Waiting(o, id) == Carriers(o.messages, id);
    }
  }

  lemma {:induction false} ReceiveObject(o: Observer, m: Incoming, i: nat)
    requires Inv(o) && !o.completed && i <= |o.objects|
    ensures ObjectOk(Receive(o, m), i)
  {
    if i < |o.objects| {
      assert ObjectOk(o, i);
    } else {
      SendsNone(o.started, i);
      CountNone(o.flights, i);
    }
  }

  lemma {:induction false} ReceiveKeeps(o: Observer, m: Incoming)
    requires Inv(o)
    ensures Inv(Receive(o, m))
  {
    if !o.completed {
      ReceiveLists(o, m);
      forall i | 0 <= i <= |o.objects| ensures ObjectOk(Receive(o, m), i) {
        ReceiveObject(o, m, i);
      }
    }
  }

  // ----- sends -----

  predicate OnlyCarrier(ms: seq<Incoming>, id: RequestId, i: nat) {
    i < |ms| && forall j :: 0 <= j < |ms| ==> (Carries(ms[j], id) <==> j == i)
  }

  lemma {:induction false} SoleCarrier(ms: seq<Incoming>, id: RequestId, i: nat)
    ensures Carriers(ms, id) == [i] <==> OnlyCarrier(ms, id, i)
  {
    var c := Carriers(ms, id);
    CarriersExact(ms, id);
    CarriersSeparate(ms, id);
    if c == [i] {
      assert i in c;
      assert forall k :: k in c <==> k == i;
    }
    if OnlyCarrier(ms, id, i) {
      assert i in c;
      assert forall k :: k in c ==> k == i;
      assert |c| == 1;
      assert c == [i];
    }
  }

  /** A response is matched exactly when its id was carried by one request so far, and then to that request:
      duplicate ids are ambiguous and match nothing. */
  lemma {:induction false} MatchIsUnambiguous(o: Observer, m: Outgoing, i: nat)
    requires Inv(o)
    ensures Matched(o, m) == Some(i) <==>
            && !o.completed && m.id.Some? && m.body != OtherBody
            && OnlyCarrier(o.messages, m.id.value, i)
  {
    if !o.completed && m.id.Some? {
      var id := m.id.value;
      SoleCarrier(o.messages, id, i);
      assert Waiting(o, id) == Carriers(o.messages, id);
      assert |Waiting(o, id)| == 1 ==> Waiting(o, id) == [Waiting(o, id)[0]];
    }
  }

  lemma {:induction false} AnswerKeepsCall(r: Rpc, m: Incoming, b: Body)
    requires SameCall(r, m) && m.Request? && b != OtherBody
    ensures SameCall(Answer(r, b), m) && Responded(Answer(r, b).outcome)
    ensures Answer(r, b) == Answer(RpcOf(m), b)
  {
  }

  lemma {:induction false} StartObject(o: Observer, m: Outgoing, j: nat)
    requires Inv(o) && IndicesOk(o) && j < |o.objects| && Matched(o, m).Some?
    ensures ObjectOk(StartSend(o, m), j)
  {
    var i := Matched(o, m).value;
    MatchIsUnambiguous(o, m, i);
    assert ObjectOk(o, j);
    assert ObjectOk(o, i);
    CountPush(o.flights, i, j);
    SendsPush(o.started, Start(i, m.body), j);
    assert Carries(o.messages[i], m.id.value);
    AnswerKeepsCall(o.objects[i], o.messages[i], m.body);
  }

  lemma {:induction false} StartKeeps(o: Observer, m: Outgoing)
    requires Inv(o) && IndicesOk(o)
    ensures Inv(StartSend(o, m))
  {
    if Matched(o, m).Some? {
      var s := StartSend(o, m);
      forall j | 0 <= j < |o.objects| ensures ObjectOk(s, j) {
        StartObject(o, m, j);
      }
      assert forall id :: Waiting(s, id) == Waiting(o, id);
    }
  }

  function Landed(o: Observer, k: nat, ok: bool): Observer
    requires IndicesOk(o) && k < |o.flights|
  {
    var i := o.flights[k];
    o.(objects := if ok then o.objects else o.objects[i := Unanswered(o.objects[i])],
       flights := o.flights[..k] + o.flights[k + 1..],
       delivered := if ok then o.delivered + {i} else o.delivered)
  }

  lemma {:induction false} LandedObject(o: Observer, k: nat, ok: bool, j: nat)
    requires Inv(o) && IndicesOk(o) && k < |o.flights| && j < |o.objects|
    ensures ObjectOk(Landed(o, k, ok), j)
  {
    var i := o.flights[k];
    assert ObjectOk(o, j);
    assert ObjectOk(o, i);
    CountDrop(o.flights, k, j);
    CountPositive(o.flights, i);
    assert i in o.flights;
  }

  lemma {:induction false} LandedReady(o: Observer, k: nat, ok: bool)
    requires Inv(o) && IndicesOk(o) && k < |o.flights|
    ensures Ready(Landed(o, k, ok))
  {
    var l := Landed(o, k, ok);
    forall j | 0 <= j < |o.objects| ensures ObjectOk(l, j) {
      LandedObject(o, k, ok, j);
    }
    assert forall id :: Waiting(l, id) == Waiting(o, id);
    if o.completed {
      var b := o.batches[0];
      forall i | 0 <= i < |b| && i < |o.messages| ensures RecordOk(l, i, b[i]) {
        assert RecordOk(o, i, b[i]);
      }
    }
  }

  lemma {:induction false} EndKeeps(o: Observer, k: nat, ok: bool, http: Option<int>)
    requires Inv(o) && IndicesOk(o) && k < |o.flights|
    ensures Inv(EndSend(o, k, ok, http))
  {
    LandedReady(o, k, ok);
    InvIndices(Landed(o, k, ok));
    EmitKeeps(Landed(o, k, ok), http);
  }

  // ----- runs -----

  lemma {:induction false} HandleKeeps(o: Observer, e: Event)
    requires Inv(o)
    ensures IndicesOk(o) && Inv(Handle(o, e))
  {
    InvIndices(o);
    match e
    case FinishEvent(http) => if !o.completed { FinishKeeps(o, http); }
    case CloseEvent(finished, http) =>
      if !o.completed {
        if finished { FinishKeeps(o, http); } else { AbortKeeps(o, http); }
      }
    case ErrorEvent(http) => if !o.completed { AbortKeeps(o, http); }
    case MessageEvent(m) => ReceiveKeeps(o, m);
    case SendEvent(m) => StartKeeps(o, m);
    case SentEvent(k, ok, http) => if k < |o.flights| { EndKeeps(o, k, ok, http); }
  }

  lemma {:induction false} FreshInv()
    ensures Inv(Fresh)
  {
    assert forall id: RequestId :: Waiting(Fresh, id) == Carriers([], id);
  }

  /** `After(es)` is the observer after the events `es`, in that order. */
  ghost predicate Reaches(o: Observer, es: seq<Event>, end: Observer)
    decreases |es|
  {
    if es == [] then end == o else IndicesOk(o) && Reaches(Handle(o, es[0]), es[1..], end)
  }

  lemma {:induction false} RunKeeps(o: Observer, es: seq<Event>, end: Observer)
    requires Inv(o) && Reaches(o, es, end)
    ensures Inv(end)
    decreases |es|
  {
    if es != [] {
      HandleKeeps(o, es[0]);
      RunKeeps(Handle(o, es[0]), es[1..], end);
    }
  }

  /** No event is refused: every list of events is a run. */
  lemma {:induction false} EveryListRuns(o: Observer, es: seq<Event>) returns (end: Observer)
    requires Inv(o)
    ensures Reaches(o, es, end)
    decreases |es|
  {
    end := o;
    if es != [] {
      HandleKeeps(o, es[0]);
      end := EveryListRuns(Handle(o, es[0]), es[1..]);
    }
  }

  /** After any events: at most one batch, out as soon as the delivery is known and is aborted or has nothing in
      flight, with one record per message (or one for none), each about its own message. */
  lemma {:induction false} ReportsOnce(es: seq<Event>, end: Observer)
    requires Reaches(Fresh, es, end)
    ensures |end.batches| <= 1
    ensures end.batches == [] <==> end.delivery.None? || (end.delivery == Some(Finished) && end.flights != [])
    ensures end.batches != [] ==> BatchOk(end, end.batches[0])
  {
    FreshInv();
    RunKeeps(Fresh, es, end);
    if end.completed {
      assert BatchOk(end, end.batches[0]);
    }
  }

  /** An aborted delivery reports every request as unanswered. */
  lemma {:induction false} AbortedReportsNothing(es: seq<Event>, end: Observer, i: nat)
    requires Reaches(Fresh, es, end) && end.batches != [] && end.delivery == Some(Aborted)
    requires i < |end.messages| && end.messages[i].Request?
    ensures |end.batches| == 1 && i < |end.batches[0]|
    ensures end.batches[0][i].rpc.outcome == NoResponse && end.batches[0][i].delivery == Aborted
  {
    ReportsOnce(es, end);
    assert RecordOk(end, i, end.batches[0][i]);
  }

  /** A finished delivery reports a response only when a send of it completed; and when exactly one send was matched
      to a request and it completed, it reports that send's answer. */
  lemma {:induction false} FinishedReportsSends(es: seq<Event>, end: Observer, i: nat)
    requires Reaches(Fresh, es, end) && end.batches != [] && end.delivery == Some(Finished)
    requires i < |end.messages|
    ensures |end.batches| == 1 && i < |end.batches[0]|
    ensures Responded(end.batches[0][i].rpc.outcome) ==> i in end.delivered
    ensures |Sends(end.started, i)| == 1 && i in end.delivered ==>
              end.batches[0][i].rpc == Answer(RpcOf(end.messages[i]), Sends(end.started, i)[0])
    ensures |Sends(end.started, i)| == 1 ==> (Responded(end.batches[0][i].rpc.outcome) <==> i in end.delivered)
  {
    ReportsOnce(es, end);
    assert RecordOk(end, i, end.batches[0][i]);
  }

  /** Nothing changes a batch that is out, and no message is added to it. */
  lemma {:induction false} BatchIsFinal(o: Observer, es: seq<Event>, end: Observer)
    requires Inv(o) && o.completed && Reaches(o, es, end)
    ensures end.batches == o.batches && end.messages == o.messages && end.started == o.started
    decreases |es|
  {
    if es != [] {
      HandleKeeps(o, es[0]);
      BatchIsFinal(Handle(o, es[0]), es[1..], end);
    }
  }

  // ----- what a finished delivery reports, exactly -----

  /** A record is written when a send is matched to it, and again when such a send fails. */
  datatype Write = Answers(index: nat, body: Body) | Loses(index: nat)

  /** What one event writes. */
  function WriteOf(o: Observer, e: Event): seq<Write>
    requires IndicesOk(o)
  {
    match e
    case SendEvent(m) => if Matched(o, m).Some? then [Answers(Matched(o, m).value, m.body)] else []
    case SentEvent(k, ok, _) => if k < |o.flights| && !ok then [Loses(o.flights[k])] else []
    case _ => []
  }

  /** What a run writes, in order. */
  ghost function Writes(o: Observer, es: seq<Event>): seq<Write>
    requires Inv(o)
    decreases |es|
  {
    if es == [] then []
    else
      HandleKeeps(o, es[0]);
      WriteOf(o, es[0]) + Writes(Handle(o, es[0]), es[1..])
  }

  function LastWrite(ws: seq<Write>, i: nat): Option<Write> {
    if ws == [] then None
    else if ws[|ws| - 1].index == i then Some(ws[|ws| - 1])
    else LastWrite(ws[..|ws| - 1], i)
  }

  /** The record of a message after its last write. */
  function Written(m: Incoming, w: Option<Write>): Rpc {
    if w.Some? && w.value.Answers? then Answer(RpcOf(m), w.value.body) else RpcOf(m)
  }

  lemma {:induction false} LastWritePush(ws: seq<Write>, w: Write, i: nat)
    ensures LastWrite(ws + [w], i) == if w.index == i then Some(w) else LastWrite(ws, i)
    ensures LastWrite(ws + [], i) == LastWrite(ws, i)
  {
    assert (ws + [w])[..|ws|] == ws && ws + [] == ws;
  }

  lemma {:induction false} LastWriteNone(ws: seq<Write>, i: nat)
    requires forall k :: 0 <= k < |ws| ==> ws[k].index < i
    ensures LastWrite(ws, i) == None
  {
    if ws != [] { LastWriteNone(ws[..|ws| - 1], i); }
  }

  ghost predicate ObjectTracks(o: Observer, ws: seq<Write>, i: nat)
    requires i < |o.objects| && |o.messages| == |o.objects|
  {
    o.objects[i] == Written(o.messages[i], LastWrite(ws, i))
  }

  ghost predicate BatchTracks(o: Observer, ws: seq<Write>) {
    && |o.batches| == 1 && |o.batches[0]| >= |o.messages| && o.flights == []
    && forall i :: 0 <= i < |o.messages| ==> o.batches[0][i].rpc == Written(o.messages[i], LastWrite(ws, i))
  }

  /** Objects, and after a finished delivery the batch, hold what was last written to them. */
  ghost predicate Tracks(o: Observer, ws: seq<Write>) {
    && |o.messages| == |o.objects|
    && (forall k :: 0 <= k < |ws| ==> ws[k].index < |o.objects|)
    && (!o.completed ==> forall i :: 0 <= i < |o.objects| ==> ObjectTracks(o, ws, i))
    && (o.completed && o.delivery == Some(Finished) ==> BatchTracks(o, ws))
  }

  lemma {:induction false} EmitTracks(o: Observer, ws: seq<Write>, http: Option<int>)
    requires ListsOk(o) && IndicesOk(o) && Tracks(o, ws) && (!o.completed ==> o.batches == [])
    ensures Tracks(Emit(o, http), ws)
  {
    var e := Emit(o, http);
    if e != o && o.delivery == Some(Finished) {
      var b := Batch(o, http);
      forall i | 0 <= i < |o.messages| ensures b[i].rpc == Written(o.messages[i], LastWrite(ws, i)) {
        assert ObjectTracks(o, ws, i);
      }
      assert e.batches == [b];
    }
  }

  lemma {:induction false} FinishTracks(o: Observer, ws: seq<Write>, http: Option<int>)
    requires Inv(o) && IndicesOk(o) && !o.completed && Tracks(o, ws)
    ensures Tracks(Finish(o, http), ws)
  {
    var p := o.(delivery := Some(Finished));
    assert forall id :: Waiting(p, id) == Waiting(o, id);
    forall i | 0 <= i < |p.objects| ensures ObjectTracks(p, ws, i) {
      assert ObjectTracks(o, ws, i);
    }
    EmitTracks(p, ws, http);
  }

  lemma {:induction false} ReceiveTracks(o: Observer, ws: seq<Write>, m: Incoming)
    requires Inv(o) && Tracks(o, ws)
    ensures Tracks(Receive(o, m), ws)
  {
    if !o.completed {
      LastWriteNone(ws, |o.objects|);
      forall i | 0 <= i < |o.objects| + 1 ensures ObjectTracks(Receive(o, m), ws, i) {
        assert i < |o.objects| ==> ObjectTracks(o, ws, i);
      }
    }
  }

  lemma {:induction false} StartTracks(o: Observer, ws: seq<Write>, m: Outgoing)
    requires Inv(o) && IndicesOk(o) && Tracks(o, ws)
    ensures Tracks(StartSend(o, m), ws + WriteOf(o, SendEvent(m)))
  {
    assert ws + [] == ws;
    if Matched(o, m).Some? {
      var i := Matched(o, m).value;
      var w := Answers(i, m.body);
      MatchIsUnambiguous(o, m, i);
      assert Carries(o.messages[i], m.id.value) && ObjectOk(o, i);
      AnswerKeepsCall(o.objects[i], o.messages[i], m.body);
      forall j | 0 <= j < |o.objects| ensures ObjectTracks(StartSend(o, m), ws + [w], j) {
        LastWritePush(ws, w, j);
        assert ObjectTracks(o, ws, j);
      }
    }
  }

  lemma {:induction false} LandedTracks(o: Observer, ws: seq<Write>, k: nat, ok: bool)
    requires Inv(o) && IndicesOk(o) && k < |o.flights| && Tracks(o, ws)
    ensures Tracks(Landed(o, k, ok), if ok then ws else ws + [Loses(o.flights[k])])
  {
    var i, l := o.flights[k], Landed(o, k, ok);
    assert ObjectOk(o, i);
    CountPositive(o.flights, i);
    assert i in o.flights;
    var ws' := if ok then ws else ws + [Loses(i)];
    if !o.completed {
      forall j | 0 <= j < |o.objects| ensures ObjectTracks(l, ws', j) {
        LastWritePush(ws, Loses(i), j);
        assert ObjectTracks(o, ws, j);
      }
    }
  }

  lemma {:induction false} EndTracks(o: Observer, ws: seq<Write>, k: nat, ok: bool, http: Option<int>)
    requires Inv(o) && IndicesOk(o) && k < |o.flights| && Tracks(o, ws)
    ensures Tracks(EndSend(o, k, ok, http), ws + WriteOf(o, SentEvent(k, ok, http)))
  {
    var ws' := if ok then ws else ws + [Loses(o.flights[k])];
    assert ws + WriteOf(o, SentEvent(k, ok, http)) == ws';
    var l := Landed(o, k, ok);
    LandedReady(o, k, ok);
    InvIndices(l);
    LandedTracks(o, ws, k, ok);
    EmitTracks(l, ws', http);
    EndIsLandedEmitted(o, k, ok, http);
  }

  lemma {:induction false} EndIsLandedEmitted(o: Observer, k: nat, ok: bool, http: Option<int>)
    requires IndicesOk(o) && k < |o.flights| && IndicesOk(Landed(o, k, ok))
    ensures EndSend(o, k, ok, http) == Emit(Landed(o, k, ok), http)
  {
  }

  lemma {:induction false} HandleTracks(o: Observer, ws: seq<Write>, e: Event)
    requires Inv(o) && IndicesOk(o) && Tracks(o, ws)
    ensures Tracks(Handle(o, e), ws + WriteOf(o, e))
  {
    assert ws + [] == ws;
    match e
    case FinishEvent(http) => if !o.completed { FinishTracks(o, ws, http); }
    case CloseEvent(finished, http) => if !o.completed && finished { FinishTracks(o, ws, http); }
    case ErrorEvent(_) =>
    case MessageEvent(m) => ReceiveTracks(o, ws, m);
    case SendEvent(m) => StartTracks(o, ws, m);
    case SentEvent(k, ok, http) => if k < |o.flights| { EndTracks(o, ws, k, ok, http); }
  }

  lemma {:induction false} WritesStep(o: Observer, es: seq<Event>)
    requires Inv(o) && es != []
    ensures IndicesOk(o) && Inv(Handle(o, es[0]))
    ensures Writes(o, es) == WriteOf(o, es[0]) + Writes(Handle(o, es[0]), es[1..])
  {
    HandleKeeps(o, es[0]);
  }

  lemma {:induction false} Regroup<T>(a: seq<T>, b: seq<T>, c: seq<T>)
    ensures a + b + c == a + (b + c)
  {
  }

  lemma {:induction false} RunTracks(o: Observer, ws: seq<Write>, es: seq<Event>, end: Observer)
    requires Inv(o) && Tracks(o, ws) && Reaches(o, es, end)
    ensures Tracks(end, ws + Writes(o, es)) && Inv(end)
    decreases |es|
  {
    if es == [] {
      assert ws + [] == ws;
    } else {
      WritesStep(o, es);
      var o', w := Handle(o, es[0]), WriteOf(o, es[0]);
      HandleTracks(o, ws, es[0]);
      RunTracks(o', ws + w, es[1..], end);
      Regroup(ws, w, Writes(o', es[1..]));
    }
  }

  /** In a finished delivery the record of a message is exactly its last write: it reports a response if and only if
      the last thing that happened to it was a matched send starting, and then that send's answer, however many sends
      were matched to it and in whatever order they ended. */
  lemma {:induction false} FinishedReportsLastWrite(es: seq<Event>, end: Observer, i: nat)
    requires Reaches(Fresh, es, end) && end.batches != [] && end.delivery == Some(Finished)
    requires i < |end.messages|
    ensures Inv(Fresh) && |end.batches| == 1 && i < |end.batches[0]|
    ensures var last := LastWrite(Writes(Fresh, es), i);
            && end.batches[0][i].rpc == Written(end.messages[i], last)
            && (Responded(end.batches[0][i].rpc.outcome) <==> last.Some? && last.value.Answers?)
  {
    FreshInv();
    var ws := Writes(Fresh, es);
    RunTracks(Fresh, [], es, end);
    assert [] + ws == ws;
    FinishedBatch(end, ws, i);
    WritesAreAnswers(Fresh, es);
    LastWriteIsOne(ws, i);
    WrittenResponds(end.messages[i], LastWrite(ws, i));
  }

  lemma {:induction false} FinishedBatch(o: Observer, ws: seq<Write>, i: nat)
    requires Tracks(o, ws) && Inv(o) && o.batches != [] && o.delivery == Some(Finished) && i < |o.messages|
    ensures |o.batches| == 1 && i < |o.batches[0]| && o.batches[0][i].rpc == Written(o.messages[i], LastWrite(ws, i))
  {
    assert BatchTracks(o, ws);
  }

  lemma {:induction false} WrittenResponds(m: Incoming, w: Option<Write>)
    requires w.Some? && w.value.Answers? ==> w.value.body != OtherBody
    ensures Responded(Written(m, w).outcome) <==> w.Some? && w.value.Answers?
  {
  }

  lemma {:induction false} LastWriteIsOne(ws: seq<Write>, i: nat)
    ensures LastWrite(ws, i).Some? ==> LastWrite(ws, i).value in ws && LastWrite(ws, i).value.index == i
  {
    if ws != [] { LastWriteIsOne(ws[..|ws| - 1], i); }
  }

  /** Only final responses are written. */
  lemma {:induction false} WritesAreAnswers(o: Observer, es: seq<Event>)
    requires Inv(o)
    ensures forall w :: w in Writes(o, es) && w.Answers? ==> w.body != OtherBody
    decreases |es|
  {
    if es != [] {
      HandleKeeps(o, es[0]);
      WritesAreAnswers(Handle(o, es[0]), es[1..]);
    }
  }

  // ----- why exactly one send -----

  const ASKED := Request("a", ToolsList, None)
  const ANSWERED := Outgoing(Some("a"), ResultBody(false, None, None))

  const ANSWER := Rpc(ToolsList, None, ResultOutcome, None, None)
  const SILENCE := Rpc(ToolsList, None, NoResponse, None, None)

  /** The message came and its answer was delivered. */
  const DELIVERED :=
      Observer([ANSWER], [0], map["a" := [0]], false, None, [], [ASKED], [Start(0, ANSWERED.body)], {0}, [])

  lemma {:induction false} FirstSend()
    ensures EndSend(StartSend(Receive(Fresh, ASKED), ANSWERED), 0, true, None) == DELIVERED
  {
    var o := StartSend(Receive(Fresh, ASKED), ANSWERED);
    assert o.flights == [0] && o.flights[..0] + o.flights[1..] == [];
  }

  lemma {:induction false} SecondSend()
    ensures EndSend(StartSend(DELIVERED, ANSWERED), 0, false, None) ==
            DELIVERED.(objects := [SILENCE], started := DELIVERED.started + [Start(0, ANSWERED.body)])
  {
    var o := StartSend(DELIVERED, ANSWERED);
    assert o.flights == [0] && o.flights[..0] + o.flights[1..] == [];
  }

  lemma {:induction false} FinishAfterLoss(o: Observer)
    requires o == DELIVERED.(objects := [SILENCE], started := DELIVERED.started + [Start(0, ANSWERED.body)])
    ensures Finish(o, None).batches == [[Record(SILENCE, Finished, None)]] && Finish(o, None).delivered == {0}
  {
    var last := o.(delivery := Some(Finished));
    assert Snapshots(last) == [SILENCE];
    assert Batch(last, None) == [Record(SILENCE, Finished, None)];
  }

  /** A delivered response need not be reported: a second send under the same id that fails is the last write. */
  lemma {:induction false} SecondSendHidesFirst()
    ensures var o := EndSend(StartSend(Receive(Fresh, ASKED), ANSWERED), 0, true, None);
            var end := Finish(EndSend(StartSend(o, ANSWERED), 0, false, None), None);
            0 in end.delivered && end.batches == [[Record(SILENCE, Finished, None)]]
  {
    FirstSend();
    SecondSend();
    FinishAfterLoss(EndSend(StartSend(DELIVERED, ANSWERED), 0, false, None));
  }
}
