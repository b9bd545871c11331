/** The HTTP completion observer (httpCompletion.ts): event handlers of one request that together emit one batch
of diagnostics, whatever the order of delivery events, messages and overlapping sends. */
module HttpCompletion {
  import opened Common

  type RequestId = string

  datatype Operation = Initialize | ToolsList | ToolsCall | Notification | Other | Invalid

  datatype RpcOutcome = ResultOutcome | ToolError | ProtocolError | NoResponse | NotApplicable

  predicate Responded(o: RpcOutcome) {
    o in {ResultOutcome, ToolError, ProtocolError}
  }

  /** `tool` is a known tool name, or None for none or an unknown one. */
  datatype Rpc = Rpc(operation: Operation, tool: Option<string>, outcome: RpcOutcome, resultStatus: Option<int>,
      resultOk: Option<bool>)

  const EmptyRpc := Rpc(Invalid, None, NoResponse, None, None)

  function Unanswered(r: Rpc): Rpc {
    r.(outcome := NoResponse, resultStatus := None, resultOk := None)
  }

  datatype Delivery = Finished | Aborted

  datatype Record = Record(rpc: Rpc, delivery: Delivery, httpStatus: Option<int>)

  datatype Incoming =
    | NoMethod
    | NoId
    | Request(id: RequestId, operation: Operation, tool: Option<string>)

  datatype Body =
    | ErrorBody
    | ResultBody(isError: bool, httpStatus: Option<int>, ok: Option<bool>)
    | OtherBody

  /** An outgoing message. */
  datatype Outgoing = Outgoing(id: Option<RequestId>, body: Body)

  function Status(s: Option<int>): Option<int> {
    if s.Some? && (s.value == 0 || 100 <= s.value <= 599) then s else None
  }

  /** Rpc objects are shared by the record list, the pending lists and the sends in flight, so they live in
      `objects` and the others hold indices. The last four fields only remember what happened: the messages seen,
      the sends matched to an object, the objects one of whose sends completed without an error, and the batches. */
  datatype Observer = Observer(
    objects: seq<Rpc>, records: seq<nat>, pending: map<RequestId, seq<nat>>,
    completed: bool, delivery: Option<Delivery>, flights: seq<nat>,
    messages: seq<Incoming>, started: seq<Start>, delivered: set<nat>, batches: seq<seq<Record>>)

  datatype Start = Start(index: nat, body: Body)

  const Fresh := Observer([], [], map[], false, None, [], [], [], {}, [])

  // ----- the handlers as functions -----

  predicate IndicesOk(o: Observer) {
    && (forall i :: 0 <= i < |o.records| ==> o.records[i] < |o.objects|)
    && (forall i :: 0 <= i < |o.flights| ==> o.flights[i] < |o.objects|)
    && (forall id :: id in o.pending ==> forall i :: 0 <= i < |o.pending[id]| ==> o.pending[id][i] < |o.objects|)
  }

  function Snapshots(o: Observer): seq<Rpc>
    requires IndicesOk(o)
  {
    if o.records == [] then [EmptyRpc] else seq(|o.records|, i requires 0 <= i < |o.records| => o.objects[o.records[i]])
  }

  function Batch(o: Observer, http: Option<int>): seq<Record>
    requires IndicesOk(o) && o.delivery.Some?
  {
    var s := Snapshots(o);
    seq(|s|, i requires 0 <= i < |s| => Record(s[i], o.delivery.value, http))
  }

  function Emit(o: Observer, http: Option<int>): Observer
    requires IndicesOk(o)
  {
    if o.completed || o.delivery.None? || (o.delivery == Some(Finished) && o.flights != []) then o
    else o.(completed := true, batches := o.batches + [Batch(o, http)], records := [], pending := map[])
  }

  function Finish(o: Observer, http: Option<int>): Observer
    requires IndicesOk(o)
  {
    Emit(o.(delivery := Some(Finished)), http)
  }

  /** A computed response in an interrupted stream is not confirmed delivered. */
  function Withdraw(r: Rpc): Rpc {
    if r.outcome == NotApplicable then r else Unanswered(r)
  }

  function WithdrawAll(o: Observer): seq<Rpc> {
    seq(|o.objects|, i requires 0 <= i < |o.objects| => if i in o.records then Withdraw(o.objects[i]) else o.objects[i])
  }

  function Abort(o: Observer, http: Option<int>): Observer
    requires IndicesOk(o)
  {
    Emit(o.(delivery := Some(Aborted), objects := WithdrawAll(o)), http)
  }

  function RpcOf(m: Incoming): Rpc {
    match m
    case NoMethod => EmptyRpc.(operation := Other, outcome := NotApplicable)
    case NoId => EmptyRpc.(operation := Notification, outcome := NotApplicable)
    case Request(_, op, tool) => Rpc(op, if op == ToolsCall then tool else None, NoResponse, None, None)
  }

  function Receive(o: Observer, m: Incoming): Observer {
    if o.completed then o
    else
      var i := |o.objects|;
      o.(objects := o.objects + [RpcOf(m)],
         messages := o.messages + [m],
         records := o.records + [i],
         pending := if m.Request? then o.pending[m.id := (if m.id in o.pending then o.pending[m.id] else []) + [i]]
             else o.pending)
  }

  /** The record a message answers: none when its id is unknown or ambiguous, or it is not a final response. */
  function Matched(o: Observer, m: Outgoing): Option<nat> {
    if m.id.Some? && m.id.value in o.pending && !o.completed && |o.pending[m.id.value]| == 1 && m.body != OtherBody
    then Some(o.pending[m.id.value][0]) else None
  }

  function Answer(r: Rpc, b: Body): Rpc {
    match b
    case OtherBody => r
    case ErrorBody => r.(outcome := ProtocolError, resultStatus := None, resultOk := None)
    case ResultBody(isError, http, ok) =>
      r.(outcome := if r.operation == ToolsCall && isError then ToolError else ResultOutcome,
         resultStatus := if r.operation == ToolsCall then Status(http) else None,
         resultOk := if r.operation == ToolsCall then ok else None)
  }

  function StartSend(o: Observer, m: Outgoing): Observer
    requires IndicesOk(o)
  {
    match Matched(o, m)
    case None => o
    case Some(i) =>
      o.(objects := o.objects[i := Answer(o.objects[i], m.body)], flights := o.flights + [i],
         started := o.started + [Start(i, m.body)])
  }

  function EndSend(o: Observer, k: nat, ok: bool, http: Option<int>): Observer
    requires IndicesOk(o) && k < |o.flights|
  {
    var i := o.flights[k];
    Emit(o.(objects := if ok then o.objects else o.objects[i := Unanswered(o.objects[i])],
            flights := o.flights[..k] + o.flights[k + 1..],
            delivered := if ok then o.delivered + {i} else o.delivered), http)
  }

  // ----- the handlers as the source writes them -----

  class CompletionObserver {
    var o: Observer

    constructor ()
      ensures o == Fresh
    {
      o := Fresh;
    }

    method EmitOnce(http: Option<int>)
      requires IndicesOk(o)
      modifies this
      ensures o == Emit(old(o), http)
    {
      if o.completed || o.delivery.None? || (o.delivery == Some(Finished) && o.flights != []) {
        return;
      }
      var snapshots := Snapshots(o);
      var batch: seq<Record> := [];
      var i := 0;
      while i < |snapshots|
        invariant 0 <= i <= |snapshots| && |batch| == i
        invariant forall j :: 0 <= j < i ==> batch[j] == Record(snapshots[j], o.delivery.value, http)
      {
        batch := batch + [Record(snapshots[i], o.delivery.value, http)];
        i := i + 1;
      }
      assert batch == Batch(o, http);
      o := o.(completed := true, batches := o.batches + [batch], records := [], pending := map[]);
    }

    method OnFinish(http: Option<int>)
      requires IndicesOk(o)
      modifies this
      ensures o == Finish(old(o), http)
    {
      o := o.(delivery := Some(Finished));
      EmitOnce(http);
    }

    method OnAbort(http: Option<int>)
      requires IndicesOk(o)
      modifies this
      ensures o == Abort(old(o), http)
    {
      var objects := o.objects;
      var i := 0;
      while i < |o.records|
        invariant 0 <= i <= |o.records| && |objects| == |o.objects|
        invariant forall j :: 0 <= j < |objects| ==>
                    objects[j] == if j in o.records[..i] then Withdraw(o.objects[j]) else o.objects[j]
      {
        var k := o.records[i];
        assert o.records[..i + 1] == o.records[..i] + [k];
        if objects[k].outcome != NotApplicable {
          objects := objects[k := Unanswered(objects[k])];
        }
        i := i + 1;
      }
      assert o.records[..|o.records|] == o.records;
      assert objects == WithdrawAll(o);
      o := o.(delivery := Some(Aborted), objects := objects);
      EmitOnce(http);
    }

    method OnClose(writableFinished: bool, http: Option<int>)
      requires IndicesOk(o)
      modifies this
      ensures o == if writableFinished then Finish(old(o), http) else Abort(old(o), http)
    {
      if !writableFinished { OnAbort(http); } else { OnFinish(http); }
    }

    method OnMessage(m: Incoming)
      modifies this
      ensures o == Receive(old(o), m)
    {
      if o.completed { return; }
      var i := |o.objects|;
      o := o.(objects := o.objects + [RpcOf(m)], messages := o.messages + [m], records := o.records + [i]);
      if m.Request? {
        var same := if m.id in o.pending then o.pending[m.id] else [];
        o := o.(pending := o.pending[m.id := same + [i]]);
      }
    }

    /** Up to the inner send. */
    method Send(m: Outgoing) returns (counted: bool)
      requires IndicesOk(o)
      modifies this
      ensures o == StartSend(old(o), m) && counted == Matched(old(o), m).Some?
    {
      var rpc := Matched(o, m);
      if rpc.None? { return false; }
      var i := rpc.value;
      o := o.(objects := o.objects[i := Answer(o.objects[i], m.body)]);
      o := o.(flights := o.flights + [i], started := o.started + [Start(i, m.body)]);
      return true;
    }

    /** After it, or after its error. */
    method Sent(k: nat, ok: bool, http: Option<int>)
      requires IndicesOk(o) && k < |o.flights|
      modifies this
      ensures o == EndSend(old(o), k, ok, http)
    {
      var i := o.flights[k];
      if ok {
        o := o.(delivered := o.delivered + {i});
      } else {
        o := o.(objects := o.objects[i := Unanswered(o.objects[i])]);
      }
      o := o.(flights := o.flights[..k] + o.flights[k + 1..]);
      EmitOnce(http);
    }
  }

  // ----- every interleaving -----

  datatype Event =
    | FinishEvent(http: Option<int>)
    | CloseEvent(writableFinished: bool, http: Option<int>)
    | ErrorEvent(http: Option<int>)
    | MessageEvent(message: Incoming)
    | SendEvent(out: Outgoing)
    | SentEvent(k: nat, ok: bool, http: Option<int>)

  /** Emission takes the three response listeners off. */
  function Handle(o: Observer, e: Event): Observer
    requires IndicesOk(o)
  {
    match e
    case FinishEvent(http) => if o.completed then o else Finish(o, http)
    case CloseEvent(writableFinished, http) =>
      if o.completed then o else if writableFinished then Finish(o, http) else Abort(o, http)
    case ErrorEvent(http) => if o.completed then o else Abort(o, http)
    case MessageEvent(m) => Receive(o, m)
    case SendEvent(m) => StartSend(o, m)
    case SentEvent(k, ok, http) => if k < |o.flights| then EndSend(o, k, ok, http) else o
  }

  function Count(s: seq<nat>, x: nat): nat {
    if s == [] then 0 else Count(s[..|s| - 1], x) + if s[|s| - 1] == x then 1 else 0
  }

  /** The bodies of the sends matched to object `i`, in order. */
  function Sends(s: seq<Start>, i: nat): seq<Body> {
    if s == [] then [] else Sends(s[..|s| - 1], i) + if s[|s| - 1].index == i then [s[|s| - 1].body] else []
  }

  /** The positions of the requests that carry `id`, in order. */
  function Carriers(ms: seq<Incoming>, id: RequestId): seq<nat> {
    if ms == [] then []
    else Carriers(ms[..|ms| - 1], id) + if Carries(ms[|ms| - 1], id) then [|ms| - 1] else []
  }

  predicate Carries(m: Incoming, id: RequestId) {
    m.Request? && m.id == id
  }

  ghost predicate SameCall(r: Rpc, m: Incoming) {
    && r.operation == RpcOf(m).operation && r.tool == RpcOf(m).tool
    && (r.outcome == NotApplicable <==> !m.Request?)
  }

  /** What is reported about message `i`. */
  ghost predicate RecordOk(o: Observer, i: nat, r: Record)
    requires i < |o.messages|
  {
    && SameCall(r.rpc, o.messages[i])
    && (r.delivery == Aborted ==> !Responded(r.rpc.outcome))
    && (Responded(r.rpc.outcome) ==> i in o.delivered)
    && (r.delivery == Finished && i in o.delivered && |Sends(o.started, i)| == 1 ==>
          r.rpc == Answer(RpcOf(o.messages[i]), Sends(o.started, i)[0]) && Responded(r.rpc.outcome))
  }

  ghost predicate BatchOk(o: Observer, b: seq<Record>) {
    && |b| == Max(1, |o.messages|)
    && o.delivery.Some?
    && (forall i :: 0 <= i < |b| ==> b[i].delivery == o.delivery.value)
    && (forall i :: 0 <= i < |b| && i < |o.messages| ==> RecordOk(o, i, b[i]))
    && (o.messages == [] ==> b[0].rpc == EmptyRpc)
    && (o.delivery == Some(Finished) ==> o.flights == [])
  }

  ghost predicate ObjectOk(o: Observer, i: nat)
    requires i < |o.objects| && |o.messages| == |o.objects|
  {
    && SameCall(o.objects[i], o.messages[i])
    && (Sends(o.started, i) != [] ==> o.messages[i].Request?)
    && Count(o.flights, i) <= |Sends(o.started, i)|
    && (i in o.delivered ==> Count(o.flights, i) < |Sends(o.started, i)|)
    && (Responded(o.objects[i].outcome) ==> Count(o.flights, i) > 0 || i in o.delivered)
    && (!o.completed && |Sends(o.started, i)| == 1 && (Count(o.flights, i) > 0 || i in o.delivered) ==>
          o.objects[i] == Answer(RpcOf(o.messages[i]), Sends(o.started, i)[0]) && Responded(o.objects[i].outcome))
  }

  ghost predicate ObjectsOk(o: Observer)
  {
    && |o.messages| == |o.objects|
    && (forall i :: 0 <= i < |o.objects| ==> ObjectOk(o, i))
    && (forall i :: 0 <= i < |o.started| ==> o.started[i].index < |o.objects|)
    && (forall i :: i in o.delivered ==> i < |o.objects|)
    && (forall i :: 0 <= i < |o.flights| ==> o.flights[i] < |o.objects|)
  }

  function Waiting(o: Observer, id: RequestId): seq<nat> {
    if id in o.pending then o.pending[id] else []
  }

  ghost predicate ListsOk(o: Observer) {
    if o.completed then o.records == [] && o.pending == map[]
    else
      && |o.records| == |o.objects|
      && (forall i :: 0 <= i < |o.records| ==> o.records[i] == i)
      && (forall id: RequestId :: Waiting(o, id) == Carriers(o.messages, id))
  }

  /** One batch exactly when the delivery is known and is aborted or has no send in flight. */
  ghost predicate EmissionOk(o: Observer) {
    && (!o.completed ==> o.batches == [] && (o.delivery.None? || (o.delivery == Some(Finished) && o.flights != [])))
    && (o.completed ==> |o.batches| == 1 && BatchOk(o, o.batches[0]))
  }

  ghost predicate Inv(o: Observer) {
    ObjectsOk(o) && ListsOk(o) && EmissionOk(o)
  }
}
