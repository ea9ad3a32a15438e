/** Offline replay of an accepted recording: the recorded dispatches, once each and in order. */
module Replay {
  import opened Basics
  import opened Domain
  import opened History
  import opened Audit

  datatype ReplayCall = ReplayCall(tenant: nat, operation: OperationId, request: Request)

  /** The next recorded dispatch, with the recorded request, confirmed. */
  ghost predicate Replayable(b: Body, position: nat, c: ReplayCall) {
    && c.tenant == b.task.tenant
    && position < |DispatchOrder(b.events)|
    && DispatchOrder(b.events)[position] == c.operation
    && exists o :: o in b.operations && o.id == c.operation && o.request == c.request && o.status == Succeeded && o.Confirmed()
  }

  /** The calls an executor accepts when it is offered `calls` from the start. */
  ghost function AcceptedCalls(b: Body, calls: seq<ReplayCall>): seq<ReplayCall> {
    if calls == [] then []
    else
      var before, c := AcceptedCalls(b, calls[..|calls| - 1]), calls[|calls| - 1];
      if Replayable(b, |before|, c) then before + [c] else before
  }

  function ById(b: Body): map<OperationId, AuditOperation> { IndexBy(b.operations, (o: AuditOperation) => o.id) }

  lemma ByIdFacts(r: Recording)
    requires Acceptable(r)
    ensures forall o :: o in r.body.operations ==> o.id in ById(r.body) && ById(r.body)[o.id] == o
    ensures forall id :: id in ById(r.body) ==> ById(r.body)[id] in r.body.operations && ById(r.body)[id].id == id
  {
    hide WellFormed, HistoryAccepted, Agrees;
    IndexFacts(r.body, ById(r.body));
  }

  class ReplayExecutor {
    const body: Body
    const report: Report
    const operations: map<OperationId, AuditOperation>
    var position: nat
    ghost var offered: seq<ReplayCall>

    ghost predicate Valid()
      reads this
    {
      && report.tenant == body.task.tenant
      && report.dispatchOrder == DispatchOrder(body.events)
      && (forall o :: o in body.operations ==> o.id in operations && operations[o.id] == o)
      && (forall id :: id in operations ==> operations[id] in body.operations && operations[id].id == id)
      && position == |AcceptedCalls(body, offered)|
    }

    constructor (recording: Recording, report: Report)
      requires Acceptable(recording)
      requires report.tenant == recording.body.task.tenant && report.dispatchOrder == DispatchOrder(recording.body.events)
      ensures Valid() && body == recording.body && offered == []
    {
      hide Acceptable, ById;
      body := recording.body;
      this.report := report;
      operations := ById(recording.body);
      position := 0;
      offered := [];
      ByIdFacts(recording);
    }

    /** Opens a recording: the checker decides, and a refused recording gives no executor. */
    static method Load(recording: Recording) returns (executor: ReplayExecutor?)
      ensures executor != null <==> Acceptable(recording)
      ensures executor != null ==> fresh(executor) && executor.Valid() && executor.body == recording.body && executor.offered == []
    {
      hide Acceptable, ById, Unresolved, FullyConfirmed;
      var report := CheckRecording(recording);
      if report.None? { return null; }
      executor := new ReplayExecutor(recording, report.value);
    }

    /** Accepts exactly the next recorded call and returns its recorded result; any other call changes nothing. */
    method Execute(c: ReplayCall) returns (r: Option<RemoteResult>)
      requires Valid()
      modifies this
      ensures Valid() && offered == old(offered) + [c]
      ensures r.Some? <==> Replayable(body, old(position), c)
      ensures position == old(position) + (if r.Some? then 1 else 0)
      ensures r.Some? ==> exists o :: o in body.operations && o.id == c.operation && o.result == r
    {
      ghost var before := offered;
      offered := offered + [c];
      assert offered[..|before|] == before;
      if c.tenant != report.tenant { return None; }
      if position >= |report.dispatchOrder| || report.dispatchOrder[position] != c.operation { return None; }
      if c.operation !in operations || operations[c.operation].request != c.request { return None; }
      var o := operations[c.operation];
      if o.status != Succeeded || !o.Confirmed() { return None; }
      position := position + 1;
      r := o.result;
    }

    method AssertConsumed() returns (ok: bool)
      requires Valid()
      ensures ok <==> |AcceptedCalls(body, offered)| == |DispatchOrder(body.events)|
    {
      ok := position == |report.dispatchOrder|;
    }
  }

  /** The accepted calls are a prefix of the dispatch order, each with its recorded request. */
  lemma {:induction false} AcceptedIsPrefix(b: Body, calls: seq<ReplayCall>)
    ensures |AcceptedCalls(b, calls)| <= |DispatchOrder(b.events)|
    ensures forall i :: 0 <= i < |AcceptedCalls(b, calls)| ==>
                          AcceptedCalls(b, calls)[i].operation == DispatchOrder(b.events)[i]
                          && Replayable(b, i, AcceptedCalls(b, calls)[i])
  {
    if calls != [] { AcceptedIsPrefix(b, calls[..|calls| - 1]); }
  }

  /** No sequence of calls replays an operation twice. */
  lemma ReplayedOnce(r: Recording, calls: seq<ReplayCall>)
    requires Acceptable(r)
    ensures forall i, j :: 0 <= i < j < |AcceptedCalls(r.body, calls)| ==>
                             AcceptedCalls(r.body, calls)[i].operation != AcceptedCalls(r.body, calls)[j].operation
  {
    AcceptedIsPrefix(r.body, calls);
    AcceptedOrdersDistinct(r.body.events, Ids(r.body), Guarded(r.body));
  }

  /** A recording can be consumed exactly when every dispatch it records was confirmed. */
  lemma ConsumableIffConfirmed(r: Recording)
    requires Acceptable(r)
    ensures (exists calls :: |AcceptedCalls(r.body, calls)| == |DispatchOrder(r.body.events)|) <==> FullyConfirmed(r.body)
  {
    var b := r.body;
    if calls :| |AcceptedCalls(b, calls)| == |DispatchOrder(b.events)| {
      AcceptedIsPrefix(b, calls);
      forall o | o in b.operations && o.id in DispatchOrder(b.events) ensures o.status == Succeeded {
        var i :| 0 <= i < |DispatchOrder(b.events)| && DispatchOrder(b.events)[i] == o.id;
        assert Replayable(b, i, AcceptedCalls(b, calls)[i]);
        UniqueOperation(b, o);
      }
    }
    if FullyConfirmed(b) {
      var calls := RecordedCalls(r, |DispatchOrder(b.events)|);
      assert |AcceptedCalls(b, calls)| == |DispatchOrder(b.events)|;
    }
  }

  lemma UniqueOperation(b: Body, o: AuditOperation)
    requires IdentitiesDistinct(b) && o in b.operations
    ensures forall p :: p in b.operations && p.id == o.id ==> p == o
  {
  }

  /** Offering the first `n` recorded dispatches, in order, gets them all accepted. */
  lemma {:induction false} RecordedCalls(r: Recording, n: nat) returns (calls: seq<ReplayCall>)
    requires Acceptable(r) && FullyConfirmed(r.body) && n <= |DispatchOrder(r.body.events)|
    ensures |AcceptedCalls(r.body, calls)| == n
  {
    var b := r.body;
    if n == 0 {
      calls := [];
    } else {
      var before := RecordedCalls(r, n - 1);
      var op := DispatchOrder(b.events)[n - 1];
      AcceptedOrdersDistinct(b.events, Ids(b), Guarded(b));
      assert op in Ids(b);
      var o :| o in b.operations && o.id == op;
      assert OperationAgrees(b, o);
      var c := ReplayCall(b.task.tenant, op, o.request);
      calls := before + [c];
      assert calls[..|calls| - 1] == before;
    }
  }
}
