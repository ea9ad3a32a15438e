/** The simulated remote authority: idempotent by operation identity, effects and receipts committed together. */
module Authority {
  import opened Basics
  import opened Domain

  datatype Fault = ResponseLost | RejectRequest | QueryHidden

  datatype FaultRow = FaultRow(mode: Fault, remaining: nat)

  datatype ResourceState = ResourceState(
    revision: int, candidate: Sha, base: Sha, image: Sha, replicas: int, healthy: bool, effectCount: nat)

  /** The request stands for its own digest. */
  datatype Receipt = Receipt(request: Request, result: RemoteResult)

  datatype Remote = Remote(
    receipts: map<OperationId, Receipt>, resources: map<Resource, ResourceState>, faults: map<OperationId, FaultRow>)

  datatype Answer = Answered(result: RemoteResult) | ConfirmedFailure | UnknownOutcome

  const FIXED_CANDIDATE: Sha := 1
  const BASELINE: Sha := 2
  const HEALTHY_IMAGE: Sha := 3
  const INITIAL := ResourceState(1, FIXED_CANDIDATE, BASELINE, HEALTHY_IMAGE, 2, false, 0)

  function Snapshot(m: Remote, resource: Resource): ResourceState {
    if resource in m.resources then m.resources[resource] else INITIAL
  }

  predicate HasFault(m: Remote, op: OperationId, mode: Fault) { op in m.faults && m.faults[op].mode == mode }

  /** The optimistic checks: a versioned call names the revision it read, a merge names both commits. */
  predicate Conflicts(state: ResourceState, call: Call) {
    || (call.Versioned() && call.expectedRevision != state.revision)
    || (call.MergePr? && (call.source != state.candidate || call.target != state.base))
  }

  function Affected(state: ResourceState, call: Call): ResourceState {
    var s := match call
      case CreatePr(candidate, _) => state.(candidate := candidate)
      case Deploy(image, _) => state.(image := image, healthy := true)
      case Rollback(image, _) => state.(image := image, healthy := true)
      case Runbook(replicas, _) => state.(replicas := replicas, healthy := true)
      case _ => state;
    s.(revision := state.revision + 1, effectCount := state.effectCount + 1)
  }

  function ExecuteTx(m: Remote, op: OperationId, request: Request): (Remote, Answer) {
    if op in m.receipts then
      (m, if m.receipts[op].request == request then Answered(m.receipts[op].result) else ConfirmedFailure)
    else if HasFault(m, op, RejectRequest) then (m, ConfirmedFailure)
    else
      var state := Snapshot(m, request.resource);
      if Conflicts(state, request.call) then (m, ConfirmedFailure)
      else
        var state' := Affected(state, request.call);
        var result := RemoteResult(true, Some(op), request.resource, state'.revision);
        (m.(receipts := m.receipts[op := Receipt(request, result)], resources := m.resources[request.resource := state']),
         if HasFault(m, op, ResponseLost) then UnknownOutcome else Answered(result))
  }

  function QueryTx(m: Remote, op: OperationId): (Remote, Option<RemoteResult>) {
    if HasFault(m, op, QueryHidden) && m.faults[op].remaining > 0 then
      (m.(faults := m.faults[op := m.faults[op].(remaining := m.faults[op].remaining - 1)]), None)
    else (m, if op in m.receipts then Some(m.receipts[op].result) else None)
  }

  function InjectTx(m: Remote, op: OperationId, mode: Fault, remaining: nat): Remote {
    m.(faults := m.faults[op := FaultRow(mode, remaining)])
  }

  class SimulatedSystem {
    var receipts: map<OperationId, Receipt>
    var resources: map<Resource, ResourceState>
    var faults: map<OperationId, FaultRow>

    function Contents(): Remote
      reads this
    {
      Remote(receipts, resources, faults)
    }

    constructor ()
      ensures Contents() == Remote(map[], map[], map[])
    {
      receipts, resources, faults := map[], map[], map[];
    }

    method Inject(op: OperationId, mode: Fault, remaining: nat)
      modifies this
      ensures Contents() == InjectTx(old(Contents()), op, mode, remaining)
    {
      faults := faults[op := FaultRow(mode, remaining)];
    }

    method Query(op: OperationId) returns (result: Option<RemoteResult>)
      modifies this
      ensures (Contents(), result) == QueryTx(old(Contents()), op)
    {
      if op in faults && faults[op].mode == QueryHidden && faults[op].remaining > 0 {
        faults := faults[op := faults[op].(remaining := faults[op].remaining - 1)];
        return None;
      }
      result := if op in receipts then Some(receipts[op].result) else None;
    }

    method Execute(op: OperationId, request: Request) returns (answer: Answer)
      modifies this
      ensures (Contents(), answer) == ExecuteTx(old(Contents()), op, request)
    {
      if op in receipts {
        if receipts[op].request != request { return ConfirmedFailure; }
        return Answered(receipts[op].result);
      }
      if op in faults && faults[op].mode == RejectRequest { return ConfirmedFailure; }
      var call := request.call;
      var state := if request.resource in resources then resources[request.resource] else INITIAL;
      if call.Versioned() && call.expectedRevision != state.revision { return ConfirmedFailure; }
      if call.MergePr? && (call.source != state.candidate || call.target != state.base) { return ConfirmedFailure; }
      if call.CreatePr? {
        state := state.(candidate := call.candidate);
      } else if call.Deploy? || call.Rollback? {
        state := state.(image := call.image, healthy := true);
      } else if call.Runbook? {
        state := state.(replicas := call.replicas, healthy := true);
      }
      state := state.(revision := state.revision + 1, effectCount := state.effectCount + 1);
      var result := RemoteResult(true, Some(op), request.resource, state.revision);
      resources := resources[request.resource := state];
      receipts := receipts[op := Receipt(request, result)];
      if op in faults && faults[op].mode == ResponseLost { return UnknownOutcome; }
      answer := Answered(result);
    }
  }

  // ---------- What the authority keeps, whoever calls it ----------

  function ReceiptsOn(m: Remote, resource: Resource): set<OperationId> {
    set op | op in m.receipts && m.receipts[op].request.resource == resource
  }

  predicate ReceiptSound(m: Remote, op: OperationId)
    requires op in m.receipts
  {
    var c := m.receipts[op];
    && c.result.confirmed
    && c.result.externalId == Some(op)
    && c.result.resource == c.request.resource
    && 1 < c.result.revision <= Snapshot(m, c.request.resource).revision
    && (c.request.call.Versioned() ==> c.request.call.expectedRevision == c.result.revision - 1)
  }

  /** Every revision of a resource was produced by at most one receipt. */
  predicate RevisionsUnique(m: Remote) {
    forall j, k :: j in m.receipts && k in m.receipts && j != k
                   && m.receipts[j].request.resource == m.receipts[k].request.resource
                   ==> m.receipts[j].result.revision != m.receipts[k].result.revision
  }

  /** The effects of a resource are counted by its receipts. */
  predicate ConservedAt(m: Remote, r: Resource) {
    |ReceiptsOn(m, r)| == Snapshot(m, r).effectCount && Snapshot(m, r).revision == 1 + Snapshot(m, r).effectCount
  }

  ghost predicate Conserved(m: Remote) { forall r: Resource :: ConservedAt(m, r) }

  ghost predicate RemoteSound(m: Remote) {
    && (forall op :: op in m.receipts ==> ReceiptSound(m, op))
    && RevisionsUnique(m)
    && Conserved(m)
  }

  /** One call adds at most one receipt, and the effect count of a resource stays the number of its receipts. */
  lemma ExecuteSound(m: Remote, op: OperationId, request: Request)
    requires RemoteSound(m)
    ensures RemoteSound(ExecuteTx(m, op, request).0)
  {
    hide ReceiptSound, RevisionsUnique, Conserved;
    ExecuteConserved(m, op, request);
    forall k | k in ExecuteTx(m, op, request).0.receipts ensures ReceiptSound(ExecuteTx(m, op, request).0, k) {
      ExecuteReceipt(m, op, request, k);
    }
    ExecuteUnique(m, op, request);
  }

  lemma ExecuteConserved(m: Remote, op: OperationId, request: Request)
    requires Conserved(m)
    ensures Conserved(ExecuteTx(m, op, request).0)
  {
    forall r: Resource ensures ConservedAt(ExecuteTx(m, op, request).0, r) {
      ExecuteConservedAt(m, op, request, r);
    }
  }

  lemma ExecuteConservedAt(m: Remote, op: OperationId, request: Request, r: Resource)
    requires ConservedAt(m, r)
    ensures ConservedAt(ExecuteTx(m, op, request).0, r)
  {
    var m' := ExecuteTx(m, op, request).0;
    if m' != m {
      assert ReceiptsOn(m', r) == if r == request.resource then ReceiptsOn(m, r) + {op} else ReceiptsOn(m, r);
    }
  }

  lemma ExecuteReceipt(m: Remote, op: OperationId, request: Request, k: OperationId)
    requires Conserved(m) && k in ExecuteTx(m, op, request).0.receipts
    requires k in m.receipts ==> ReceiptSound(m, k)
    ensures ReceiptSound(ExecuteTx(m, op, request).0, k)
  {
    assert ConservedAt(m, request.resource);
  }

  lemma ExecuteUnique(m: Remote, op: OperationId, request: Request)
    requires RevisionsUnique(m) && forall k :: k in m.receipts ==> ReceiptSound(m, k)
    ensures RevisionsUnique(ExecuteTx(m, op, request).0)
  {
    var m' := ExecuteTx(m, op, request).0;
    if m' != m {
      forall k | k in m.receipts && m.receipts[k].request.resource == request.resource
        ensures m'.receipts[k].result.revision != m'.receipts[op].result.revision
      {
        assert ReceiptSound(m, k);
      }
    }
  }

  lemma SameEffects(m: Remote, m': Remote)
    requires RemoteSound(m) && m'.receipts == m.receipts && m'.resources == m.resources
    ensures RemoteSound(m')
  {
    forall r: Resource ensures ConservedAt(m', r) {
      assert ConservedAt(m, r) && ReceiptsOn(m', r) == ReceiptsOn(m, r);
    }
    forall op | op in m'.receipts ensures ReceiptSound(m', op) { assert ReceiptSound(m, op); }
  }

  /** Repeating a call that committed, even after its response was lost, returns its receipt and changes nothing. */
  lemma ExecuteIdempotent(m: Remote, op: OperationId, request: Request)
    ensures var m' := ExecuteTx(m, op, request).0;
      op in m'.receipts && m'.receipts[op].request == request ==>
        ExecuteTx(m', op, request) == (m', Answered(m'.receipts[op].result))
  {
  }

  /** Optimistic locking: of the versioned calls that name one revision of a resource, at most one ever took effect. */
  lemma OneWinnerPerRevision(m: Remote, j: OperationId, k: OperationId)
    requires RemoteSound(m) && j in m.receipts && k in m.receipts
    requires m.receipts[j].request.resource == m.receipts[k].request.resource
    requires m.receipts[j].request.call.Versioned() && m.receipts[k].request.call.Versioned()
    requires m.receipts[j].request.call.expectedRevision == m.receipts[k].request.call.expectedRevision
    ensures j == k
  {
    assert ReceiptSound(m, j) && ReceiptSound(m, k);
  }
}
