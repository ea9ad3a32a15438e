/** The audit recording and the offline checker that accepts or rejects it. */
module Audit {
  import opened Basics
  import opened Domain
  import opened History

  const MAX_RECORDING_BYTES := 10_000_000
  const MAX_EVENTS := 10_000
  const MAX_OPERATIONS := 100
  const MAX_APPROVALS := 100
  const MAX_ARTIFACTS := 1_000

  datatype AuditTask = AuditTask(
    id: TaskId, tenant: nat, release: Release, version: int, status: TaskStatus, result: Option<TaskResult>, sequence: int)

  datatype AuditOperation = AuditOperation(
    id: OperationId,
    request: Request,
    requestDigest: Request,
    payloadDigest: Action,
    status: Status,
    attempts: int,
    result: Option<RemoteResult>)
  {
    predicate Confirmed() { result.Some? && result.value.confirmed }
  }

  datatype AuditApproval = AuditApproval(
    id: ApprovalId, operation: OperationId, payloadDigest: Action, status: ApprovalStatus)

  datatype AuditArtifact = AuditArtifact(id: ArtifactId, kind: ArtifactKind)

  datatype Body = Body(
    release: Release,
    live: bool,
    task: AuditTask,
    operations: seq<AuditOperation>,
    approvals: seq<AuditApproval>,
    events: seq<Event>,
    artifacts: seq<AuditArtifact>)

  /** `digest` is the recorded checksum of the body; `bytes` is the size of the serialized recording. */
  datatype Recording = Recording(body: Body, digest: Body, bytes: nat)

  datatype Report = Report(
    task: TaskId,
    tenant: nat,
    eventCount: nat,
    operationCount: nat,
    dispatchOrder: seq<OperationId>,
    unresolved: set<OperationId>,
    fullyConfirmed: bool)

  // ---------- The reference definition: what an acceptable recording is ----------

  function Ids(b: Body): set<OperationId> { set o | o in b.operations :: o.id }

  function Guarded(b: Body): set<OperationId> {
    set o | o in b.operations && o.request.call.Protected() :: o.id
  }

  predicate WellFormed(b: Body) {
    && b.task.version >= 1
    && 0 <= b.task.sequence <= MAX_EVENTS
    && |b.operations| <= MAX_OPERATIONS
    && |b.approvals| <= MAX_APPROVALS
    && |b.events| <= MAX_EVENTS
    && |b.artifacts| <= MAX_ARTIFACTS
    && (forall o :: o in b.operations ==> 0 <= o.attempts <= 1)
    && (forall e :: e in b.events ==> e.sequence >= 1)
  }

  predicate IdentitiesDistinct(b: Body) {
    && (forall i, j :: 0 <= i < j < |b.operations| ==> b.operations[i].id != b.operations[j].id)
    && (forall i, j :: 0 <= i < j < |b.approvals| ==> b.approvals[i].operation != b.approvals[j].operation)
    && (forall i, j :: 0 <= i < j < |b.approvals| ==> b.approvals[i].id != b.approvals[j].id)
    && (forall i, j :: 0 <= i < j < |b.artifacts| ==> b.artifacts[i].id != b.artifacts[j].id)
  }

  predicate Opened(b: Body) {
    && |b.events| == b.task.sequence
    && Numbered(b.events)
    && b.events != []
    && b.events[0].kind == TaskCreated
    && b.release == b.task.release
    && b.events[0].payload.release == Some(b.release)
  }

  /** An approval carries its operation's digest and agrees with the last decision in the history. */
  predicate ApprovalAgrees(b: Body, a: AuditApproval) {
    && (exists o :: o in b.operations && o.id == a.operation && o.payloadDigest == a.payloadDigest)
    && (LastDecision(b.events, a.operation).Some? ==> a.status == Decided(LastDecision(b.events, a.operation).value))
  }

  predicate OperationAgrees(b: Body, o: AuditOperation) {
    var sent := o.id in DispatchOrder(b.events);
    && o.attempts == (if sent then 1 else 0)
    && LastStatus(b.events, o.id) == Some(o.status)
    && (o.status.InDoubt() || o.status == Succeeded ==> sent)
    && (o.status == Succeeded ==> o.Confirmed())
    && (sent && o.request.call.Protected() ==>
          exists a :: a in b.approvals && a.operation == o.id && a.status == Decided(Approved))
  }

  predicate TerminationAgrees(b: Body) {
    var ended := Terminations(b.events);
    if b.task.status == Terminated then
      && |ended| == 1
      && ended[0].payload.result == b.task.result
      && (forall o :: o in b.operations ==> !o.status.InDoubt())
      && (b.task.result == Some(Success) ==>
            && (forall o :: o in b.operations ==> o.status == Succeeded)
            && exists a :: a in b.artifacts && a.kind == Verification)
    else
      ended == [] && b.task.result == None
  }

  ghost predicate Acceptable(r: Recording) {
    var b := r.body;
    && r.bytes <= 10_000_000
    && r.digest == b
    && WellFormed(b)
    && IdentitiesDistinct(b)
    && Opened(b)
    && (forall o :: o in b.operations ==> o.requestDigest == o.request)
    && HistoryAccepted(b.events, Ids(b), Guarded(b))
    && Agrees(b)
  }

  /** The rows of the recording say what its history says. */
  ghost predicate Agrees(b: Body) {
    && (forall id :: id in ProposalOrder(b.events) <==> id in Ids(b))
    && (forall a :: a in b.approvals ==> ApprovalAgrees(b, a))
    && (forall o :: o in b.operations ==> OperationAgrees(b, o))
    && TerminationAgrees(b)
  }

  function Unresolved(b: Body): set<OperationId> { set o | o in b.operations && o.status.InDoubt() :: o.id }

  /** Every dispatched operation was confirmed. */
  ghost predicate FullyConfirmed(b: Body) {
    forall o :: o in b.operations && o.id in DispatchOrder(b.events) ==> o.status == Succeeded
  }

  // ---------- The checker ----------

  /** A dictionary by key; a repeated key overwrites, as it does in the source. */
  function IndexBy<V(==)>(rows: seq<V>, key: V -> OperationId): (m: map<OperationId, V>)
    ensures forall k :: k in m ==> m[k] in rows && key(m[k]) == k
    ensures forall v :: v in rows ==> key(v) in m
    ensures |m| <= |rows|
  {
    if rows == [] then map[]
    else
      var last := rows[|rows| - 1];
      var rest := IndexBy(rows[..|rows| - 1], key);
      assert forall v :: v in rows ==> v in rows[..|rows| - 1] || v == last;
      assert |rest| <= |rows| - 1;
      assert |rest[key(last) := last]| <= |rest| + 1 by { Sizes(rest, key(last), last); }
      rest[key(last) := last]
  }

  lemma Sizes<V>(m: map<OperationId, V>, k: OperationId, v: V)
    ensures |m[k := v]| == if k in m then |m| else |m| + 1
  {
    assert m[k := v].Keys == m.Keys + {k};
    assert |m| == |m.Keys| && |m[k := v]| == |m[k := v].Keys|;
    if k in m { assert m[k := v].Keys == m.Keys; }
  }

  predicate NoRepeats<V(==)>(rows: seq<V>, key: V -> OperationId) {
    forall i, j :: 0 <= i < j < |rows| ==> key(rows[i]) != key(rows[j])
  }

  predicate KeyUsed<V>(rows: seq<V>, key: V -> OperationId, k: OperationId) {
    exists i :: 0 <= i < |rows| && key(rows[i]) == k
  }

  lemma NoRepeatsAppend<V>(rows: seq<V>, last: V, key: V -> OperationId)
    ensures NoRepeats(rows + [last], key) <==> NoRepeats(rows, key) && !KeyUsed(rows, key, key(last))
  {
    var all := rows + [last];
    assert forall i :: 0 <= i < |rows| ==> all[i] == rows[i];
    assert all[|rows|] == last;
  }

  lemma IndexedKeys<V>(rows: seq<V>, key: V -> OperationId, k: OperationId)
    ensures k in IndexBy(rows, key) <==> KeyUsed(rows, key, k)
  {
    if k in IndexBy(rows, key) {
      var v := IndexBy(rows, key)[k];
      assert v in rows;
    }
  }

  /** Comparing the sizes detects exactly a repeated key. */
  lemma {:induction false} IndexDetectsRepeats<V>(rows: seq<V>, key: V -> OperationId)
    ensures |IndexBy(rows, key)| == |rows| <==> NoRepeats(rows, key)
  {
    if rows != [] {
      var init, last := rows[..|rows| - 1], rows[|rows| - 1];
      assert rows == init + [last];
      IndexDetectsRepeats(init, key);
      Sizes(IndexBy(init, key), key(last), last);
      IndexedKeys(init, key, key(last));
      NoRepeatsAppend(init, last, key);
    }
  }

  datatype Fold = Fold(
    proposed: set<OperationId>,
    dispatched: seq<OperationId>,
    final: map<OperationId, Status>,
    decisions: map<OperationId, Decision>)

  ghost predicate ReadsAt(f: Fold, es: seq<Event>, op: OperationId) {
    && (op in f.proposed <==> op in ProposalOrder(es))
    && LastStatus(es, op) == (if op in f.final then Some(f.final[op]) else None)
    && LastDecision(es, op) == (if op in f.decisions then Some(f.decisions[op]) else None)
  }

  /** The four accumulators hold exactly what the history read so far says. */
  ghost predicate Reads(f: Fold, es: seq<Event>) {
    && f.dispatched == DispatchOrder(es)
    && forall op :: ReadsAt(f, es, op)
  }

  function Advance(f: Fold, e: Event): Fold
    requires e.payload.operation.Some?
    requires e.kind == ApprovalDecided ==> e.payload.decision.Some?
  {
    var op := e.payload.operation.value;
    match e.kind
    case OperationProposed => f.(proposed := f.proposed + {op}, final := f.final[op := NotSubmitted])
    case ApprovalDecided => f.(decisions := f.decisions[op := e.payload.decision.value])
    case OperationDispatched => f.(dispatched := f.dispatched + [op], final := f.final[op := Pending])
    case OperationSucceeded => f.(final := f.final[op := Succeeded])
    case OperationFailed => f.(final := f.final[op := Failed])
    case OperationUnknown => f.(final := f.final[op := Unknown])
    case _ => f
  }

  lemma AdvanceReads(f: Fold, es: seq<Event>, e: Event)
    requires Reads(f, es)
    requires e.payload.operation.Some?
    requires e.kind == ApprovalDecided ==> e.payload.decision.Some?
    ensures Reads(Advance(f, e), es + [e])
  {
    forall op ensures ReadsAt(Advance(f, e), es + [e], op) {
      AdvanceReadsAt(f, es, e, op);
    }
    assert Advance(f, e).dispatched == DispatchOrder(es + [e]) by { Append(es, e); }
  }

  lemma AdvanceReadsAt(f: Fold, es: seq<Event>, e: Event, op: OperationId)
    requires ReadsAt(f, es, op)
    requires e.payload.operation.Some?
    requires e.kind == ApprovalDecided ==> e.payload.decision.Some?
    ensures ReadsAt(Advance(f, e), es + [e], op)
  {
    AppendAt(es, e, op);
  }

  lemma SkipReads(f: Fold, es: seq<Event>, e: Event)
    requires Reads(f, es) && e.payload.operation.None?
    ensures Reads(f, es + [e])
  {
    forall op ensures ReadsAt(f, es + [e], op) {
      assert ReadsAt(f, es, op);
      AppendAt(es, e, op);
    }
    assert f.dispatched == DispatchOrder(es + [e]) by { Append(es, e); }
  }

  function GuardedOf(ops: map<OperationId, AuditOperation>): set<OperationId> {
    set id | id in ops && ops[id].request.call.Protected()
  }

  /** One turn of the event loop. */
  method FoldEvent(f: Fold, ghost before: seq<Event>, e: Event, ops: map<OperationId, AuditOperation>)
    returns (r: Option<Fold>)
    requires Reads(f, before)
    ensures r.Some? <==> EventAccepted(before, e, ops.Keys, GuardedOf(ops))
    ensures r.Some? ==> Reads(r.value, before + [e])
  {
    var op := e.payload.operation;
    if op.None? {
      SkipReads(f, before, e);
      return if e.kind == OperationProposed || e.kind == ApprovalDecided || e.kind == OperationDispatched
                || IsOutcome(e.kind) then None else Some(f);
    }
    assert ReadsAt(f, before, op.value);
    if op.value !in ops { return None; }
    if e.kind == OperationProposed {
      if op.value in f.proposed { return None; }
    } else if e.kind == ApprovalDecided {
      if op.value !in f.proposed || e.payload.decision.None? { return None; }
    } else if e.kind == OperationDispatched {
      if op.value !in f.proposed || op.value in f.dispatched { return None; }
      if ops[op.value].request.call.Protected() && !(op.value in f.decisions && f.decisions[op.value] == Approved) {
        return None;
      }
    } else if IsOutcome(e.kind) {
      if op.value !in f.proposed { return None; }
    }
    AdvanceReads(f, before, e);
    r := Some(Advance(f, e));
  }

  /** The event fold: stops at the first event that the history before it does not allow. */
  method FoldEvents(events: seq<Event>, ops: map<OperationId, AuditOperation>) returns (r: Option<Fold>)
    ensures r.Some? <==> HistoryAccepted(events, ops.Keys, GuardedOf(ops))
    ensures r.Some? ==> Reads(r.value, events)
  {
    var f := Fold({}, [], map[], map[]);
    for i := 0 to |events|
      invariant HistoryAccepted(events[..i], ops.Keys, GuardedOf(ops))
      invariant Reads(f, events[..i])
    {
      assert events[..i + 1] == events[..i] + [events[i]];
      AppendAccepted(events[..i], events[i], ops.Keys, GuardedOf(ops));
      Rejecting(events, i, ops.Keys, GuardedOf(ops));
      var next := FoldEvent(f, events[..i], events[i], ops);
      if next.None? { return None; }
      f := next.value;
    }
    assert events[..|events|] == events;
    r := Some(f);
  }

  lemma Rejecting(es: seq<Event>, i: nat, known: set<OperationId>, guarded: set<OperationId>)
    requires i < |es|
    ensures !EventAccepted(es[..i], es[i], known, guarded) ==> !HistoryAccepted(es, known, guarded)
  {
  }

  /** The checks that precede the event fold. */
  predicate HeaderAccepted(r: Recording) {
    var b := r.body;
    && r.bytes <= MAX_RECORDING_BYTES
    && r.digest == b
    && WellFormed(b)
    && |IndexBy(b.operations, (o: AuditOperation) => o.id)| == |b.operations|
    && |IndexBy(b.approvals, (a: AuditApproval) => a.operation)| == |b.approvals|
    && (forall i, j :: 0 <= i < j < |b.artifacts| ==> b.artifacts[i].id != b.artifacts[j].id)
    && (forall i, j :: 0 <= i < j < |b.approvals| ==> b.approvals[i].id != b.approvals[j].id)
    && Opened(b)
    && (forall o :: o in b.operations ==> o.requestDigest == o.request)
  }

  /** Accepts a recording exactly when it meets the reference definition, and reports what the history says. */
  method CheckRecording(recording: Recording) returns (r: Option<Report>)
    ensures r.Some? <==> Acceptable(recording)
    ensures r.Some? ==>
              && r.value.task == recording.body.task.id
              && r.value.tenant == recording.body.task.tenant
              && r.value.eventCount == |recording.body.events|
              && r.value.operationCount == |recording.body.operations|
              && r.value.dispatchOrder == DispatchOrder(recording.body.events)
              && r.value.unresolved == Unresolved(recording.body)
              && (r.value.fullyConfirmed <==> FullyConfirmed(recording.body))
  {
    var b := recording.body;
    IndexDetectsRepeats(b.operations, (o: AuditOperation) => o.id);
    IndexDetectsRepeats(b.approvals, (a: AuditApproval) => a.operation);
    if !HeaderAccepted(recording) { return None; }
    var ops := IndexBy(b.operations, (o: AuditOperation) => o.id);
    var approvals := IndexBy(b.approvals, (a: AuditApproval) => a.operation);
    assert IdentitiesDistinct(b);
    IndexFacts(b, ops);
    var folded := FoldEvents(b.events, ops);
    if folded.None? { return None; }
    var f := folded.value;
    var agreed := CheckAgreement(b, ops, approvals, f);
    if !agreed { return None; }
    AcceptedOrdersDistinct(b.events, Ids(b), Guarded(b));
    ConfirmedFacts(b, ops);
    r := Some(Report(b.task.id, b.task.tenant, |b.events|, |ops|, f.dispatched, Unresolved(b),
                     forall id :: id in f.dispatched ==> ops[id].status == Succeeded));
  }

  /** The cross checks that follow the event fold. */
  method CheckAgreement(
    b: Body, ops: map<OperationId, AuditOperation>, approvals: map<OperationId, AuditApproval>, f: Fold)
    returns (ok: bool)
    requires Reads(f, b.events) && IdentitiesDistinct(b)
    requires ops.Keys == Ids(b)
    requires forall o :: o in b.operations ==> o.id in ops && ops[o.id] == o
    requires forall id :: id in ops ==> ops[id] in b.operations && ops[id].id == id
    requires forall a :: a in b.approvals ==> a.operation in approvals
    requires forall id :: id in approvals ==> approvals[id] in b.approvals && approvals[id].operation == id
    ensures ok <==> Agrees(b)
  {
    ProposedAgrees(b, f);
    if f.proposed != ops.Keys { return false; }
    ok := CheckApprovals(b, ops, f);
    if !ok { return; }
    ok := CheckOperations(b, approvals, f);
    if !ok { return; }
    ok := CheckTermination(b);
  }

  lemma ProposedAgrees(b: Body, f: Fold)
    requires Reads(f, b.events)
    ensures f.proposed == Ids(b) <==> forall id :: id in ProposalOrder(b.events) <==> id in Ids(b)
  {
    assert forall id :: ReadsAt(f, b.events, id);
    if forall id :: id in ProposalOrder(b.events) <==> id in Ids(b) {
      forall id ensures id in f.proposed <==> id in Ids(b) {
        assert ReadsAt(f, b.events, id);
      }
    } else {
      var id :| !(id in ProposalOrder(b.events) <==> id in Ids(b));
      assert ReadsAt(f, b.events, id);
    }
  }

  method CheckTermination(b: Body) returns (ok: bool)
    ensures ok <==> TerminationAgrees(b)
  {
    var ended := CollectTerminations(b.events);
    if b.task.status != Terminated {
      return ended == [] && b.task.result.None?;
    }
    if |ended| != 1 || ended[0].payload.result != b.task.result { return false; }
    if exists o :: o in b.operations && o.status.InDoubt() { return false; }
    ok := b.task.result == Some(Success) ==>
      && (forall o :: o in b.operations ==> o.status == Succeeded)
      && exists a :: a in b.artifacts && a.kind == Verification;
  }

  /** With distinct ids the dictionary loses nothing. */
  lemma IndexFacts(b: Body, ops: map<OperationId, AuditOperation>)
    requires IdentitiesDistinct(b)
    requires forall o :: o in b.operations ==> o.id in ops
    requires forall id :: id in ops ==> ops[id] in b.operations && ops[id].id == id
    ensures forall o :: o in b.operations ==> o.id in ops && ops[o.id] == o
    ensures ops.Keys == Ids(b) && GuardedOf(ops) == Guarded(b)
  {
    forall o | o in b.operations ensures o.id in ops && ops[o.id] == o {
      assert o.id in Ids(b);
    }
  }

  lemma ConfirmedFacts(b: Body, ops: map<OperationId, AuditOperation>)
    requires ops.Keys == Ids(b)
    requires forall o :: o in b.operations ==> o.id in ops && ops[o.id] == o
    requires forall id :: id in ops ==> ops[id] in b.operations && ops[id].id == id
    requires forall id :: id in DispatchOrder(b.events) ==> id in ops
    ensures (forall id :: id in DispatchOrder(b.events) ==> ops[id].status == Succeeded) <==> FullyConfirmed(b)
  {
  }

  method CheckApprovals(b: Body, ops: map<OperationId, AuditOperation>, f: Fold) returns (ok: bool)
    requires Reads(f, b.events)
    requires forall o :: o in b.operations ==> o.id in ops && ops[o.id] == o
    requires forall id :: id in ops ==> ops[id] in b.operations && ops[id].id == id
    ensures ok <==> forall a :: a in b.approvals ==> ApprovalAgrees(b, a)
  {
    for i := 0 to |b.approvals|
      invariant forall j :: 0 <= j < i ==> ApprovalAgrees(b, b.approvals[j])
    {
      var a := b.approvals[i];
      assert ReadsAt(f, b.events, a.operation);
      if a.operation !in ops || a.payloadDigest != ops[a.operation].payloadDigest {
        assert a in b.approvals && !ApprovalAgrees(b, a);
        return false;
      }
      if a.operation in f.decisions && a.status != Decided(f.decisions[a.operation]) {
        assert a in b.approvals && !ApprovalAgrees(b, a);
        return false;
      }
      assert ops[a.operation] in b.operations;
    }
    ok := true;
  }

  method CheckOperations(b: Body, approvals: map<OperationId, AuditApproval>, f: Fold) returns (ok: bool)
    requires Reads(f, b.events) && IdentitiesDistinct(b)
    requires forall a :: a in b.approvals ==> a.operation in approvals
    requires forall id :: id in approvals ==> approvals[id] in b.approvals && approvals[id].operation == id
    ensures ok <==> forall o :: o in b.operations ==> OperationAgrees(b, o)
  {
    for i := 0 to |b.operations|
      invariant forall j :: 0 <= j < i ==> OperationAgrees(b, b.operations[j])
    {
      var o := b.operations[i];
      assert ReadsAt(f, b.events, o.id);
      var sent := o.id in f.dispatched;
      var bad :=
        || o.attempts != (if sent then 1 else 0)
        || !(o.id in f.final && f.final[o.id] == o.status)
        || ((o.status.InDoubt() || o.status == Succeeded) && !sent)
        || (o.status == Succeeded && !o.Confirmed())
        || (sent && o.request.call.Protected()
            && !(o.id in approvals && approvals[o.id].status == Decided(Approved)));
      assert bad <==> !OperationAgrees(b, o) by {
        forall a | a in b.approvals && a.operation == o.id
          ensures o.id in approvals && approvals[o.id] == a
        {
        }
      }
      if bad {
        assert o in b.operations;
        return false;
      }
    }
    ok := true;
  }

  method CollectTerminations(events: seq<Event>) returns (ended: seq<Event>)
    ensures ended == Terminations(events)
  {
    ended := [];
    for i := 0 to |events|
      invariant ended == Terminations(events[..i])
    {
      assert events[..i + 1] == events[..i] + [events[i]];
      Append(events[..i], events[i]);
      if events[i].kind == TaskTerminated { ended := ended + [events[i]]; }
    }
    assert events[..|events|] == events;
  }
}
