/** Every reachable ledger exports a recording that the offline checker accepts. */
module AuditExport {
  import opened Basics
  import opened Domain
  import opened History
  import opened Ledger
  import opened LedgerRuns
  import opened Audit
  import opened TaskStores

  /** A row order: every key once. The database may return the rows in any order. */
  ghost predicate Enumerates<T(!new)>(order: seq<T>, keys: set<T>) {
    && Distinct(order)
    && forall k :: k in order <==> k in keys
  }

  datatype Orders = Orders(operations: seq<OperationId>, approvals: seq<OperationId>, artifacts: seq<ArtifactId>)

  ghost predicate Covers(o: Orders, r: Rows) {
    && Enumerates(o.operations, r.operations.Keys)
    && Enumerates(o.approvals, r.approvals.Keys)
    && Enumerates(o.artifacts, r.artifacts.Keys)
  }

  function OperationEntry(id: OperationId, o: OperationRow): AuditOperation {
    AuditOperation(id, o.action.request, o.action.request, o.action, o.status, o.attempts, o.result)
  }

  function ApprovalEntry(op: OperationId, a: ApprovalRow): AuditApproval {
    AuditApproval(a.id, op, a.payload, a.status)
  }

  function Export(id: TaskId, tenant: nat, r: Rows, o: Orders): Body
    requires forall k :: k in o.operations ==> k in r.operations
    requires forall k :: k in o.approvals ==> k in r.approvals
    requires forall k :: k in o.artifacts ==> k in r.artifacts
  {
    var t := r.task;
    Body(
      t.contract.release,
      r.live,
      AuditTask(id, tenant, t.contract.release, t.version, t.status, t.result, t.nextSequence),
      seq(|o.operations|, i requires 0 <= i < |o.operations| => OperationEntry(o.operations[i], r.operations[o.operations[i]])),
      seq(|o.approvals|, i requires 0 <= i < |o.approvals| => ApprovalEntry(o.approvals[i], r.approvals[o.approvals[i]])),
      r.events,
      seq(|o.artifacts|, i requires 0 <= i < |o.artifacts| => AuditArtifact(o.artifacts[i], r.artifacts[o.artifacts[i]])))
  }

  predicate WithinLimits(r: Rows, bytes: nat) {
    && bytes <= 10_000_000
    && |r.events| <= 10_000
    && |r.artifacts| <= 1_000
  }

  lemma ExportSizes(id: TaskId, tenant: nat, r: Rows, o: Orders)
    requires Sound(r) && Covers(o, r)
    ensures |o.operations| <= MAX_OPERATIONS && |o.approvals| <= MAX_APPROVALS && |o.artifacts| == |r.artifacts|
  {
    DistinctSize(o.operations, r.operations.Keys);
    DistinctSize(o.approvals, r.approvals.Keys);
    DistinctSize(o.artifacts, r.artifacts.Keys);
    assert r.approvals.Keys <= r.operations.Keys by {
      forall op | op in r.approvals ensures op in r.operations {
        RowsAt(r.events, r.operations, r.approvals, op);
      }
    }
    SubsetSize(r.approvals.Keys, r.operations.Keys);
  }

  /** Entries and rows correspond one to one. */
  lemma Entries(id: TaskId, tenant: nat, r: Rows, o: Orders)
    requires Covers(o, r)
    ensures var b := Export(id, tenant, r, o);
      && (forall op :: op in r.operations ==> OperationEntry(op, r.operations[op]) in b.operations)
      && (forall e :: e in b.operations ==> e.id in r.operations && e == OperationEntry(e.id, r.operations[e.id]))
      && (forall op :: op in r.approvals ==> ApprovalEntry(op, r.approvals[op]) in b.approvals)
      && (forall e :: e in b.approvals ==> e.operation in r.approvals && e == ApprovalEntry(e.operation, r.approvals[e.operation]))
      && (forall k :: k in r.artifacts ==> AuditArtifact(k, r.artifacts[k]) in b.artifacts)
  {
    var b := Export(id, tenant, r, o);
    forall op | op in r.operations ensures OperationEntry(op, r.operations[op]) in b.operations {
      var i :| 0 <= i < |o.operations| && o.operations[i] == op;
      assert b.operations[i] == OperationEntry(op, r.operations[op]);
    }
    forall op | op in r.approvals ensures ApprovalEntry(op, r.approvals[op]) in b.approvals {
      var i :| 0 <= i < |o.approvals| && o.approvals[i] == op;
      assert b.approvals[i] == ApprovalEntry(op, r.approvals[op]);
    }
    forall k | k in r.artifacts ensures AuditArtifact(k, r.artifacts[k]) in b.artifacts {
      var i :| 0 <= i < |o.artifacts| && o.artifacts[i] == k;
      assert b.artifacts[i] == AuditArtifact(k, r.artifacts[k]);
    }
  }

  lemma HeaderHolds(id: TaskId, tenant: nat, r: Rows, o: Orders, bytes: nat)
    requires Sound(r) && Covers(o, r) && WithinLimits(r, bytes)
    ensures var b := Export(id, tenant, r, o);
      WellFormed(b) && IdentitiesDistinct(b) && Opened(b) && forall e :: e in b.operations ==> e.requestDigest == e.request
  {
    hide HistorySound, RowsSound, TerminationSound, IdentitiesDistinct;
    var b := Export(id, tenant, r, o);
    ExportSizes(id, tenant, r, o);
    Entries(id, tenant, r, o);
    DistinctEntries(id, tenant, r, o);
    forall e | e in b.operations ensures 0 <= e.attempts <= 1 {
      RowsAt(r.events, r.operations, r.approvals, e.id);
    }
  }

  lemma DistinctEntries(id: TaskId, tenant: nat, r: Rows, o: Orders)
    requires Covers(o, r) && ApprovalIdsDistinct(r.approvals)
    ensures IdentitiesDistinct(Export(id, tenant, r, o))
  {
  }

  lemma SameIds(id: TaskId, tenant: nat, r: Rows, o: Orders)
    requires Covers(o, r)
    ensures Ids(Export(id, tenant, r, o)) == r.operations.Keys
    ensures Guarded(Export(id, tenant, r, o)) == GuardedOperations(r.operations)
  {
    var b := Export(id, tenant, r, o);
    Entries(id, tenant, r, o);
    forall op | op in r.operations
      ensures op in Ids(b) && (op in GuardedOperations(r.operations) ==> op in Guarded(b))
    {
      assert OperationEntry(op, r.operations[op]) in b.operations;
    }
  }

  lemma HistoryHolds(id: TaskId, tenant: nat, r: Rows, o: Orders)
    requires Sound(r) && Covers(o, r)
    ensures var b := Export(id, tenant, r, o);
      && HistoryAccepted(b.events, Ids(b), Guarded(b))
      && forall k :: k in ProposalOrder(b.events) <==> k in Ids(b)
  {
    hide HistoryAccepted, RowsSound, Sequenced, TerminationSound, Ids, Guarded;
    SameIds(id, tenant, r, o);
    AcceptedOrdersDistinct(r.events, r.operations.Keys, GuardedOperations(r.operations));
    forall k ensures k in ProposalOrder(r.events) <==> k in r.operations.Keys {
      RowsAt(r.events, r.operations, r.approvals, k);
    }
  }

  lemma RowsHold(id: TaskId, tenant: nat, r: Rows, o: Orders)
    requires Sound(r) && Covers(o, r)
    ensures var b := Export(id, tenant, r, o);
      && (forall a :: a in b.approvals ==> ApprovalAgrees(b, a))
      && (forall e :: e in b.operations ==> OperationAgrees(b, e))
  {
    hide HistorySound, Sequenced, RowsSound, TerminationSound;
    var b := Export(id, tenant, r, o);
    Entries(id, tenant, r, o);
    forall a | a in b.approvals ensures ApprovalAgrees(b, a) {
      RowsAt(r.events, r.operations, r.approvals, a.operation);
      assert OperationEntry(a.operation, r.operations[a.operation]) in b.operations;
    }
    forall e | e in b.operations ensures OperationAgrees(b, e) {
      RowsAt(r.events, r.operations, r.approvals, e.id);
      if e.id in r.approvals { assert ApprovalEntry(e.id, r.approvals[e.id]) in b.approvals; }
    }
  }

  lemma TerminationHolds(id: TaskId, tenant: nat, r: Rows, o: Orders)
    requires Sound(r) && Covers(o, r)
    ensures TerminationAgrees(Export(id, tenant, r, o))
  {
    hide HistorySound, Sequenced, RowsSound;
    Entries(id, tenant, r, o);
    if HasVerification(r) {
      var k :| k in r.artifacts && r.artifacts[k] == Verification;
      assert AuditArtifact(k, r.artifacts[k]) in Export(id, tenant, r, o).artifacts;
    }
  }

  lemma ExportAcceptable(id: TaskId, tenant: nat, r: Rows, o: Orders, bytes: nat)
    requires Sound(r) && Covers(o, r) && WithinLimits(r, bytes)
    ensures Acceptable(Recording(Export(id, tenant, r, o), Export(id, tenant, r, o), bytes))
  {
    HeaderHolds(id, tenant, r, o, bytes);
    HistoryHolds(id, tenant, r, o);
    RowsHold(id, tenant, r, o);
    TerminationHolds(id, tenant, r, o);
  }

  /**
   * Audit completeness: whatever transactions ran on a task, in whatever order and with whatever crashes between them,
   * its exported recording is acceptable as long as it is small enough to be exported at all.
   */
  lemma AuditComplete(
    live: bool, contract: Contract, deadline: Time, steps: seq<Step>, id: TaskId, tenant: nat, o: Orders, bytes: nat)
    requires var r := Run(Created(live, contract, deadline), steps); Covers(o, r) && WithinLimits(r, bytes)
    ensures var r := Run(Created(live, contract, deadline), steps);
      Acceptable(Recording(Export(id, tenant, r, o), Export(id, tenant, r, o), bytes))
  {
    CreatedSound(live, contract, deadline);
    RunSound(Created(live, contract, deadline), steps);
    ExportAcceptable(id, tenant, Run(Created(live, contract, deadline), steps), o, bytes);
  }

  /** `export_audit` runs the checker over its own recording: of a sound ledger it refuses only what is too large. */
  method ExportAudit(id: TaskId, tenant: nat, store: TaskStore, o: Orders, bytes: nat)
    returns (r: Option<(Recording, Report)>)
    requires Sound(store.Contents()) && Covers(o, store.Contents())
    ensures r.Some? <==> WithinLimits(store.Contents(), bytes)
    ensures r.Some? ==>
              && Acceptable(r.value.0)
              && r.value.0.body == Export(id, tenant, store.Contents(), o)
              && r.value.1.dispatchOrder == DispatchOrder(store.events)
  {
    var rows := store.Contents();
    if |rows.events| > MAX_EVENTS || |rows.artifacts| > MAX_ARTIFACTS { return None; }
    var body := Export(id, tenant, rows, o);
    var recording := Recording(body, body, bytes);
    var report := CheckRecording(recording);
    if bytes <= MAX_RECORDING_BYTES { ExportAcceptable(id, tenant, rows, o, bytes); }
    if report.None? { return None; }
    r := Some((recording, report.value));
  }
}
