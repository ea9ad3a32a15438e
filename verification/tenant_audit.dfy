/** What an exported recording says about the remote authority, over whole runs of a tenant. */
module TenantAudit {
  import opened Basics
  import opened Domain
  import opened Ledger
  import opened LedgerRuns
  import opened LedgerGuards
  import opened Authority
  import opened Tenants
  import opened Audit
  import opened AuditExport

  /** An exported operation tells the truth about the authority. */
  predicate Truthful(m: Remote, e: AuditOperation) {
    && (e.status == Succeeded ==>
          e.id in m.receipts && m.receipts[e.id].request == e.request && e.result == Some(m.receipts[e.id].result))
    && (e.status == Failed || e.status == NotSubmitted ==> e.id !in m.receipts)
    && (e.id in m.receipts ==> e.attempts > 0 && m.receipts[e.id].request == e.request)
  }

  lemma EntryTruthful(s: Tenant, t: TaskId, op: OperationId)
    requires TenantSound(s) && t in s.tasks && op in s.tasks[t].operations
    ensures Truthful(s.remote, OperationEntry(op, s.tasks[t].operations[op]))
  {
    hide Sound, RemoteSound;
    assert TaskSound(s, t);
    StatusBeforeDispatch(s.tasks[t], op);
  }

  lemma StatusBeforeDispatch(r: Rows, op: OperationId)
    requires Sound(r) && op in r.operations
    ensures r.operations[op].status == NotSubmitted ==> r.operations[op].attempts == 0
  {
    hide HistorySound, Sequenced, TerminationSound;
    RowsAt(r.events, r.operations, r.approvals, op);
  }

  /** Every task of a tenant, after any interleaving of workers, faults and crashes, exports a recording that the checker
      accepts and that claims an effect exactly where the authority has one or is still in doubt. */
  lemma RecordingsTellTheTruth(live: bool, moves: seq<Move>, t: TaskId, tenant: nat, o: Orders, bytes: nat)
    requires var s := Played(Empty(live), moves); t in s.tasks && Covers(o, s.tasks[t]) && WithinLimits(s.tasks[t], bytes)
    ensures var s := Played(Empty(live), moves);
      var body := Export(t, tenant, s.tasks[t], o);
      && Acceptable(Recording(body, body, bytes))
      && forall e :: e in body.operations ==> Truthful(s.remote, e)
  {
    PlaySound(live, moves);
    var s := Played(Empty(live), moves);
    TruthfulExport(s, t, tenant, o, bytes);
  }

  lemma TruthfulExport(s: Tenant, t: TaskId, tenant: nat, o: Orders, bytes: nat)
    requires TenantSound(s) && t in s.tasks && Covers(o, s.tasks[t]) && WithinLimits(s.tasks[t], bytes)
    ensures var body := Export(t, tenant, s.tasks[t], o);
      Acceptable(Recording(body, body, bytes)) && forall e :: e in body.operations ==> Truthful(s.remote, e)
  {
    hide Sound, RemoteSound, Acceptable, Truthful;
    assert TaskSound(s, t);
    ExportAcceptable(t, tenant, s.tasks[t], o, bytes);
    var body := Export(t, tenant, s.tasks[t], o);
    forall e | e in body.operations ensures Truthful(s.remote, e) {
      var i :| 0 <= i < |body.operations| && body.operations[i] == e;
      EntryTruthful(s, t, o.operations[i]);
    }
  }

  // ---------- Results, with the authority's evidence ----------

  /** A task that ended without being cancelled failed exactly if one of its operations failed. */
  predicate ResultExact(r: Rows) {
    r.task.status == Terminated && !r.task.cancelled ==> (r.task.result == Some(TaskFailed) <==> AnyIs(r, Failed))
  }

  /** No evidence ever turns a failure into a success. */
  lemma FailureStays(s: Tenant, t: TaskId, step: Step, op: OperationId)
    requires TenantSound(s) && t in s.tasks && Enabled(s.tasks[t], step) && Evidenced(s, step)
    requires op in s.tasks[t].operations && s.tasks[t].operations[op].status == Failed
    ensures var r' := Next(s.tasks[t], step); op in r'.operations && r'.operations[op].status == Failed
  {
    var s' := Stepped(s, t, step);
    SteppedRows(s, t, step);
    StepTenantSound(s, t, step);
    AgreesAt(s, t, op);
    assert TaskSound(s, t);
    hide TenantSound, Sound, Stepped, Next, TaskEvolves, ApprovalsEvolve, ArtifactsEvolve;
    StepEvolves(s.tasks[t], step);
    assert OperationEvolves(s.tasks[t].operations[op], s'.tasks[t].operations[op]);
    AgreesAt(s', t, op);
    StaysFailed(s.tasks[t].operations[op].status, s'.tasks[t].operations[op].status);
  }

  lemma SteppedRows(s: Tenant, t: TaskId, step: Step)
    requires t in s.tasks && Enabled(s.tasks[t], step)
    ensures var s' := Stepped(s, t, step); t in s'.tasks && s'.tasks[t] == Next(s.tasks[t], step) && s'.remote == s.remote
  {
    hide Perform;
  }

  lemma StaysFailed(before: Status, after: Status)
    requires before == Failed && before.Rank() <= after.Rank() && after != Succeeded
    ensures after == Failed
  {
  }

  lemma StepResult(s: Tenant, t: TaskId, step: Step)
    requires TenantSound(s) && t in s.tasks && Enabled(s.tasks[t], step) && Evidenced(s, step)
    requires ResultExact(s.tasks[t]) && ResultSound(Next(s.tasks[t], step))
    ensures ResultExact(Next(s.tasks[t], step))
  {
    var r, r' := s.tasks[t], Next(s.tasks[t], step);
    assert TaskSound(s, t);
    if r'.task.status == Terminated && !r'.task.cancelled {
      if r.task.status == Terminated {
        StepEvolves(r, step);
        hide TenantSound, Sound, Next, ApprovalsEvolve, ArtifactsEvolve, FailedOnce;
        if AnyIs(r, Failed) {
          var op :| op in r.operations && r.operations[op].status == Failed;
          FailureStays(s, t, step, op);
        }
      } else {
        hide TenantSound, Sound, Next;
        OnlyFinishEnds(r, step);
        FinishExactly(r);
        FinishNext(r, step);
      }
    }
  }

  /** A move touches at most one task. */
  lemma MovedTask(s: Tenant, a: Move, u: TaskId)
    requires u in Moved(s, a).tasks
    ensures (u in s.tasks && Moved(s, a).tasks[u] == s.tasks[u])
            || (a.CreateTask? && Moved(s, a).tasks[u] == Created(s.live, a.contract, a.deadline))
            || (a.OnTask? && u == a.task && u in s.tasks && Enabled(s.tasks[u], a.step) && Evidenced(s, a.step)
                && Moved(s, a).tasks[u] == Next(s.tasks[u], a.step))
  {
    hide Perform, Enabled, Evidenced, Created, ExecuteTx, QueryTx, InjectTx;
    if a.OnTask? && a.task in s.tasks && Enabled(s.tasks[a.task], a.step) { SteppedRows(s, a.task, a.step); }
  }

  lemma MoveResults(s: Tenant, a: Move)
    requires TenantSound(s) && forall t :: t in s.tasks ==> ResultExact(s.tasks[t]) && ResultSound(s.tasks[t])
    ensures forall t :: t in Moved(s, a).tasks ==> ResultExact(Moved(s, a).tasks[t]) && ResultSound(Moved(s, a).tasks[t])
  {
    forall u | u in Moved(s, a).tasks ensures ResultExact(Moved(s, a).tasks[u]) && ResultSound(Moved(s, a).tasks[u]) {
      MovedTask(s, a, u);
      if a.CreateTask? {
        NotEndedYet(s.live, a.contract, a.deadline);
        NotEndedExact(s.live, a.contract, a.deadline);
      }
      assert u in s.tasks ==> TaskSound(s, u);
      hide ResultExact, ResultSound, Next, TenantSound, Sound, Moved, Enabled, Evidenced, Created;
      if a.OnTask? && u == a.task && u in s.tasks && Enabled(s.tasks[u], a.step) && Evidenced(s, a.step) {
        StepResultSound(s.tasks[u], a.step);
        StepResult(s, u, a.step);
      }
    }
  }

  lemma NotEndedExact(live: bool, contract: Contract, deadline: Time)
    ensures ResultExact(Created(live, contract, deadline))
  {
  }

  /** Over all plays: an ended task is cancelled exactly if it was, failed exactly if one of its operations failed, and a success
      otherwise. */
  lemma {:induction false} ResultsExact(live: bool, moves: seq<Move>)
    ensures var s := Played(Empty(live), moves);
      forall t :: t in s.tasks ==> ResultExact(s.tasks[t]) && ResultSound(s.tasks[t])
  {
    if moves != [] {
      ResultsExact(live, moves[..|moves| - 1]);
      PlaySound(live, moves[..|moves| - 1]);
      hide TenantSound, Moved, ResultExact, ResultSound;
      MoveResults(Played(Empty(live), moves[..|moves| - 1]), moves[|moves| - 1]);
    }
  }
}
