/** What a whole call comes to: the authority's decision, its answer, and the row that records it. */
module ServiceOutcomes {
  import opened Basics
  import opened Domain
  import opened Ledger
  import opened LedgerRuns
  import opened LedgerGuards
  import opened Authority
  import opened AuthorityEffects
  import opened Tenants
  import opened Services

  /** What the row of an operation says after a call. */
  predicate Tells(r: Rows, op: OperationId, status: Status, result: Option<RemoteResult>, recovery: Option<Recovery>) {
    && op in r.operations
    && r.operations[op].status == status
    && r.operations[op].result == result
    && r.operations[op].recovery == recovery
  }

  lemma RecordTells(r: Rows, op: OperationId, outcome: Status, result: Option<RemoteResult>, now: Time)
    requires Enabled(r, Record(op, outcome, result, now)) && r.operations[op].status == Pending
    requires outcome == Succeeded ==> result.Some? && result.value.confirmed && result.value.externalId.Some?
    requires outcome != Succeeded ==> result == None
    ensures Tells(RecordTx(r, op, outcome, result, now).0, op, outcome, result, if outcome == Unknown then Some(Reconciling) else None)
  {
    RecordExactly(r, op, outcome, result, now, outcome);
    hide RecordTx;
  }

  lemma ClaimTells(r: Rows, op: OperationId, env: Env)
    requires ClaimTx(r, op, env).1 == Done
    ensures var r' := ClaimTx(r, op, env).0;
      op in r.operations && op in r'.operations && r'.operations[op].status == Pending
      && r'.operations[op].action == r.operations[op].action && r'.operations[op].attempts > 0
  {
    ClaimFrame(r, op, env);
    hide ClaimTx;
  }

  /** A call that is claimed reaches the authority once: it ends as a success with the receipt of the effect it had, as a failure
      without an effect, or, if the answer is lost, as unknown with the receipt waiting at the authority. */
  lemma ExecuteComesTo(s: Tenant, t: TaskId, op: OperationId, env: Env, now: Time)
    requires TenantSound(s) && t in s.tasks && op in s.tasks[t].operations && ClaimTx(s.tasks[t], op, env).1 == Done
    ensures var request := s.tasks[t].operations[op].action.request;
      var s' := Played(s, ExecuteMoves(s, t, op, env, now));
      var lost := op in s.remote.faults && s.remote.faults[op].mode == ResponseLost;
      var receipt := RemoteResult(true, Some(op), request.resource, Snapshot(s.remote, request.resource).revision + 1);
      && t in s'.tasks
      && op !in s.remote.receipts
      && (op in s'.remote.receipts <==> Accepts(s.remote, op, request))
      && (Accepts(s.remote, op, request) ==> s'.remote.receipts[op] == Receipt(request, receipt))
      && (Accepts(s.remote, op, request) && !lost ==> Tells(s'.tasks[t], op, Succeeded, Some(receipt), None))
      && (Accepts(s.remote, op, request) && lost ==> Tells(s'.tasks[t], op, Unknown, None, Some(Reconciling)))
      && (!Accepts(s.remote, op, request) ==> Tells(s'.tasks[t], op, Failed, None, None))
  {
    hide TenantSound, ClaimTx, RecordTx, Played, ExecuteMoves, Accepts;
    var request := s.tasks[t].operations[op].action.request;
    ExecuteIsAPlay(s, t, op, env, now);
    ClaimedTenant(s, t, op, env, request);
    ClaimTells(s.tasks[t], op, env);
    ExecuteExactly(s.remote, op, request);
    hide ExecuteTx;
    var claimed := ClaimTx(s.tasks[t], op, env).0;
    var answer := ExecuteTx(s.remote, op, request).1;
    RecordTells(claimed, op, Outcome(answer).0, Outcome(answer).1, now);
  }

  /** A lost answer is found again: once the hiding faults are used up, reconciling settles the operation with its receipt. */
  lemma LostIsFound(r: Rows, m: Remote, op: OperationId, now: Time)
    requires op in r.operations && r.operations[op].status.InDoubt() && r.operations[op].attempts > 0
    requires op in m.receipts && m.receipts[op].result.confirmed && m.receipts[op].result.externalId.Some?
    requires !(op in m.faults && m.faults[op].mode == QueryHidden && m.faults[op].remaining > 0)
    ensures var found := QueryTx(m, op).1;
      && found == Some(m.receipts[op].result)
      && Tells(RecordTx(r, op, Succeeded, found, now).0, op, Succeeded, found, None)
  {
    QueryExactly(m, op);
    hide QueryTx;
    RecordExactly(r, op, Succeeded, QueryTx(m, op).1, now, Succeeded);
    hide RecordTx;
  }
}
