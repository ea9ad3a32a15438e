/** The ledger as the service runs it: rows updated in place, one method per transaction. */
module TaskStores {
  import opened Basics
  import opened Domain
  import opened Ledger

  class TaskStore {
    const live: bool
    var task: TaskRow
    var operations: map<OperationId, OperationRow>
    var approvals: map<OperationId, ApprovalRow>
    var events: seq<Event>
    var artifacts: map<ArtifactId, ArtifactKind>

    function Contents(): Rows
      reads this
    {
      Rows(live, task, operations, approvals, events, artifacts)
    }

    constructor (live: bool, contract: Contract, deadline: Time)
      ensures Contents() == Created(live, contract, deadline)
    {
      this.live := live;
      task := TaskRow(contract, Queued, None, None, false, false, deadline, 0, 1);
      operations, approvals, events, artifacts := map[], map[], [], map[];
      new;
      Emit(TaskCreated, NOTHING.(release := Some(contract.release)));
    }

    method Emit(kind: Kind, payload: Payload)
      modifies this
      ensures Contents() == Emitted(old(Contents()), kind, payload)
    {
      task := task.(nextSequence := task.nextSequence + 1);
      events := events + [Event(task.nextSequence, kind, payload)];
    }

    method Stop(takeover: bool, authorized: bool) returns (reply: Reply)
      modifies this
      ensures (Contents(), reply) == StopTx(old(Contents()), takeover, authorized)
    {
      if !authorized { return Refused(FORBIDDEN); }
      if task.status == Terminated || task.cancelled || (task.takenOver && takeover) { return Unchanged; }
      task := task.(cancelled := !takeover, takenOver := takeover, version := task.version + 1);
      if takeover {
        task := task.(status := Waiting, waiting := Some(HumanTakeover));
        Emit(TaskTakeover, NOTHING);
      } else {
        task := task.(status := Cancelling, waiting := Some(Reconciliation));
        Emit(TaskCancelled, NOTHING);
      }
      reply := Done;
    }

    method Resume(expectedVersion: int, env: Env) returns (reply: Reply)
      modifies this
      ensures (Contents(), reply) == ResumeTx(old(Contents()), expectedVersion, env)
    {
      if !env.authorized { return Refused(FORBIDDEN); }
      if task.version != expectedVersion { return Refused(TASK_CHANGED); }
      if task.cancelled || task.status == Terminated { return Refused(TASK_STOPPED); }
      if !task.takenOver { return Unchanged; }
      if task.deadline <= env.now { return Refused(DEADLINE); }
      if !env.granted { return Refused(PERMISSION_REVOKED); }
      if env.emergencyStop { return Refused(EMERGENCY_STOP); }
      task := task.(takenOver := false, status := Queued, waiting := None, version := task.version + 1);
      Emit(TaskResumed, NOTHING);
      reply := Done;
    }

    method Propose(step: string, action: Action, op: OperationId, approval: ApprovalId, env: Env) returns (reply: Reply)
      modifies this
      ensures (Contents(), reply) == ProposeTx(old(Contents()), step, action, op, approval, env)
    {
      if !action.request.call.ValidParameters() { return Refused(INVALID_PARAMETERS); }
      if |step| == 0 || |step| > STEP_KEY_LIMIT { return Refused(INVALID_STEP); }
      if !env.authorized { return Refused(FORBIDDEN); }
      var blocker := Blocker(task, env);
      if blocker.Some? { return Refused(blocker.value); }
      if action.request.resource != task.contract.resource { return Refused(RESOURCE_SCOPE); }
      if StepTaken(Contents(), step) {
        return if StepBinds(Contents(), step, action) then Unchanged else Refused(IDEMPOTENCY_CONFLICT);
      }
      if |operations| >= TOOL_BUDGET { return Refused(TOOL_BUDGET_EXHAUSTED); }
      operations := operations[op := OperationRow(step, action, NotSubmitted, None, None, None, 0, env.now)];
      if action.request.call.Protected() {
        approvals := approvals[op := ApprovalRow(approval, action, Undecided, None, env.now + APPROVAL_SECONDS)];
        task := task.(status := Waiting, waiting := Some(AwaitingApproval));
      }
      Emit(OperationProposed, About(op));
      reply := Done;
    }

    method Decide(op: OperationId, approve: bool, expected: Action, subject: Subject, env: Env) returns (reply: Reply)
      modifies this
      ensures (Contents(), reply) == DecideTx(old(Contents()), op, approve, expected, subject, env)
    {
      if op !in approvals || op !in operations { return Refused(NOT_FOUND); }
      var a := approvals[op];
      if !env.authorized { return Refused(FORBIDDEN); }
      if task.contract.production && subject == task.contract.principal { return Refused(SEPARATION_OF_DUTIES); }
      if expected != a.payload || a.payload != operations[op].action { return Refused(APPROVAL_CHANGED); }
      var decision := if approve then Approved else Rejected;
      if a.status == Decided(decision) { return Unchanged; }
      if a.status != Undecided || a.expiresAt <= env.now { return Refused(APPROVAL_CLOSED); }
      if task.cancelled || task.takenOver { return Refused(TASK_STOPPED); }
      approvals := approvals[op := a.(status := Decided(decision), decidedBy := Some(subject))];
      Emit(ApprovalDecided, About(op).(decision := Some(decision)));
      reply := Done;
    }

    method Claim(op: OperationId, env: Env) returns (reply: Reply)
      modifies this
      ensures (Contents(), reply) == ClaimTx(old(Contents()), op, env)
    {
      if op !in operations { return Refused(NOT_FOUND); }
      var o := operations[op];
      var call := o.action.request.call;
      if o.status != NotSubmitted { return Unchanged; }
      if live { return Refused(CAPABILITY_UNAVAILABLE); }
      var blocker := Blocker(task, env);
      if blocker.Some? { return Refused(blocker.value); }
      if call.Tool() in env.disabledTools { return Refused(TOOL_DISABLED); }
      if call.Protected() {
        if !ValidApproval(Contents(), op, env.now) { return Refused(APPROVAL_REQUIRED); }
        if !env.approverGranted { return Refused(PERMISSION_REVOKED); }
      }
      operations := operations[op := o.(status := Pending, attempts := o.attempts + 1, updatedAt := env.now)];
      task := task.(status := Running, waiting := None);
      Emit(OperationDispatched, About(op));
      reply := Done;
    }

    method Record(op: OperationId, outcome: Status, remote: Option<RemoteResult>, now: Time) returns (reply: Reply)
      requires outcome == Succeeded || outcome == Failed || outcome == Unknown
      modifies this
      ensures (Contents(), reply) == RecordTx(old(Contents()), op, outcome, remote, now)
    {
      var status, result := outcome, remote;
      if status == Succeeded && !Verified(result) { status, result := Unknown, None; }
      if op !in operations { return Refused(NOT_FOUND); }
      var o := operations[op];
      if o.status == Succeeded { return Unchanged; }
      if o.status == Failed && status != Succeeded { return Unchanged; }
      if o.status == Unknown && status == Unknown { return Unchanged; }
      o := o.(status := status, result := result, recovery := if status == Unknown then Some(Reconciling) else None);
      if status != Unknown { o := o.(updatedAt := now); }
      if result.Some? { o := o.(externalId := result.value.externalId); }
      operations := operations[op := o];
      if status == Unknown && !task.takenOver && !task.cancelled && task.status != Terminated {
        task := task.(status := Waiting, waiting := Some(Reconciliation));
      }
      Emit(OutcomeKind(status), About(op));
      reply := Done;
    }

    method Escalate(op: OperationId, now: Time) returns (reply: Reply)
      modifies this
      ensures (Contents(), reply) == EscalateTx(old(Contents()), op, now)
    {
      if op !in operations { return Unchanged; }
      var o := operations[op];
      if !o.status.InDoubt() || o.updatedAt > now - ESCALATION_SECONDS || o.recovery == Some(InManualReview) {
        return Unchanged;
      }
      operations := operations[op := o.(recovery := Some(InManualReview))];
      if !task.cancelled && !task.takenOver && task.status != Terminated {
        task := task.(status := Waiting, waiting := Some(ManualReview));
      }
      Emit(OperationEscalated, About(op));
      reply := Done;
    }

    method Finish() returns (reply: Reply)
      modifies this
      ensures (Contents(), reply) == FinishTx(old(Contents()))
    {
      if task.takenOver { return Unchanged; }
      if exists k :: k in operations && operations[k].status.InDoubt() {
        task := task.(status := Waiting, waiting := Some(Reconciliation));
        return Unchanged;
      }
      assert !AnyStatus(Contents(), Unknown) && !AnyStatus(Contents(), Pending);
      if !task.cancelled && exists k :: k in operations && operations[k].status == NotSubmitted { return Unchanged; }
      var result := Success;
      if task.cancelled {
        result := Cancelled;
      } else if exists k :: k in operations && operations[k].status == Failed {
        result := TaskFailed;
      }
      assert result == Verdict(Contents());
      if task.status == Terminated { return Unchanged; }
      if result == Success && !exists k :: k in artifacts && artifacts[k] == Verification {
        return Refused(VERIFICATION_REQUIRED);
      }
      task := task.(status := Terminated, result := Some(result), waiting := None);
      Emit(TaskTerminated, NOTHING.(result := Some(result)));
      reply := Done;
    }

    method Block(reason: Reason, event: nat, leaseHeld: bool) returns (reply: Reply)
      modifies this
      ensures (Contents(), reply) == BlockTx(old(Contents()), reason, event, leaseHeld)
    {
      if !leaseHeld { return Refused(WORKER_LEASE_LOST); }
      if task.cancelled || task.takenOver || task.status == Terminated { return Unchanged; }
      if task.status == Waiting && task.waiting == Some(reason) { return Unchanged; }
      task := task.(status := Waiting, waiting := Some(reason));
      Emit(OtherKind(event), NOTHING);
      reply := Done;
    }
  }
}
