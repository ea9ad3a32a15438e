/** The rows of one task and what each transaction of the action ledger does to them. */
module Ledger {
  import opened Basics
  import opened Domain

  const TOOL_BUDGET := 100
  const STEP_KEY_LIMIT := 160
  const APPROVAL_SECONDS := 86_400
  const ESCALATION_SECONDS := 900

  datatype Contract = Contract(release: Release, resource: Resource, principal: Subject, production: bool)

  datatype TaskRow = TaskRow(
    contract: Contract,
    status: TaskStatus,
    result: Option<TaskResult>,
    waiting: Option<Reason>,
    cancelled: bool,
    takenOver: bool,
    deadline: Time,
    nextSequence: nat,
    version: int)
  {
    /** Someone stopped the task, or it is over: no new action may start. */
    predicate Halted() { cancelled || takenOver || status == Terminated }
  }

  datatype OperationRow = OperationRow(
    step: string,
    action: Action,
    status: Status,
    recovery: Option<Recovery>,
    externalId: Option<OperationId>,
    result: Option<RemoteResult>,
    attempts: nat,
    updatedAt: Time)

  datatype ApprovalRow = ApprovalRow(
    id: ApprovalId, payload: Action, status: ApprovalStatus, decidedBy: Option<Subject>, expiresAt: Time)

  /** Everything the database holds about one task. Only the simulation deployment can dispatch actions. */
  datatype Rows = Rows(
    live: bool,
    task: TaskRow,
    operations: map<OperationId, OperationRow>,
    approvals: map<OperationId, ApprovalRow>,
    events: seq<Event>,
    artifacts: map<ArtifactId, ArtifactKind>)

  /** What a transaction reads from outside these rows. */
  datatype Env = Env(
    now: Time,
    authorized: bool,
    leaseHeld: bool,
    releaseServed: bool,
    granted: bool,
    emergencyStop: bool,
    disabledTools: set<Tool>,
    approverGranted: bool)

  datatype Code =
    | NOT_FOUND
    | FORBIDDEN
    | TASK_CHANGED
    | TASK_STOPPED
    | DEADLINE
    | PERMISSION_REVOKED
    | EMERGENCY_STOP
    | WORKER_LEASE_LOST
    | RELEASE_MISMATCH
    | INVALID_PARAMETERS
    | INVALID_STEP
    | RESOURCE_SCOPE
    | IDEMPOTENCY_CONFLICT
    | TOOL_BUDGET_EXHAUSTED
    | SEPARATION_OF_DUTIES
    | APPROVAL_CHANGED
    | APPROVAL_CLOSED
    | APPROVAL_REQUIRED
    | CAPABILITY_UNAVAILABLE
    | TOOL_DISABLED
    | VERIFICATION_REQUIRED

  datatype Reply = Done | Unchanged | Refused(code: Code)

  function Created(live: bool, contract: Contract, deadline: Time): Rows {
    var task := TaskRow(contract, Queued, None, None, false, false, deadline, 0, 1);
    Emitted(Rows(live, task, map[], map[], [], map[]), TaskCreated, NOTHING.(release := Some(contract.release)))
  }

  /** `emit`: take the next sequence number and append. */
  function Emitted(r: Rows, kind: Kind, payload: Payload): Rows {
    var n := r.task.nextSequence + 1;
    r.(task := r.task.(nextSequence := n), events := r.events + [Event(n, kind, payload)])
  }

  function StopTx(r: Rows, takeover: bool, authorized: bool): (Rows, Reply) {
    var t := r.task;
    if !authorized then (r, Refused(FORBIDDEN))
    else if t.status == Terminated || t.cancelled || (t.takenOver && takeover) then (r, Unchanged)
    else
      var t' := t.(cancelled := !takeover,
                   takenOver := takeover,
                   status := if takeover then Waiting else Cancelling,
                   waiting := Some(if takeover then HumanTakeover else Reconciliation),
                   version := t.version + 1);
      (Emitted(r.(task := t'), if takeover then TaskTakeover else TaskCancelled, NOTHING), Done)
  }

  function ResumeTx(r: Rows, expectedVersion: int, env: Env): (Rows, Reply) {
    var t := r.task;
    if !env.authorized then (r, Refused(FORBIDDEN))
    else if t.version != expectedVersion then (r, Refused(TASK_CHANGED))
    else if t.cancelled || t.status == Terminated then (r, Refused(TASK_STOPPED))
    else if !t.takenOver then (r, Unchanged)
    else if t.deadline <= env.now then (r, Refused(DEADLINE))
    else if !env.granted then (r, Refused(PERMISSION_REVOKED))
    else if env.emergencyStop then (r, Refused(EMERGENCY_STOP))
    else
      var t' := t.(takenOver := false, status := Queued, waiting := None, version := t.version + 1);
      (Emitted(r.(task := t'), TaskResumed, NOTHING), Done)
  }

  /** Why a task may not start anything now, if it may not. */
  function Blocker(t: TaskRow, env: Env): Option<Code> {
    if !env.leaseHeld then Some(WORKER_LEASE_LOST)
    else if !env.releaseServed then Some(RELEASE_MISMATCH)
    else if t.Halted() then Some(TASK_STOPPED)
    else if t.deadline <= env.now then Some(DEADLINE)
    else if !env.granted then Some(PERMISSION_REVOKED)
    else if env.emergencyStop then Some(EMERGENCY_STOP)
    else None
  }

  predicate StepTaken(r: Rows, step: string) { exists k :: k in r.operations && r.operations[k].step == step }

  predicate StepBinds(r: Rows, step: string, action: Action) {
    exists k :: k in r.operations && r.operations[k].step == step && r.operations[k].action == action
  }

  /** `op` and `approval` are fresh identities. */
  function ProposeTx(r: Rows, step: string, action: Action, op: OperationId, approval: ApprovalId, env: Env): (Rows, Reply) {
    var call := action.request.call;
    if !call.ValidParameters() then (r, Refused(INVALID_PARAMETERS))
    else if !(1 <= |step| <= STEP_KEY_LIMIT) then (r, Refused(INVALID_STEP))
    else if !env.authorized then (r, Refused(FORBIDDEN))
    else if Blocker(r.task, env).Some? then (r, Refused(Blocker(r.task, env).value))
    else if action.request.resource != r.task.contract.resource then (r, Refused(RESOURCE_SCOPE))
    else if StepTaken(r, step) then
      (r, if StepBinds(r, step, action) then Unchanged else Refused(IDEMPOTENCY_CONFLICT))
    else if |r.operations| >= TOOL_BUDGET then (r, Refused(TOOL_BUDGET_EXHAUSTED))
    else
      var row := OperationRow(step, action, NotSubmitted, None, None, None, 0, env.now);
      var added := r.(operations := r.operations[op := row]);
      var guarded :=
        if call.Protected() then
          added.(approvals := r.approvals[op := ApprovalRow(approval, action, Undecided, None, env.now + APPROVAL_SECONDS)],
                 task := r.task.(status := Waiting, waiting := Some(AwaitingApproval)))
        else added;
      (Emitted(guarded, OperationProposed, About(op)), Done)
  }

  function DecideTx(r: Rows, op: OperationId, approve: bool, expected: Action, subject: Subject, env: Env): (Rows, Reply) {
    if op !in r.approvals || op !in r.operations then (r, Refused(NOT_FOUND))
    else
      var a, t := r.approvals[op], r.task;
      var target := Decided(if approve then Approved else Rejected);
      if !env.authorized then (r, Refused(FORBIDDEN))
      else if t.contract.production && subject == t.contract.principal then (r, Refused(SEPARATION_OF_DUTIES))
      else if expected != a.payload || a.payload != r.operations[op].action then (r, Refused(APPROVAL_CHANGED))
      else if a.status == target then (r, Unchanged)
      else if a.status != Undecided || a.expiresAt <= env.now then (r, Refused(APPROVAL_CLOSED))
      else if t.cancelled || t.takenOver then (r, Refused(TASK_STOPPED))
      else
        var r' := r.(approvals := r.approvals[op := a.(status := target, decidedBy := Some(subject))]);
        (Emitted(r', ApprovalDecided, About(op).(decision := Some(target.decision))), Done)
  }

  predicate ValidApproval(r: Rows, op: OperationId, now: Time)
    requires op in r.operations
  {
    && op in r.approvals
    && r.approvals[op].status == Decided(Approved)
    && now < r.approvals[op].expiresAt
    && r.approvals[op].payload == r.operations[op].action
  }

  /** The first half of `execute`: commit the intent to dispatch. Done means this caller, and no other, may send. */
  function ClaimTx(r: Rows, op: OperationId, env: Env): (Rows, Reply) {
    if op !in r.operations then (r, Refused(NOT_FOUND))
    else
      var o := r.operations[op];
      var call := o.action.request.call;
      if o.status != NotSubmitted then (r, Unchanged)
      else if r.live then (r, Refused(CAPABILITY_UNAVAILABLE))
      else if Blocker(r.task, env).Some? then (r, Refused(Blocker(r.task, env).value))
      else if call.Tool() in env.disabledTools then (r, Refused(TOOL_DISABLED))
      else if call.Protected() && !ValidApproval(r, op, env.now) then (r, Refused(APPROVAL_REQUIRED))
      else if call.Protected() && !env.approverGranted then (r, Refused(PERMISSION_REVOKED))
      else
        var o' := o.(status := Pending, attempts := o.attempts + 1, updatedAt := env.now);
        var r' := r.(operations := r.operations[op := o'], task := r.task.(status := Running, waiting := None));
        (Emitted(r', OperationDispatched, About(op)), Done)
  }

  predicate Verified(result: Option<RemoteResult>) {
    result.Some? && result.value.confirmed && result.value.externalId.Some?
  }

  function OutcomeKind(s: Status): Kind
    requires s == Succeeded || s == Failed || s == Unknown
  {
    match s
    case Succeeded => OperationSucceeded
    case Failed => OperationFailed
    case Unknown => OperationUnknown
  }

  /** `_record`: an unverifiable success counts as unknown; a final outcome is never weakened. */
  function RecordTx(r: Rows, op: OperationId, status: Status, result: Option<RemoteResult>, now: Time): (Rows, Reply)
    requires status == Succeeded || status == Failed || status == Unknown
  {
    if op !in r.operations then (r, Refused(NOT_FOUND))
    else
      var o, t := r.operations[op], r.task;
      var status' := if status == Succeeded && !Verified(result) then Unknown else status;
      var result' := if status == Succeeded && !Verified(result) then None else result;
      if || o.status == Succeeded
         || (o.status == Failed && status' != Succeeded)
         || (o.status == Unknown && status' == Unknown)
      then (r, Unchanged)
      else
        var o' := o.(status := status',
                     result := result',
                     updatedAt := if status' == Unknown then o.updatedAt else now,
                     recovery := if status' == Unknown then Some(Reconciling) else None,
                     externalId := if result'.Some? then result'.value.externalId else o.externalId);
        var t' := if status' == Unknown && !t.Halted() then t.(status := Waiting, waiting := Some(Reconciliation)) else t;
        (Emitted(r.(operations := r.operations[op := o'], task := t'), OutcomeKind(status'), About(op)), Done)
  }

  function EscalateTx(r: Rows, op: OperationId, now: Time): (Rows, Reply) {
    if op !in r.operations then (r, Unchanged)
    else
      var o, t := r.operations[op], r.task;
      if !o.status.InDoubt() || o.updatedAt > now - ESCALATION_SECONDS || o.recovery == Some(InManualReview) then (r, Unchanged)
      else
        var t' := if t.Halted() then t else t.(status := Waiting, waiting := Some(ManualReview));
        (Emitted(r.(operations := r.operations[op := o.(recovery := Some(InManualReview))], task := t'),
                 OperationEscalated, About(op)), Done)
  }

  predicate AnyStatus(r: Rows, s: Status) { exists k :: k in r.operations && r.operations[k].status == s }

  predicate HasVerification(r: Rows) { exists k :: k in r.artifacts && r.artifacts[k] == Verification }

  function Verdict(r: Rows): TaskResult {
    if r.task.cancelled then Cancelled else if AnyStatus(r, Failed) then TaskFailed else Success
  }

  /** `_finish`. It overwrites the task status of an unresolved task before it looks whether the task is over. */
  function FinishTx(r: Rows): (Rows, Reply) {
    var t := r.task;
    if t.takenOver then (r, Unchanged)
    else if AnyStatus(r, Unknown) || AnyStatus(r, Pending) then
      (r.(task := t.(status := Waiting, waiting := Some(Reconciliation))), Unchanged)
    else if !t.cancelled && AnyStatus(r, NotSubmitted) then (r, Unchanged)
    else if t.status == Terminated then (r, Unchanged)
    else if Verdict(r) == Success && !HasVerification(r) then (r, Refused(VERIFICATION_REQUIRED))
    else
      var t' := t.(status := Terminated, result := Some(Verdict(r)), waiting := None);
      (Emitted(r.(task := t'), TaskTerminated, NOTHING.(result := Some(Verdict(r)))), Done)
  }

  function PutArtifactTx(r: Rows, id: ArtifactId, kind: ArtifactKind): (Rows, Reply) {
    if id in r.artifacts then (r, Unchanged) else (r.(artifacts := r.artifacts[id := kind]), Done)
  }

  /** The worker's error report: `task.blocked`. A worker that lost its lease reports nothing. */
  function BlockTx(r: Rows, reason: Reason, event: nat, leaseHeld: bool): (Rows, Reply) {
    var t := r.task;
    if !leaseHeld then (r, Refused(WORKER_LEASE_LOST))
    else if t.Halted() || (t.status == Waiting && t.waiting == Some(reason)) then (r, Unchanged)
    else (Emitted(r.(task := t.(status := Waiting, waiting := Some(reason))), OtherKind(event), NOTHING), Done)
  }

  /** The harnesses' waits: `repair.waiting` and `investigation.completed`. */
  function WaitTx(r: Rows, reason: Reason, event: nat): (Rows, Reply) {
    var t := r.task;
    if t.Halted() || t.waiting == Some(reason) then (r, Unchanged)
    else (Emitted(r.(task := t.(status := Waiting, waiting := Some(reason))), OtherKind(event), NOTHING), Done)
  }

  function StartTx(r: Rows): (Rows, Reply) {
    var t := r.task;
    if t.cancelled || t.takenOver || t.status != Queued then (r, Unchanged)
    else (r.(task := t.(status := Running, waiting := None)), Done)
  }

  /** The investigation harness, which only a live deployment builds, does not ask whether the task is over. */
  function AwaitEvidenceTx(r: Rows): (Rows, Reply) {
    var t := r.task;
    if t.cancelled || t.takenOver then (r, Unchanged)
    else (r.(task := t.(status := Waiting, waiting := Some(EvidenceRequired))), Done)
  }

  function NoticeTx(r: Rows, event: nat): (Rows, Reply) { (Emitted(r, OtherKind(event), NOTHING), Done) }
}
