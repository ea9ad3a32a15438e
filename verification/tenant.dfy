/** All tasks of a tenant, the workers' calls in flight and the remote authority, over runs of any length. */
module Tenants {
  import opened Basics
  import opened Domain
  import opened Ledger
  import opened LedgerRuns
  import opened Authority

  /**
   * `inFlight` are the requests a worker claimed and the authority has not processed yet; they may arrive at any later
   * time or never. `rejected` are the requests the authority answered with a confirmed failure.
   */
  datatype Tenant = Tenant(
    live: bool, tasks: map<TaskId, Rows>, remote: Remote, inFlight: set<OperationId>, rejected: set<OperationId>)

  datatype Move =
    | CreateTask(task: TaskId, contract: Contract, deadline: Time)
    | OnTask(task: TaskId, step: Step)
    | Deliver(task: TaskId, op: OperationId)
    | Redeliver(task: TaskId, op: OperationId)
    | Query(op: OperationId)
    | Inject(op: OperationId, mode: Fault, remaining: nat)

  function Empty(live: bool): Tenant { Tenant(live, map[], Remote(map[], map[], map[]), {}, {}) }

  function Operations(tasks: map<TaskId, Rows>): set<OperationId> {
    set t, op | t in tasks && op in tasks[t].operations :: op
  }

  /** Evidence: success is recorded from a receipt, failure from a confirmed rejection. */
  predicate Evidenced(s: Tenant, step: Step) {
    match step
    case Propose(_, _, op, _, _) => op !in Operations(s.tasks)
    case Record(op, outcome, result, _) =>
      && (outcome == Succeeded ==> op in s.remote.receipts && result == Some(s.remote.receipts[op].result))
      && (outcome == Failed ==> op in s.rejected)
    case _ => true
  }

  /** One ledger transaction of one task; the caller whose claim succeeds sends the request. */
  function Stepped(s: Tenant, t: TaskId, step: Step): Tenant
    requires t in s.tasks && Enabled(s.tasks[t], step)
  {
    var (rows, reply) := Perform(s.tasks[t], step);
    s.(tasks := s.tasks[t := rows],
       inFlight := if step.Claim? && reply == Done then s.inFlight + {step.op} else s.inFlight)
  }

  /** The authority processes a request in flight; its answer may be lost. */
  function Delivered(s: Tenant, op: OperationId, request: Request): Tenant {
    var (remote, answer) := ExecuteTx(s.remote, op, request);
    s.(remote := remote,
       inFlight := s.inFlight - {op},
       rejected := if answer == ConfirmedFailure then s.rejected + {op} else s.rejected)
  }

  /** A move that is not possible leaves everything alone. */
  function Moved(s: Tenant, a: Move): Tenant {
    match a
    case CreateTask(t, contract, deadline) =>
      if t in s.tasks then s else s.(tasks := s.tasks[t := Created(s.live, contract, deadline)])
    case OnTask(t, step) =>
      if t in s.tasks && Enabled(s.tasks[t], step) && Evidenced(s, step) then Stepped(s, t, step) else s
    case Deliver(t, op) =>
      if t in s.tasks && op in s.tasks[t].operations && op in s.inFlight
      then Delivered(s, op, s.tasks[t].operations[op].action.request) else s
    case Redeliver(t, op) =>
      if t in s.tasks && op in s.tasks[t].operations && op in s.remote.receipts
      then s.(remote := ExecuteTx(s.remote, op, s.tasks[t].operations[op].action.request).0) else s
    case Query(op) => s.(remote := QueryTx(s.remote, op).0)
    case Inject(op, mode, remaining) => s.(remote := InjectTx(s.remote, op, mode, remaining))
  }

  function Played(s: Tenant, moves: seq<Move>): Tenant {
    if moves == [] then s else Moved(Played(s, moves[..|moves| - 1]), moves[|moves| - 1])
  }

  // ---------- The invariant that ties the ledger to the authority ----------

  /** What the authority knows about one operation, in terms of its ledger row. */
  predicate Agrees(s: Tenant, op: OperationId, o: OperationRow) {
    var sent, effected, refused := op in s.inFlight, op in s.remote.receipts, op in s.rejected;
    && !(sent && effected) && !(sent && refused) && !(effected && refused)
    && (o.attempts > 0 <==> sent || effected || refused)
    && (sent ==> o.status.InDoubt())
    && (effected ==> o.status.InDoubt() || o.status == Succeeded)
    && (refused ==> o.status.InDoubt() || o.status == Failed)
    && (o.status == Succeeded ==> effected && o.result == Some(s.remote.receipts[op].result))
    && (effected ==> s.remote.receipts[op].request == o.action.request)
  }

  ghost predicate TaskSound(s: Tenant, t: TaskId)
    requires t in s.tasks
  {
    && Sound(s.tasks[t])
    && s.tasks[t].live == s.live
    && forall op :: op in s.tasks[t].operations ==> Agrees(s, op, s.tasks[t].operations[op])
  }

  predicate OneOwner(tasks: map<TaskId, Rows>) {
    forall t, u, op :: t in tasks && u in tasks && op in tasks[t].operations && op in tasks[u].operations ==> t == u
  }

  predicate NothingForeign(s: Tenant) {
    s.inFlight <= Operations(s.tasks) && s.remote.receipts.Keys <= Operations(s.tasks) && s.rejected <= Operations(s.tasks)
  }

  ghost predicate TenantSound(s: Tenant) {
    && (forall t :: t in s.tasks ==> TaskSound(s, t))
    && OneOwner(s.tasks)
    && NothingForeign(s)
    && RemoteSound(s.remote)
  }

  lemma EmptySound(live: bool)
    ensures TenantSound(Empty(live))
  {
    forall r: Resource ensures ConservedAt(Empty(live).remote, r) {
      assert ReceiptsOn(Empty(live).remote, r) == {};
    }
  }

  lemma AgreesAt(s: Tenant, t: TaskId, op: OperationId)
    requires t in s.tasks && TaskSound(s, t) && op in s.tasks[t].operations
    ensures Agrees(s, op, s.tasks[t].operations[op])
    ensures s.tasks[t].operations[op].status == NotSubmitted ==> s.tasks[t].operations[op].attempts == 0
    ensures s.tasks[t].operations[op].status.InDoubt() ==> s.tasks[t].operations[op].attempts > 0
  {
    hide HistorySound, Sequenced, TerminationSound;
    RowsAt(s.tasks[t].events, s.tasks[t].operations, s.tasks[t].approvals, op);
  }

  /** The only operation a step touches, if it touches one. */
  function Touched(step: Step): Option<OperationId> {
    match step
    case Propose(_, _, op, _, _) => Some(op)
    case Claim(op, _) => Some(op)
    case Record(op, _, _, _) => Some(op)
    case Reject(op, _) => Some(op)
    case Escalate(op, _) => Some(op)
    case _ => None
  }

  ghost predicate Framed(r: Rows, r': Rows, op: OperationId) {
    && r'.live == r.live
    && (r'.operations == r.operations || (op in r'.operations && r'.operations == r.operations[op := r'.operations[op]]))
  }

  lemma StepFrame(r: Rows, step: Step)
    requires Enabled(r, step)
    ensures var r' := Perform(r, step).0;
      if Touched(step).Some? then Framed(r, r', Touched(step).value) else r'.live == r.live && r'.operations == r.operations
  {
    hide Framed;
    match step
    case Propose(key, action, op, approval, env) => ProposeFrame(r, key, action, op, approval, env);
    case Claim(op, env) => ClaimFrame(r, op, env);
    case Record(op, outcome, result, now) => RecordFrame(r, op, outcome, result, now);
    case Reject(op, now) => RecordFrame(r, op, Failed, None, now);
    case Escalate(op, now) => EscalateFrame(r, op, now);
    case _ =>
  }

  lemma ProposeFrame(r: Rows, key: string, action: Action, op: OperationId, approval: ApprovalId, env: Env)
    ensures Framed(r, ProposeTx(r, key, action, op, approval, env).0, op)
  {
    hide StepTaken, StepBinds, Blocker;
  }

  lemma ClaimFrame(r: Rows, op: OperationId, env: Env)
    ensures Framed(r, ClaimTx(r, op, env).0, op)
    ensures ClaimTx(r, op, env).1 == Done ==>
              && op in r.operations
              && r.operations[op].status == NotSubmitted
              && ClaimTx(r, op, env).0.operations[op].status == Pending
              && ClaimTx(r, op, env).0.operations[op].attempts == r.operations[op].attempts + 1
              && ClaimTx(r, op, env).0.operations[op].action == r.operations[op].action
    ensures ClaimTx(r, op, env).1 != Done ==> ClaimTx(r, op, env).0 == r
  {
    hide ValidApproval, Blocker;
  }

  lemma RecordFrame(r: Rows, op: OperationId, outcome: Status, result: Option<RemoteResult>, now: Time)
    requires outcome == Succeeded || outcome == Failed || outcome == Unknown
    ensures Framed(r, RecordTx(r, op, outcome, result, now).0, op)
    ensures op in r.operations ==>
              var o, o' := r.operations[op], RecordTx(r, op, outcome, result, now).0.operations[op];
              && o'.attempts == o.attempts
              && o'.action == o.action
              && (o' == o || (o'.status == outcome && o'.result == result) || (outcome == Succeeded && !Verified(result)))
              && (o.status == Succeeded || (o.status == Failed && outcome != Succeeded) ==> o' == o)
  {
  }

  lemma EscalateFrame(r: Rows, op: OperationId, now: Time)
    ensures Framed(r, EscalateTx(r, op, now).0, op)
    ensures op in r.operations ==> EscalateTx(r, op, now).0.operations[op] ==
                                     r.operations[op].(recovery := EscalateTx(r, op, now).0.operations[op].recovery)
  {
  }

  /** After an enabled, evidenced step the touched row still agrees with the authority. */
  lemma TouchedAgrees(s: Tenant, t: TaskId, step: Step)
    requires TenantSound(s) && t in s.tasks && Enabled(s.tasks[t], step) && Evidenced(s, step) && Touched(step).Some?
    requires Touched(step).value in Perform(s.tasks[t], step).0.operations
    ensures Agrees(Stepped(s, t, step), Touched(step).value, Perform(s.tasks[t], step).0.operations[Touched(step).value])
  {
    hide Sound, OneOwner, RemoteSound;
    var r, op := s.tasks[t], Touched(step).value;
    if op in r.operations { AgreesAt(s, t, op); }
    match step
    case Propose(key, action, _, approval, env) => ProposedAgrees(s, t, step);
    case Claim(_, env) =>
      hide ClaimTx;
      ClaimFrame(r, op, env);
    case Record(_, outcome, result, now) =>
      hide RecordTx;
      RecordFrame(r, op, outcome, result, now);
      if op in s.remote.receipts { ReceiptVerified(s.remote, op); }
    case Reject(_, now) =>
      hide RecordTx;
      RecordFrame(r, op, Failed, None, now);
    case Escalate(_, now) =>
      hide EscalateTx;
      EscalateFrame(r, op, now);
  }

  lemma ReceiptVerified(m: Remote, op: OperationId)
    requires RemoteSound(m) && op in m.receipts
    ensures Verified(Some(m.receipts[op].result))
  {
    assert ReceiptSound(m, op);
  }

  lemma ProposedAgrees(s: Tenant, t: TaskId, step: Step)
    requires NothingForeign(s) && t in s.tasks && Enabled(s.tasks[t], step) && Evidenced(s, step) && step.Propose?
    requires step.id in Perform(s.tasks[t], step).0.operations
    ensures Agrees(Stepped(s, t, step), step.id, Perform(s.tasks[t], step).0.operations[step.id])
  {
    hide StepTaken, StepBinds, Blocker;
    assert step.id !in Operations(s.tasks);
  }

  lemma StepTaskSound(s: Tenant, t: TaskId, step: Step, u: TaskId)
    requires TenantSound(s) && t in s.tasks && Enabled(s.tasks[t], step) && Evidenced(s, step) && u in s.tasks
    ensures TaskSound(Stepped(s, t, step), u)
  {
    hide Sound, Enabled, Evidenced, Perform, NothingForeign, RemoteSound;
    var s' := Stepped(s, t, step);
    StepFrame(s.tasks[t], step);
    StepSound(s.tasks[t], step);
    if Touched(step).Some? && Touched(step).value in Perform(s.tasks[t], step).0.operations { TouchedAgrees(s, t, step); }
    forall op | op in s'.tasks[u].operations ensures Agrees(s', op, s'.tasks[u].operations[op]) {
      if op in s.tasks[u].operations && !(u == t && Touched(step) == Some(op)) {
        assert Agrees(s, op, s.tasks[u].operations[op]);
        if step.Claim? && op == step.op { ClaimOwner(s, t, step, u); }
      }
    }
  }

  lemma ClaimOwner(s: Tenant, t: TaskId, step: Step, u: TaskId)
    requires OneOwner(s.tasks) && t in s.tasks && u in s.tasks && Enabled(s.tasks[t], step)
    requires step.Claim? && step.op in s.tasks[u].operations && u != t
    ensures Stepped(s, t, step).inFlight == s.inFlight
  {
  }

  lemma StepOwnersSound(s: Tenant, t: TaskId, step: Step)
    requires OneOwner(s.tasks) && NothingForeign(s) && t in s.tasks && Enabled(s.tasks[t], step) && Evidenced(s, step)
    ensures OneOwner(Stepped(s, t, step).tasks) && NothingForeign(Stepped(s, t, step))
  {
    var rows := Perform(s.tasks[t], step).0;
    StepFrame(s.tasks[t], step);
    if !step.Propose? { StepKeys(s.tasks[t], step); }
    assert rows.operations.Keys <= s.tasks[t].operations.Keys + if step.Propose? then {step.id} else {};
    Owners(s.tasks, t, rows, if step.Propose? then {step.id} else {});
    assert step.Claim? && Perform(s.tasks[t], step).1 == Done ==> step.op in Operations(s.tasks);
  }

  /** Replacing one task's rows adds only fresh operations, so no operation gets a second owner. */
  lemma Owners(tasks: map<TaskId, Rows>, t: TaskId, rows: Rows, fresh': set<OperationId>)
    requires OneOwner(tasks) && t in tasks && fresh' !! Operations(tasks)
    requires tasks[t].operations.Keys <= rows.operations.Keys <= tasks[t].operations.Keys + fresh'
    ensures OneOwner(tasks[t := rows]) && Operations(tasks) <= Operations(tasks[t := rows])
  {
    var tasks' := tasks[t := rows];
    forall op | op in Operations(tasks) ensures op in Operations(tasks') {
      var u :| u in tasks && op in tasks[u].operations;
      assert u in tasks' && op in tasks'[u].operations;
    }
  }

  lemma StepKeys(r: Rows, step: Step)
    requires Enabled(r, step) && !step.Propose?
    ensures Perform(r, step).0.operations.Keys == r.operations.Keys
  {
  }

  lemma StepTenantSound(s: Tenant, t: TaskId, step: Step)
    requires TenantSound(s) && t in s.tasks && Enabled(s.tasks[t], step) && Evidenced(s, step)
    ensures TenantSound(Stepped(s, t, step))
  {
    hide TaskSound, OneOwner, NothingForeign, RemoteSound, Enabled, Perform, Evidenced;
    forall u | u in s.tasks ensures TaskSound(Stepped(s, t, step), u) { StepTaskSound(s, t, step, u); }
    StepOwnersSound(s, t, step);
  }

  /** Only one receipt or one rejection appears, and it is about the delivered request. */
  lemma DeliveryFrame(m: Remote, op: OperationId, request: Request)
    requires op !in m.receipts
    ensures var (m', answer) := ExecuteTx(m, op, request);
      if answer == ConfirmedFailure then m' == m
      else op in m'.receipts && m'.receipts == m.receipts[op := m'.receipts[op]] && m'.receipts[op].request == request
  {
  }

  lemma DeliveredAgrees(s: Tenant, op: OperationId, request: Request, k: OperationId, o: OperationRow)
    requires op in s.inFlight && op !in s.remote.receipts && Agrees(s, k, o) && (k == op ==> o.action.request == request)
    ensures Agrees(Delivered(s, op, request), k, o)
  {
    DeliveryFrame(s.remote, op, request);
    hide ExecuteTx;
  }

  lemma DeliverTenantSound(s: Tenant, t: TaskId, op: OperationId)
    requires TenantSound(s) && t in s.tasks && op in s.tasks[t].operations && op in s.inFlight
    ensures TenantSound(Delivered(s, op, s.tasks[t].operations[op].action.request))
  {
    hide Sound, RemoteSound, ExecuteTx, Agrees;
    var request := s.tasks[t].operations[op].action.request;
    var s' := Delivered(s, op, request);
    assert op !in s.remote.receipts by { NotYetReceived(s, t, op); }
    forall u, k | u in s.tasks && k in s.tasks[u].operations ensures Agrees(s', k, s.tasks[u].operations[k]) {
      DeliveredAgrees(s, op, request, k, s.tasks[u].operations[k]);
    }
    ExecuteSound(s.remote, op, request);
    DeliveryFrame(s.remote, op, request);
  }

  lemma NotYetReceived(s: Tenant, t: TaskId, op: OperationId)
    requires t in s.tasks && TaskSound(s, t) && op in s.tasks[t].operations && op in s.inFlight
    ensures op !in s.remote.receipts
  {
    AgreesAt(s, t, op);
  }

  /** Moves that change neither receipts nor tasks. */
  lemma QuietTenantSound(s: Tenant, s': Tenant)
    requires TenantSound(s)
    requires s' == s.(remote := s'.remote) && s'.remote.receipts == s.remote.receipts && s'.remote.resources == s.remote.resources
    ensures TenantSound(s')
  {
    hide Sound, RemoteSound;
    assert RemoteSound(s'.remote) by { SameEffects(s.remote, s'.remote); }
    SameAgreement(s, s');
    forall u | u in s'.tasks ensures TaskSound(s', u) {
      assert TaskSound(s, u);
    }
  }

  lemma SameAgreement(s: Tenant, s': Tenant)
    requires s.inFlight == s'.inFlight && s.rejected == s'.rejected && s.remote.receipts == s'.remote.receipts
    ensures forall k, o :: Agrees(s, k, o) ==> Agrees(s', k, o)
  {
  }

  lemma CreateTenantSound(s: Tenant, t: TaskId, contract: Contract, deadline: Time)
    requires TenantSound(s) && t !in s.tasks
    ensures TenantSound(Moved(s, CreateTask(t, contract, deadline)))
  {
    hide Sound, RemoteSound, Agrees;
    var s' := Moved(s, CreateTask(t, contract, deadline));
    CreatedSound(s.live, contract, deadline);
    SameAgreement(s, s');
    assert s'.tasks[t].operations == map[] && s'.tasks[t].live == s.live;
    hide Created, OneOwner, NothingForeign;
    forall u | u in s'.tasks ensures TaskSound(s', u) {
      if u != t { assert TaskSound(s, u); }
    }
    NewOwner(s.tasks, t, s'.tasks[t]);
    ForeignKept(s, s');
  }

  lemma NewOwner(tasks: map<TaskId, Rows>, t: TaskId, rows: Rows)
    requires OneOwner(tasks) && t !in tasks && rows.operations == map[]
    ensures OneOwner(tasks[t := rows]) && Operations(tasks) <= Operations(tasks[t := rows])
  {
    forall op | op in Operations(tasks) ensures op in Operations(tasks[t := rows]) {
      var u :| u in tasks && op in tasks[u].operations;
      assert u in tasks[t := rows] && op in tasks[t := rows][u].operations;
    }
  }

  lemma ForeignKept(s: Tenant, s': Tenant)
    requires NothingForeign(s) && Operations(s.tasks) <= Operations(s'.tasks)
    requires s.inFlight == s'.inFlight && s.rejected == s'.rejected && s.remote.receipts == s'.remote.receipts
    ensures NothingForeign(s')
  {
  }

  lemma MoveSound(s: Tenant, a: Move)
    requires TenantSound(s)
    ensures TenantSound(Moved(s, a))
  {
    hide TenantSound, Enabled, Evidenced, Perform, Stepped, Delivered;
    match a
    case CreateTask(t, contract, deadline) => if t !in s.tasks { CreateTenantSound(s, t, contract, deadline); }
    case OnTask(t, step) =>
      if t in s.tasks && Enabled(s.tasks[t], step) && Evidenced(s, step) { StepTenantSound(s, t, step); }
    case Deliver(t, op) =>
      if t in s.tasks && op in s.tasks[t].operations && op in s.inFlight { DeliverTenantSound(s, t, op); }
    case Redeliver(t, op) => QuietTenantSound(s, Moved(s, a));
    case Query(op) => QuietTenantSound(s, Moved(s, a));
    case Inject(op, mode, remaining) => QuietTenantSound(s, Moved(s, a));
  }

  /** The ledger and the authority agree after any sequence of transactions, deliveries, queries, faults and crashes. */
  lemma {:induction false} PlaySound(live: bool, moves: seq<Move>)
    ensures TenantSound(Played(Empty(live), moves))
  {
    if moves == [] {
      EmptySound(live);
    } else {
      PlaySound(live, moves[..|moves| - 1]);
      hide TenantSound, Moved;
      MoveSound(Played(Empty(live), moves[..|moves| - 1]), moves[|moves| - 1]);
    }
  }

  // ---------- Conservation ----------

  predicate On(o: OperationRow, resource: Resource) { o.action.request.resource == resource }

  function Confirmed(s: Tenant, resource: Resource): set<OperationId> {
    set t, op | t in s.tasks && op in s.tasks[t].operations && On(s.tasks[t].operations[op], resource)
                && s.tasks[t].operations[op].status == Succeeded :: op
  }

  function Doubtful(s: Tenant, resource: Resource): set<OperationId> {
    set t, op | t in s.tasks && op in s.tasks[t].operations && On(s.tasks[t].operations[op], resource)
                && s.tasks[t].operations[op].status.InDoubt() :: op
  }

  /**
   * Exactly-once effects: the operations confirmed on a resource never exceed its effects, and its effects never exceed
   * the confirmed operations and those still in doubt.
   */
  lemma EffectsAccounted(s: Tenant, resource: Resource)
    requires TenantSound(s)
    ensures |Confirmed(s, resource)| <= Snapshot(s.remote, resource).effectCount
    ensures Snapshot(s.remote, resource).effectCount <= |Confirmed(s, resource)| + |Doubtful(s, resource)|
  {
    hide Sound, Enabled;
    var receipts := ReceiptsOn(s.remote, resource);
    assert ConservedAt(s.remote, resource);
    forall op | op in Confirmed(s, resource) ensures op in receipts {
      var t :| t in s.tasks && op in s.tasks[t].operations && On(s.tasks[t].operations[op], resource)
               && s.tasks[t].operations[op].status == Succeeded;
      assert Agrees(s, op, s.tasks[t].operations[op]);
    }
    forall op | op in receipts ensures op in Confirmed(s, resource) + Doubtful(s, resource) {
      assert op in Operations(s.tasks);
      var t :| t in s.tasks && op in s.tasks[t].operations;
      assert Agrees(s, op, s.tasks[t].operations[op]);
      assert On(s.tasks[t].operations[op], resource);
    }
    SubsetSize(Confirmed(s, resource), receipts);
    SubsetSize(receipts, Confirmed(s, resource) + Doubtful(s, resource));
  }

  /** The evaluation's safety criterion, for every run: once nothing is in doubt, confirmed operations equal effects. */
  lemma QuiescentConservation(live: bool, moves: seq<Move>, resource: Resource)
    requires var s := Played(Empty(live), moves);
      forall t, op :: t in s.tasks && op in s.tasks[t].operations ==> !s.tasks[t].operations[op].status.InDoubt()
    ensures var s := Played(Empty(live), moves);
      |Confirmed(s, resource)| == Snapshot(s.remote, resource).effectCount
  {
    PlaySound(live, moves);
    var s := Played(Empty(live), moves);
    EffectsAccounted(s, resource);
    assert Doubtful(s, resource) == {};
  }

  lemma ReceiptKept(s: Tenant, a: Move, op: OperationId)
    requires op in s.remote.receipts
    ensures op in Moved(s, a).remote.receipts && Moved(s, a).remote.receipts[op] == s.remote.receipts[op]
  {
    hide Enabled, Evidenced, Perform;
  }

  /** Receipts are for ever: no move of any caller removes or changes one. */
  lemma {:induction false} ReceiptsPersist(s: Tenant, moves: seq<Move>, op: OperationId)
    requires op in s.remote.receipts
    ensures op in Played(s, moves).remote.receipts && Played(s, moves).remote.receipts[op] == s.remote.receipts[op]
  {
    hide Moved;
    if moves != [] {
      ReceiptsPersist(s, moves[..|moves| - 1], op);
      ReceiptKept(Played(s, moves[..|moves| - 1]), moves[|moves| - 1], op);
    }
  }

  // ---------- Recording a failure without evidence ----------

  /** The approval the harness reads after a dispatch was refused for lack of one: rejected, or out of time. */
  predicate DeadApproval(r: Rows, op: OperationId, now: Time) {
    && op in r.operations && r.operations[op].action.request.call.Protected()
    && op in r.approvals
    && (r.approvals[op].status == Decided(Rejected) || r.approvals[op].expiresAt <= now)
  }

  /** What the harness writes for a dead approval, without looking at the operation again; otherwise it waits. */
  function Failing(s: Tenant, t: TaskId, op: OperationId, now: Time): Tenant
    requires t in s.tasks
  {
    if DeadApproval(s.tasks[t], op, now) then s.(tasks := s.tasks[t := RecordTx(s.tasks[t], op, Failed, None, now).0]) else s
  }

  /** The write is safe exactly when the operation is not in doubt, or the authority did reject it. */
  lemma FailingSafe(s: Tenant, t: TaskId, op: OperationId, now: Time)
    requires TenantSound(s) && t in s.tasks && op in s.tasks[t].operations
    ensures TenantSound(Failing(s, t, op, now)) <==>
            (DeadApproval(s.tasks[t], op, now) && s.tasks[t].operations[op].status.InDoubt() ==> op in s.rejected)
  {
    hide Sound, RemoteSound, RecordTx, OneOwner, NothingForeign, DeadApproval;
    if DeadApproval(s.tasks[t], op, now) {
      var r, s' := s.tasks[t], Failing(s, t, op, now);
      AgreesAt(s, t, op);
      RecordFrame(r, op, Failed, None, now);
      var status := r.operations[op].status;
      if status.InDoubt() && op !in s.rejected {
        FailedRecorded(r, op, now);
        assert !Agrees(s', op, s'.tasks[t].operations[op]);
        assert !TaskSound(s', t);
      } else {
        var step := if status == NotSubmitted then Reject(op, now) else Record(op, Failed, None, now);
        if status.InDoubt() || status == NotSubmitted {
          assert Enabled(r, step) && Evidenced(s, step);
          StepTenantSound(s, t, step);
          assert Stepped(s, t, step) == s';
        } else {
          assert RecordTx(r, op, Failed, None, now).0 == r by { Settled(r, op, now); }
          assert s'.tasks == s.tasks;
        }
      }
    }
  }

  lemma FailedRecorded(r: Rows, op: OperationId, now: Time)
    requires op in r.operations && r.operations[op].status.InDoubt()
    ensures RecordTx(r, op, Failed, None, now).0.operations[op].status == Failed
  {
  }

  lemma Settled(r: Rows, op: OperationId, now: Time)
    requires op in r.operations && (r.operations[op].status == Succeeded || r.operations[op].status == Failed)
    ensures RecordTx(r, op, Failed, None, now).0 == r
  {
  }

  /** A protected operation whose approval is not an approval was never dispatched. */
  lemma OnlyApprovedInDoubt(r: Rows, op: OperationId)
    requires Sound(r) && op in r.operations && op in r.approvals && r.operations[op].action.request.call.Protected()
    ensures r.operations[op].status.InDoubt() ==> r.approvals[op].status == Decided(Approved)
  {
    hide HistorySound, Sequenced, TerminationSound;
    RowsAt(r.events, r.operations, r.approvals, op);
  }

  /** So the harness errs only on an approval that was given, used, and has expired since. */
  lemma FailingByApproval(s: Tenant, t: TaskId, op: OperationId, now: Time)
    requires TenantSound(s) && t in s.tasks && op in s.tasks[t].operations && op in s.tasks[t].approvals
    requires !(s.tasks[t].approvals[op].status == Decided(Approved) && s.tasks[t].approvals[op].expiresAt <= now)
    ensures TenantSound(Failing(s, t, op, now))
  {
    hide Sound, RemoteSound;
    assert TaskSound(s, t);
    FailingSafe(s, t, op, now);
    if DeadApproval(s.tasks[t], op, now) { OnlyApprovedInDoubt(s.tasks[t], op); }
  }

  /** The same rows, before the authority's refusal arrived. */
  function Unanswered(s: Tenant, op: OperationId): Tenant {
    if op in s.rejected then s.(rejected := s.rejected - {op}, inFlight := s.inFlight + {op}) else s
  }

  lemma UnansweredSound(s: Tenant, t: TaskId, op: OperationId)
    requires TenantSound(s) && t in s.tasks && op in s.tasks[t].operations && s.tasks[t].operations[op].status.InDoubt()
    ensures TenantSound(Unanswered(s, op))
  {
    hide Sound, RemoteSound;
    var s' := Unanswered(s, op);
    forall u | u in s'.tasks ensures TaskSound(s', u) {
      assert TaskSound(s, u);
      forall k | k in s.tasks[u].operations ensures Agrees(s', k, s.tasks[u].operations[k]) {
        assert Agrees(s, k, s.tasks[u].operations[k]);
        if k == op { assert u == t; }
      }
    }
  }

  /** In terms of what the database shows: with a dead approval the write is safe for whatever the authority did if and only if
      the operation is not in doubt. */
  lemma FailingExactly(s: Tenant, t: TaskId, op: OperationId, now: Time)
    requires TenantSound(s) && t in s.tasks && op in s.tasks[t].operations && DeadApproval(s.tasks[t], op, now)
    ensures !s.tasks[t].operations[op].status.InDoubt() ==> TenantSound(Failing(s, t, op, now))
    ensures s.tasks[t].operations[op].status.InDoubt() ==>
              var s' := Unanswered(s, op);
              && s'.tasks == s.tasks && s'.remote == s.remote && TenantSound(s')
              && !TenantSound(Failing(s', t, op, now))
  {
    FailingSafe(s, t, op, now);
    if s.tasks[t].operations[op].status.InDoubt() {
      UnansweredSound(s, t, op);
      hide TenantSound, DeadApproval;
      FailingSafe(Unanswered(s, op), t, op, now);
    }
  }

  /**
   * What goes wrong otherwise: a request still in flight that the authority accepts takes effect behind an operation
   * recorded as failed, and conservation is lost although nothing is in doubt.
   */
  lemma FailingLosesAnEffect(s: Tenant, t: TaskId, op: OperationId, now: Time)
    requires TenantSound(s) && t in s.tasks && op in s.tasks[t].operations && op in s.inFlight
    requires DeadApproval(s.tasks[t], op, now)
    requires ExecuteTx(s.remote, op, s.tasks[t].operations[op].action.request).1 != ConfirmedFailure
    ensures var s' := Delivered(Failing(s, t, op, now), op, s.tasks[t].operations[op].action.request);
      op in s'.remote.receipts && s'.tasks[t].operations[op].status == Failed
  {
    hide Sound, RemoteSound;
    AgreesAt(s, t, op);
    FailedRecorded(s.tasks[t], op, now);
    DeliveryFrame(s.remote, op, s.tasks[t].operations[op].action.request);
  }

  // ---------- A run in which that happens ----------

  const WILLING := Env(1, true, true, true, true, false, {}, true)

  const DEPLOYMENT := Action(Request(Deploy(3, 1), 5), [])

  const PRODUCTION := Contract(0, 5, 1, true)

  /** A deployment is proposed. A first worker is refused for lack of an approval, and stalls. Then somebody approves, and a
      second worker claims; its request is on the way. */
  function ClaimedDeployment(): seq<Move> {
    [CreateTask(0, PRODUCTION, 100),
     OnTask(0, Propose("deploy", DEPLOYMENT, 7, 8, WILLING)),
     OnTask(0, Claim(7, WILLING)),
     OnTask(0, Decide(7, true, DEPLOYMENT, 2, WILLING)),
     OnTask(0, Claim(7, WILLING))]
  }

  /** What the example's rows look like, up to their history. */
  predicate Deploying(r: Rows, status: Status, approval: ApprovalStatus) {
    && r.operations.Keys == {7} && r.approvals.Keys == {7}
    && r.operations[7].action == DEPLOYMENT && r.operations[7].status == status
    && r.approvals[7].payload == DEPLOYMENT && r.approvals[7].status == approval && r.approvals[7].expiresAt == 1 + APPROVAL_SECONDS
    && r.task.contract == PRODUCTION && !r.task.Halted() && r.task.deadline == 100 && !r.live
  }

  lemma ProposedExample()
    ensures Deploying(ProposeTx(Created(false, PRODUCTION, 100), "deploy", DEPLOYMENT, 7, 8, WILLING).0, NotSubmitted, Undecided)
  {
  }

  lemma RefusedExample(r: Rows)
    requires Deploying(r, NotSubmitted, Undecided)
    ensures ClaimTx(r, 7, WILLING) == (r, Refused(APPROVAL_REQUIRED))
  {
  }

  lemma DecidedExample(r: Rows)
    requires Deploying(r, NotSubmitted, Undecided)
    ensures Deploying(DecideTx(r, 7, true, DEPLOYMENT, 2, WILLING).0, NotSubmitted, Decided(Approved))
  {
  }

  lemma ClaimedExample(r: Rows)
    requires Deploying(r, NotSubmitted, Decided(Approved))
    ensures Deploying(ClaimTx(r, 7, WILLING).0, Pending, Decided(Approved)) && ClaimTx(r, 7, WILLING).1 == Done
  {
  }

  lemma MovedExample()
    ensures var s := Played(Empty(false), ClaimedDeployment());
      s.tasks.Keys == {0} && Deploying(s.tasks[0], Pending, Decided(Approved)) && s.inFlight == {7} && s.remote == Remote(map[], map[], map[])
    ensures var s := Played(Empty(false), ClaimedDeployment()[..2]);
      0 in s.tasks && ClaimTx(s.tasks[0], 7, WILLING).1 == Refused(APPROVAL_REQUIRED)
  {
    var moves := ClaimedDeployment();
    PlayedFive(Empty(false), moves);
    var s1 := Moved(Empty(false), moves[0]);
    assert s1.tasks == map[0 := Created(false, PRODUCTION, 100)] && s1.inFlight == {} && s1.remote == Remote(map[], map[], map[]);
    ProposedMove(s1);
    var s2 := Moved(s1, moves[1]);
    RefusedMove(s2);
    DecidedMove(s2);
    hide Moved, Played;
  }

  lemma ProposedMove(s: Tenant)
    requires s.tasks == map[0 := Created(false, PRODUCTION, 100)] && s.inFlight == {}
    ensures var s' := Moved(s, OnTask(0, Propose("deploy", DEPLOYMENT, 7, 8, WILLING)));
      s'.tasks.Keys == {0} && Deploying(s'.tasks[0], NotSubmitted, Undecided) && s'.inFlight == {} && s'.remote == s.remote
  {
    ProposedExample();
    FreshExample(s);
    hide Created, ProposeTx;
  }

  lemma RefusedMove(s: Tenant)
    requires s.tasks.Keys == {0} && Deploying(s.tasks[0], NotSubmitted, Undecided)
    ensures Moved(s, OnTask(0, Claim(7, WILLING))) == s
  {
    RefusedExample(s.tasks[0]);
    hide ClaimTx;
    assert s.tasks[0 := s.tasks[0]] == s.tasks;
  }

  lemma DecidedMove(s: Tenant)
    requires s.tasks.Keys == {0} && Deploying(s.tasks[0], NotSubmitted, Undecided) && s.inFlight == {}
    ensures var s' := Moved(Moved(s, OnTask(0, Decide(7, true, DEPLOYMENT, 2, WILLING))), OnTask(0, Claim(7, WILLING)));
      s'.tasks.Keys == {0} && Deploying(s'.tasks[0], Pending, Decided(Approved)) && s'.inFlight == {7} && s'.remote == s.remote
    ensures ClaimTx(s.tasks[0], 7, WILLING).1 == Refused(APPROVAL_REQUIRED)
  {
    RefusedExample(s.tasks[0]);
    DecidedExample(s.tasks[0]);
    ClaimedExample(DecideTx(s.tasks[0], 7, true, DEPLOYMENT, 2, WILLING).0);
    hide ClaimTx, DecideTx;
  }

  lemma FreshExample(s: Tenant)
    requires s.tasks == map[0 := Created(false, PRODUCTION, 100)]
    ensures 7 !in Operations(s.tasks) && Fresh(s.tasks[0], 7, 8)
  {
  }

  lemma PlayedFive(s: Tenant, moves: seq<Move>)
    requires |moves| == 5
    ensures Played(s, moves) == Moved(Moved(Moved(Moved(Moved(s, moves[0]), moves[1]), moves[2]), moves[3]), moves[4])
    ensures Played(s, moves[..2]) == Moved(Moved(s, moves[0]), moves[1])
  {
    hide Moved;
    assert moves[..4][..3] == moves[..3] && moves[..3][..2] == moves[..2] && moves[..2][..1] == moves[..1] && moves[..1][..0] == [];
    assert Played(s, moves[..1]) == Moved(Played(s, moves[..1][..0]), moves[0]);
    assert Played(s, moves[..2]) == Moved(Played(s, moves[..1]), moves[1]);
    assert Played(s, moves[..3]) == Moved(Played(s, moves[..2]), moves[2]);
    assert Played(s, moves[..4]) == Moved(Played(s, moves[..3]), moves[3]);
  }

  /** Conservation really is lost: the stalled worker goes on when the approval has expired, and finds it dead. Then there is an
      effect on the resource, no operation in doubt, and none confirmed. */
  lemma LostEffectExample()
    ensures var s := Played(Empty(false), ClaimedDeployment());
      && 0 in s.tasks && 7 in s.tasks[0].operations
      && 0 in Played(Empty(false), ClaimedDeployment()[..2]).tasks
      && ClaimTx(Played(Empty(false), ClaimedDeployment()[..2]).tasks[0], 7, WILLING).1 == Refused(APPROVAL_REQUIRED)
      && DeadApproval(s.tasks[0], 7, 86_401)
      && var s' := Delivered(Failing(s, 0, 7, 86_401), 7, DEPLOYMENT.request);
         && Snapshot(s'.remote, 5).effectCount == 1
         && Confirmed(s', 5) == {}
         && Doubtful(s', 5) == {}
  {
    MovedExample();
    LostEffect(Played(Empty(false), ClaimedDeployment()));
  }

  lemma LostEffect(s: Tenant)
    requires s.tasks.Keys == {0} && Deploying(s.tasks[0], Pending, Decided(Approved)) && s.remote == Remote(map[], map[], map[])
    ensures 0 in s.tasks && 7 in s.tasks[0].operations && DeadApproval(s.tasks[0], 7, 86_401)
    ensures var s' := Delivered(Failing(s, 0, 7, 86_401), 7, DEPLOYMENT.request);
      Snapshot(s'.remote, 5).effectCount == 1 && Confirmed(s', 5) == {} && Doubtful(s', 5) == {}
  {
    FailedRecorded(s.tasks[0], 7, 86_401);
    RecordFrame(s.tasks[0], 7, Failed, None, 86_401);
    var s' := Delivered(Failing(s, 0, 7, 86_401), 7, DEPLOYMENT.request);
    assert s'.tasks[0].operations.Keys == {7} && s'.tasks[0].operations[7].status == Failed;
  }
}
