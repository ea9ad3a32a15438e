/** What every transaction keeps, over runs of any length and any interleaving. */
module LedgerRuns {
  import opened Basics
  import opened Domain
  import opened History
  import opened Ledger

  datatype Step =
    | Stop(takeover: bool, authorized: bool)
    | Resume(version: int, env: Env)
    | Propose(step: string, action: Action, id: OperationId, approval: ApprovalId, env: Env)
    | Decide(op: OperationId, approve: bool, expected: Action, subject: Subject, env: Env)
    | Claim(op: OperationId, env: Env)
    | Record(op: OperationId, outcome: Status, result: Option<RemoteResult>, now: Time)
    | Reject(op: OperationId, now: Time)
    | Escalate(op: OperationId, now: Time)
    | Finish
    | PutArtifact(artifact: ArtifactId, kind: ArtifactKind)
    | Block(reason: Reason, event: nat, leaseHeld: bool)
    | Wait(reason: Reason, event: nat)
    | Start
    | AwaitEvidence
    | Notice(event: nat)

  predicate Fresh(r: Rows, op: OperationId, approval: ApprovalId) {
    op !in r.operations && op !in r.approvals && forall k :: k in r.approvals ==> r.approvals[k].id != approval
  }

  predicate Dispatched(r: Rows, op: OperationId) { op in r.operations && r.operations[op].attempts > 0 }

  /**
   * When the callers run each transaction: an outcome is recorded only for a dispatched operation; the harness fails an
   * operation it finds unsubmitted behind a dead approval; a live deployment finishes cancelled tasks only and is the
   * only one that waits for evidence.
   */
  predicate Enabled(r: Rows, s: Step) {
    match s
    case Propose(_, _, op, approval, _) => Fresh(r, op, approval)
    case Record(op, outcome, _, _) =>
      Dispatched(r, op) && (outcome == Succeeded || outcome == Failed || outcome == Unknown)
    case Reject(op, _) => op in r.operations && r.operations[op].status == NotSubmitted
    case Finish => r.live ==> r.task.cancelled
    case AwaitEvidence => r.live
    case _ => true
  }

  function Perform(r: Rows, s: Step): (Rows, Reply)
    requires Enabled(r, s)
  {
    match s
    case Stop(takeover, authorized) => StopTx(r, takeover, authorized)
    case Resume(version, env) => ResumeTx(r, version, env)
    case Propose(step, action, op, approval, env) => ProposeTx(r, step, action, op, approval, env)
    case Decide(op, approve, expected, subject, env) => DecideTx(r, op, approve, expected, subject, env)
    case Claim(op, env) => ClaimTx(r, op, env)
    case Record(op, outcome, result, now) => RecordTx(r, op, outcome, result, now)
    case Reject(op, now) => RecordTx(r, op, Failed, None, now)
    case Escalate(op, now) => EscalateTx(r, op, now)
    case Finish => FinishTx(r)
    case PutArtifact(artifact, kind) => PutArtifactTx(r, artifact, kind)
    case Block(reason, event, leaseHeld) => BlockTx(r, reason, event, leaseHeld)
    case Wait(reason, event) => WaitTx(r, reason, event)
    case Start => StartTx(r)
    case AwaitEvidence => AwaitEvidenceTx(r)
    case Notice(event) => NoticeTx(r, event)
  }

  /** A step that is not enabled leaves the rows alone. */
  function Next(r: Rows, s: Step): Rows {
    if Enabled(r, s) then Perform(r, s).0 else r
  }

  function Run(r: Rows, steps: seq<Step>): Rows {
    if steps == [] then r else Next(Run(r, steps[..|steps| - 1]), steps[|steps| - 1])
  }

  // ---------- The invariant ----------

  function Find<V>(m: map<OperationId, V>, k: OperationId): Option<V> { if k in m then Some(m[k]) else None }

  function GuardedOperations(operations: map<OperationId, OperationRow>): set<OperationId> {
    set op | op in operations && operations[op].action.request.call.Protected()
  }

  predicate Sequenced(es: seq<Event>, last: nat, release: Release) {
    && |es| == last
    && Numbered(es)
    && es != []
    && es[0].kind == TaskCreated
    && es[0].payload.release == Some(release)
  }

  predicate HistorySound(es: seq<Event>, operations: map<OperationId, OperationRow>) {
    HistoryAccepted(es, operations.Keys, GuardedOperations(operations))
  }

  predicate OperationSound(es: seq<Event>, op: OperationId, o: OperationRow, approval: Option<ApprovalRow>) {
    && op in ProposalOrder(es)
    && LastStatus(es, op) == Some(o.status)
    && o.attempts == (if op in DispatchOrder(es) then 1 else 0)
    && (if o.attempts == 0 then o.status == NotSubmitted || o.status == Failed else o.status != NotSubmitted)
    && (o.status == Succeeded ==> Verified(o.result))
    && (o.action.request.call.Protected() ==>
          approval.Some? && (o.attempts > 0 ==> approval.value.status == Decided(Approved)))
  }

  predicate ApprovalSound(es: seq<Event>, op: OperationId, a: ApprovalRow, operation: Option<OperationRow>) {
    && operation.Some?
    && a.payload == operation.value.action
    && a.status == match LastDecision(es, op) case Some(d) => Decided(d) case None => Undecided
  }

  /** Every operation and every approval is what the history says it is. */
  ghost predicate RowsSound(
    es: seq<Event>, operations: map<OperationId, OperationRow>, approvals: map<OperationId, ApprovalRow>) {
    && (forall op :: op in operations ==> OperationSound(es, op, operations[op], Find(approvals, op)))
    && (forall op :: op in approvals ==> ApprovalSound(es, op, approvals[op], Find(operations, op)))
  }

  predicate ApprovalIdsDistinct(approvals: map<OperationId, ApprovalRow>) {
    forall j, k :: j in approvals && k in approvals && j != k ==> approvals[j].id != approvals[k].id
  }

  predicate TerminationSound(r: Rows) {
    var ended := Terminations(r.events);
    if r.task.status == Terminated then
      && |ended| == 1
      && ended[0].payload.result == r.task.result
      && r.task.result.Some?
      && (forall op :: op in r.operations ==> !r.operations[op].status.InDoubt())
      && (r.task.result == Some(Success) ==>
            HasVerification(r) && forall op :: op in r.operations ==> r.operations[op].status == Succeeded)
    else
      ended == [] && r.task.result == None
  }

  predicate ControlSound(t: TaskRow, live: bool) {
    && !(t.cancelled && t.takenOver)
    && (t.takenOver ==> t.status == Waiting && t.waiting == Some(HumanTakeover))
    && (t.cancelled ==> t.status == Cancelling || t.status == Waiting || t.status == Terminated)
    && (t.status == Cancelling ==> t.cancelled)
    && (live && t.status == Terminated ==> t.cancelled)
    && t.version >= 1
  }

  ghost predicate Sound(r: Rows) {
    && Sequenced(r.events, r.task.nextSequence, r.task.contract.release)
    && HistorySound(r.events, r.operations)
    && RowsSound(r.events, r.operations, r.approvals)
    && ApprovalIdsDistinct(r.approvals)
    && TerminationSound(r)
    && ControlSound(r.task, r.live)
    && |r.operations| <= TOOL_BUDGET
  }

  lemma CreatedSound(live: bool, contract: Contract, deadline: Time)
    ensures Sound(Created(live, contract, deadline))
  {
    var e := Event(1, TaskCreated, NOTHING.(release := Some(contract.release)));
    assert Created(live, contract, deadline).events == [] + [e];
    Append([], e);
  }

  lemma SequencedAppend(es: seq<Event>, last: nat, release: Release, e: Event)
    requires Sequenced(es, last, release) && e.sequence == last + 1
    ensures Sequenced(es + [e], last + 1, release)
  {
  }

  lemma TerminationsAppend(es: seq<Event>, e: Event)
    ensures Terminations(es + [e]) == Terminations(es) + if e.kind == TaskTerminated then [e] else []
  {
    Append(es, e);
  }

  lemma RowsAt(
    es: seq<Event>, operations: map<OperationId, OperationRow>, approvals: map<OperationId, ApprovalRow>, op: OperationId)
    requires RowsSound(es, operations, approvals)
    ensures op in operations ==> OperationSound(es, op, operations[op], Find(approvals, op))
    ensures op in approvals ==> ApprovalSound(es, op, approvals[op], Find(operations, op))
  {
  }

  predicate Plain(kind: Kind) {
    kind.OtherKind? || kind.TaskCancelled? || kind.TaskTakeover? || kind.TaskResumed? || kind.TaskTerminated?
  }

  /** An event about no operation leaves every reading of the rows as it was. */
  lemma PlainEvent(es: seq<Event>, e: Event, operations: map<OperationId, OperationRow>, approvals: map<OperationId, ApprovalRow>)
    requires HistorySound(es, operations) && RowsSound(es, operations, approvals)
    requires e.payload.operation == None && Plain(e.kind)
    ensures HistorySound(es + [e], operations) && RowsSound(es + [e], operations, approvals)
  {
    PlainAccepted(es, e, operations);
    hide HistorySound, HistoryAccepted;
    forall op | op in operations ensures OperationSound(es + [e], op, operations[op], Find(approvals, op)) {
      RowsAt(es, operations, approvals, op);
      AppendAt(es, e, op);
    }
    forall op | op in approvals ensures ApprovalSound(es + [e], op, approvals[op], Find(operations, op)) {
      RowsAt(es, operations, approvals, op);
      AppendAt(es, e, op);
    }
  }

  lemma PlainAccepted(es: seq<Event>, e: Event, operations: map<OperationId, OperationRow>)
    requires HistorySound(es, operations)
    requires e.payload.operation == None && Plain(e.kind)
    ensures HistorySound(es + [e], operations)
  {
    AppendAccepted(es, e, operations.Keys, GuardedOperations(operations));
    hide HistoryAccepted;
  }

  /** An accepted event about one operation, whose own rows follow it, leaves the others as they were. */
  lemma OperationEvent(
    es: seq<Event>, e: Event, op: OperationId,
    operations: map<OperationId, OperationRow>, operations': map<OperationId, OperationRow>,
    approvals: map<OperationId, ApprovalRow>, approvals': map<OperationId, ApprovalRow>)
    requires HistoryAccepted(es, operations'.Keys, GuardedOperations(operations')) && RowsSound(es, operations, approvals)
    requires EventAccepted(es, e, operations'.Keys, GuardedOperations(operations'))
    requires e.payload.operation == Some(op) && op in operations'
    requires operations' == operations[op := operations'[op]]
    requires approvals' == if op in approvals' then approvals[op := approvals'[op]] else approvals
    requires OperationSound(es + [e], op, operations'[op], Find(approvals', op))
    requires op in approvals' ==> ApprovalSound(es + [e], op, approvals'[op], Some(operations'[op]))
    ensures HistorySound(es + [e], operations') && RowsSound(es + [e], operations', approvals')
  {
    AppendAccepted(es, e, operations'.Keys, GuardedOperations(operations'));
    hide HistoryAccepted, EventAccepted;
    forall k | k in operations' ensures OperationSound(es + [e], k, operations'[k], Find(approvals', k)) {
      if k != op {
        assert OperationSound(es, k, operations[k], Find(approvals, k));
        AppendAt(es, e, k);
      }
    }
    forall k | k in approvals' ensures ApprovalSound(es + [e], k, approvals'[k], Find(operations', k)) {
      if k != op {
        assert ApprovalSound(es, k, approvals[k], Find(operations, k));
        AppendAt(es, e, k);
      }
    }
  }

  /** A step that only moves the task and reports it. */
  lemma ReportSound(r: Rows, t: TaskRow, kind: Kind)
    requires Sound(r) && ControlSound(t, r.live)
    requires Plain(kind) && kind != TaskTerminated
    requires t.contract == r.task.contract && t.nextSequence == r.task.nextSequence && t.result == r.task.result
    requires (t.status == Terminated) == (r.task.status == Terminated)
    ensures Sound(Emitted(r.(task := t), kind, NOTHING))
  {
    hide HistorySound, RowsSound, Sequenced, ApprovalIdsDistinct;
    var e := Event(r.task.nextSequence + 1, kind, NOTHING);
    PlainEvent(r.events, e, r.operations, r.approvals);
    SequencedAppend(r.events, r.task.nextSequence, r.task.contract.release, e);
    TerminationsAppend(r.events, e);
    var r' := Emitted(r.(task := t), kind, NOTHING);
    SameArtifacts(r, r');
    hide HasVerification;
    assert TerminationSound(r');
  }

  lemma StopSound(r: Rows, takeover: bool, authorized: bool)
    requires Sound(r)
    ensures Sound(StopTx(r, takeover, authorized).0)
  {
    hide HistorySound, RowsSound, Sequenced, ApprovalIdsDistinct, TerminationSound;
    if StopTx(r, takeover, authorized).1 == Done {
      var t := StopTx(r, takeover, authorized).0.task.(nextSequence := r.task.nextSequence);
      ReportSound(r, t, if takeover then TaskTakeover else TaskCancelled);
    }
  }

  lemma ResumeSound(r: Rows, version: int, env: Env)
    requires Sound(r)
    ensures Sound(ResumeTx(r, version, env).0)
  {
    hide HistorySound, RowsSound, Sequenced, ApprovalIdsDistinct, TerminationSound;
    if ResumeTx(r, version, env).1 == Done {
      ReportSound(r, ResumeTx(r, version, env).0.task.(nextSequence := r.task.nextSequence), TaskResumed);
    }
  }

  lemma FinishSound(r: Rows)
    requires Sound(r) && (r.live ==> r.task.cancelled)
    ensures Sound(FinishTx(r).0)
  {
    hide HistorySound, RowsSound, Sequenced, ApprovalIdsDistinct, TerminationSound;
    FinishTermination(r);
    if FinishTx(r).1 == Done {
      var e := Event(r.task.nextSequence + 1, TaskTerminated, NOTHING.(result := Some(Verdict(r))));
      PlainEvent(r.events, e, r.operations, r.approvals);
      SequencedAppend(r.events, r.task.nextSequence, r.task.contract.release, e);
    }
  }

  lemma FinishTermination(r: Rows)
    requires TerminationSound(r)
    ensures TerminationSound(FinishTx(r).0)
    ensures FinishTx(r).1 != Done ==> (FinishTx(r).0.task.status == Terminated) == (r.task.status == Terminated)
  {
    TerminationsAppend(r.events, Event(r.task.nextSequence + 1, TaskTerminated, NOTHING.(result := Some(Verdict(r)))));
    AllStatuses(r);
    SameArtifacts(r, FinishTx(r).0);
  }

  lemma AllStatuses(r: Rows)
    ensures !AnyStatus(r, Unknown) && !AnyStatus(r, Pending) <==>
            forall op :: op in r.operations ==> !r.operations[op].status.InDoubt()
    ensures !AnyStatus(r, Unknown) && !AnyStatus(r, Pending) && !AnyStatus(r, NotSubmitted) && !AnyStatus(r, Failed) ==>
              forall op :: op in r.operations ==> r.operations[op].status == Succeeded
  {
    forall op | op in r.operations ensures AnyStatus(r, r.operations[op].status) {
    }
  }

  lemma PlainSound(r: Rows, s: Step)
    requires Sound(r) && Enabled(r, s)
    requires s.Block? || s.Wait? || s.Start? || s.AwaitEvidence? || s.Notice?
    ensures Sound(Next(r, s))
  {
    hide HistorySound, RowsSound, Sequenced, ApprovalIdsDistinct;
    if s.Start? || s.AwaitEvidence? {
      SameArtifacts(r, Next(r, s));
      hide HasVerification;
      assert TerminationSound(Next(r, s));
    } else if Perform(r, s).1 == Done {
      hide TerminationSound;
      ReportSound(r, Next(r, s).task.(nextSequence := r.task.nextSequence), OtherKind(s.event));
    }
  }

  lemma PutArtifactSound(r: Rows, artifact: ArtifactId, kind: ArtifactKind)
    requires Sound(r)
    ensures Sound(PutArtifactTx(r, artifact, kind).0)
  {
    hide HistorySound, RowsSound, Sequenced;
    if HasVerification(r) {
      var k :| k in r.artifacts && r.artifacts[k] == Verification;
      var r' := PutArtifactTx(r, artifact, kind).0;
      assert k in r'.artifacts && r'.artifacts[k] == Verification;
    }
  }

  lemma ProposeSound(r: Rows, step: string, action: Action, op: OperationId, approval: ApprovalId, env: Env)
    requires Sound(r) && Fresh(r, op, approval)
    ensures Sound(ProposeTx(r, step, action, op, approval, env).0)
  {
    hide HistorySound, RowsSound, Sequenced, TerminationSound, StepTaken, StepBinds;
    var (r', reply) := ProposeTx(r, step, action, op, approval, env);
    if reply == Done {
      var e := Event(r.task.nextSequence + 1, OperationProposed, About(op));
      ProposalRows(r.events, r.operations, r'.operations, r.approvals, r'.approvals, op, e);
      SequencedAppend(r.events, r.task.nextSequence, r.task.contract.release, e);
      assert TerminationSound(r') by { ProposalTermination(r, r', op, e); }
      assert |r'.operations| == |r.operations| + 1 by { OneMore(r.operations, op, r'.operations[op]); }
      assert ApprovalIdsDistinct(r'.approvals);
    }
  }

  lemma OneMore<V>(m: map<OperationId, V>, k: OperationId, v: V)
    requires k !in m
    ensures |m[k := v]| == |m| + 1
  {
    assert m[k := v].Keys == m.Keys + {k};
    assert |m[k := v]| == |m[k := v].Keys| && |m| == |m.Keys|;
  }

  lemma ProposalTermination(r: Rows, r': Rows, op: OperationId, e: Event)
    requires TerminationSound(r) && r.task.status != Terminated && r'.task.status != Terminated
    requires r'.events == r.events + [e] && e.kind != TaskTerminated && r'.task.result == r.task.result
    ensures TerminationSound(r')
  {
    TerminationsAppend(r.events, e);
  }

  lemma ProposalRows(
    es: seq<Event>, operations: map<OperationId, OperationRow>, operations': map<OperationId, OperationRow>,
    approvals: map<OperationId, ApprovalRow>, approvals': map<OperationId, ApprovalRow>, op: OperationId, e: Event)
    requires HistorySound(es, operations) && RowsSound(es, operations, approvals)
    requires op !in operations && op !in approvals && op in operations'
    requires operations' == operations[op := operations'[op]]
    requires operations'[op].status == NotSubmitted && operations'[op].attempts == 0
    requires approvals' == if op in approvals' then approvals[op := approvals'[op]] else approvals
    requires op in approvals' ==> approvals'[op].status == Undecided && approvals'[op].payload == operations'[op].action
    requires operations'[op].action.request.call.Protected() ==> op in approvals'
    requires e.kind == OperationProposed && e.payload == About(op)
    ensures HistorySound(es + [e], operations') && RowsSound(es + [e], operations', approvals')
  {
    hide HistoryAccepted, RowsSound, EventAccepted, GuardedOperations;
    ProposalAccepted(es, operations, operations', op, e);
    OperationEvent(es, e, op, operations, operations', approvals, approvals');
  }

  /** A proposal under a fresh identity is acceptable, and says all there is to say about it. */
  lemma ProposalAccepted(
    es: seq<Event>, operations: map<OperationId, OperationRow>, operations': map<OperationId, OperationRow>, op: OperationId, e: Event)
    requires HistorySound(es, operations) && op !in operations && op in operations'
    requires operations' == operations[op := operations'[op]]
    requires e.kind == OperationProposed && e.payload == About(op)
    ensures HistoryAccepted(es, operations'.Keys, GuardedOperations(operations'))
    ensures EventAccepted(es, e, operations'.Keys, GuardedOperations(operations'))
    ensures op in ProposalOrder(es + [e]) && op !in DispatchOrder(es + [e])
    ensures LastStatus(es + [e], op) == Some(NotSubmitted) && LastDecision(es + [e], op) == None
  {
    AcceptedMonotone(es, operations.Keys, GuardedOperations(operations), operations'.Keys, GuardedOperations(operations'));
    hide HistoryAccepted;
    UnknownOperation(es, op, operations.Keys, GuardedOperations(operations));
    AppendAt(es, e, op);
  }

  /** Nothing was proposed, dispatched or decided about an operation the ledger does not know. */
  lemma {:induction false} UnknownOperation(es: seq<Event>, op: OperationId, known: set<OperationId>, guarded: set<OperationId>)
    requires HistoryAccepted(es, known, guarded) && op !in known
    ensures LastDecision(es, op) == None && op !in ProposalOrder(es) && op !in DispatchOrder(es)
  {
    if es != [] {
      var init, e := es[..|es| - 1], es[|es| - 1];
      assert es == init + [e];
      AppendAccepted(init, e, known, guarded);
      UnknownOperation(init, op, known, guarded);
    }
  }

  lemma DecideSound(r: Rows, op: OperationId, approve: bool, expected: Action, subject: Subject, env: Env)
    requires Sound(r)
    ensures Sound(DecideTx(r, op, approve, expected, subject, env).0)
  {
    hide HistorySound, RowsSound, Sequenced, TerminationSound;
    var (r', reply) := DecideTx(r, op, approve, expected, subject, env);
    if reply == Done {
      var d := if approve then Approved else Rejected;
      var e := Event(r.task.nextSequence + 1, ApprovalDecided, About(op).(decision := Some(d)));
      DecisionRows(r.events, r.operations, r.approvals, r'.approvals, op, e, d);
      SequencedAppend(r.events, r.task.nextSequence, r.task.contract.release, e);
      DecisionTermination(r, r', e);
    }
  }

  lemma DecisionRows(
    es: seq<Event>, operations: map<OperationId, OperationRow>,
    approvals: map<OperationId, ApprovalRow>, approvals': map<OperationId, ApprovalRow>, op: OperationId, e: Event, d: Decision)
    requires HistorySound(es, operations) && RowsSound(es, operations, approvals)
    requires op in operations && op in approvals && op in approvals'
    requires approvals' == approvals[op := approvals'[op]]
    requires approvals[op].status == Undecided && approvals'[op].status == Decided(d)
    requires approvals'[op].payload == approvals[op].payload
    requires e.kind == ApprovalDecided && e.payload == About(op).(decision := Some(d))
    ensures HistorySound(es + [e], operations) && RowsSound(es + [e], operations, approvals')
  {
    hide HistoryAccepted, RowsSound, GuardedOperations;
    RowsAt(es, operations, approvals, op);
    AppendAt(es, e, op);
    assert operations == operations[op := operations[op]];
    OperationEvent(es, e, op, operations, operations, approvals, approvals');
  }

  lemma DecisionTermination(r: Rows, r': Rows, e: Event)
    requires TerminationSound(r) && e.kind != TaskTerminated
    requires r'.events == r.events + [e] && r'.operations == r.operations && r'.artifacts == r.artifacts
    requires r'.task.status == r.task.status && r'.task.result == r.task.result
    ensures TerminationSound(r')
  {
    TerminationsAppend(r.events, e);
    SameArtifacts(r, r');
  }

  lemma ClaimSound(r: Rows, op: OperationId, env: Env)
    requires Sound(r)
    ensures Sound(ClaimTx(r, op, env).0)
  {
    hide HistorySound, RowsSound, Sequenced, ApprovalIdsDistinct, TerminationSound;
    var (r', reply) := ClaimTx(r, op, env);
    if reply == Done {
      var e := Event(r.task.nextSequence + 1, OperationDispatched, About(op));
      UpdateSound(r, r', op, e);
    }
  }

  /** An accepted event about one operation whose row is updated in place. */
  lemma UpdateSound(r: Rows, r': Rows, op: OperationId, e: Event)
    requires Sound(r) && op in r.operations && op in r'.operations
    requires r'.operations == r.operations[op := r'.operations[op]]
    requires r'.operations[op].action == r.operations[op].action
    requires r'.approvals == r.approvals && r'.artifacts == r.artifacts && r'.live == r.live
    requires r'.events == r.events + [e] && e.sequence == r.task.nextSequence + 1 == r'.task.nextSequence
    requires r'.task.contract == r.task.contract && r'.task.result == r.task.result
    requires e.payload == About(op) && (e.kind == OperationDispatched || e.kind == OperationEscalated || IsOutcome(e.kind))
    requires e.kind == OperationDispatched ==>
               r.operations[op].status == NotSubmitted
               && (r.operations[op].action.request.call.Protected() ==>
                     op in r.approvals && r.approvals[op].status == Decided(Approved))
    requires OperationFollows(r.operations[op], r'.operations[op], e, op)
    requires ControlSound(r'.task, r'.live)
    requires (r'.task.status == Terminated) == (r.task.status == Terminated)
    requires r.task.status == Terminated ==>
               !r'.operations[op].status.InDoubt() && (r.operations[op].status == Succeeded ==> r'.operations[op].status == Succeeded)
    ensures Sound(r')
  {
    hide HistorySound, RowsSound, Sequenced, TerminationSound;
    UpdateRows(r.events, r.operations, r'.operations, r.approvals, op, e);
    SequencedAppend(r.events, r.task.nextSequence, r.task.contract.release, e);
    UpdateTermination(r, r', op, e);
    assert |r'.operations| == |r.operations| by {
      assert r'.operations.Keys == r.operations.Keys;
      assert |r'.operations| == |r'.operations.Keys| && |r.operations| == |r.operations.Keys|;
    }
  }

  lemma UpdateTermination(r: Rows, r': Rows, op: OperationId, e: Event)
    requires TerminationSound(r) && op in r.operations && op in r'.operations
    requires r'.operations == r.operations[op := r'.operations[op]] && r'.artifacts == r.artifacts
    requires r'.events == r.events + [e] && e.kind != TaskTerminated
    requires r'.task.result == r.task.result && (r'.task.status == Terminated) == (r.task.status == Terminated)
    requires r.task.status == Terminated ==>
               !r'.operations[op].status.InDoubt() && (r.operations[op].status == Succeeded ==> r'.operations[op].status == Succeeded)
    ensures TerminationSound(r')
  {
    TerminationsAppend(r.events, e);
    SameArtifacts(r, r');
  }

  lemma UpdateRows(
    es: seq<Event>, operations: map<OperationId, OperationRow>, operations': map<OperationId, OperationRow>,
    approvals: map<OperationId, ApprovalRow>, op: OperationId, e: Event)
    requires HistorySound(es, operations) && RowsSound(es, operations, approvals)
    requires op in operations && op in operations'
    requires operations' == operations[op := operations'[op]]
    requires operations'[op].action == operations[op].action
    requires e.payload == About(op) && (e.kind == OperationDispatched || e.kind == OperationEscalated || IsOutcome(e.kind))
    requires e.kind == OperationDispatched ==>
               operations[op].status == NotSubmitted
               && (operations[op].action.request.call.Protected() ==>
                     op in approvals && approvals[op].status == Decided(Approved))
    requires OperationFollows(operations[op], operations'[op], e, op)
    ensures HistorySound(es + [e], operations') && RowsSound(es + [e], operations', approvals)
  {
    UpdateAccepted(es, operations, operations', approvals, op, e);
    hide *;
    assert op in approvals ==> approvals == approvals[op := approvals[op]];
    OperationEvent(es, e, op, operations, operations', approvals, approvals);
  }

  lemma SameArtifacts(r: Rows, r': Rows)
    requires r.artifacts == r'.artifacts
    ensures HasVerification(r) == HasVerification(r')
  {
  }

  lemma UpdateAccepted(
    es: seq<Event>, operations: map<OperationId, OperationRow>, operations': map<OperationId, OperationRow>,
    approvals: map<OperationId, ApprovalRow>, op: OperationId, e: Event)
    requires HistorySound(es, operations) && RowsSound(es, operations, approvals)
    requires op in operations && op in operations'
    requires operations' == operations[op := operations'[op]]
    requires operations'[op].action == operations[op].action
    requires e.payload == About(op) && (e.kind == OperationDispatched || e.kind == OperationEscalated || IsOutcome(e.kind))
    requires e.kind == OperationDispatched ==>
               operations[op].status == NotSubmitted
               && (operations[op].action.request.call.Protected() ==>
                     op in approvals && approvals[op].status == Decided(Approved))
    requires OperationFollows(operations[op], operations'[op], e, op)
    ensures HistoryAccepted(es, operations'.Keys, GuardedOperations(operations'))
    ensures EventAccepted(es, e, operations'.Keys, GuardedOperations(operations'))
    ensures OperationSound(es + [e], op, operations'[op], Find(approvals, op))
    ensures op in approvals ==> ApprovalSound(es + [e], op, approvals[op], Some(operations'[op]))
  {
    hide HistoryAccepted, RowsSound;
    RowsAt(es, operations, approvals, op);
    assert operations'.Keys == operations.Keys;
    assert GuardedOperations(operations') == GuardedOperations(operations);
    AppendAt(es, e, op);
  }

  /** The updated row agrees with what the event announces. */
  predicate OperationFollows(o: OperationRow, o': OperationRow, e: Event, op: OperationId) {
    && o'.status == (match Announces(e, op) case Some(s) => s case None => o.status)
    && o'.attempts == o.attempts + (if e.kind == OperationDispatched then 1 else 0)
    && (if o'.attempts == 0 then o'.status == NotSubmitted || o'.status == Failed else o'.status != NotSubmitted)
    && (o'.status == Succeeded ==> Verified(o'.result))
  }

  lemma RecordSound(r: Rows, op: OperationId, outcome: Status, result: Option<RemoteResult>, now: Time)
    requires Sound(r) && op in r.operations
    requires outcome == Succeeded || outcome == Failed || outcome == Unknown
    requires Dispatched(r, op) || (outcome == Failed && r.operations[op].status == NotSubmitted)
    ensures Sound(RecordTx(r, op, outcome, result, now).0)
  {
    hide HistorySound, RowsSound, Sequenced, ApprovalIdsDistinct;
    var (r', reply) := RecordTx(r, op, outcome, result, now);
    if reply == Done {
      var e := Event(r.task.nextSequence + 1, OutcomeKind(r'.operations[op].status), About(op));
      RowsAt(r.events, r.operations, r.approvals, op);
      UpdateSound(r, r', op, e);
    }
  }

  lemma EscalateSound(r: Rows, op: OperationId, now: Time)
    requires Sound(r)
    ensures Sound(EscalateTx(r, op, now).0)
  {
    hide HistorySound, RowsSound, Sequenced, ApprovalIdsDistinct;
    var (r', reply) := EscalateTx(r, op, now);
    if reply == Done {
      var e := Event(r.task.nextSequence + 1, OperationEscalated, About(op));
      RowsAt(r.events, r.operations, r.approvals, op);
      UpdateSound(r, r', op, e);
    }
  }

  lemma StepSound(r: Rows, s: Step)
    requires Sound(r)
    ensures Sound(Next(r, s))
  {
    hide Sound, Fresh;
    if Enabled(r, s) {
      match s
      case Stop(takeover, authorized) => StopSound(r, takeover, authorized);
      case Resume(version, env) => ResumeSound(r, version, env);
      case Propose(step, action, op, approval, env) => ProposeSound(r, step, action, op, approval, env);
      case Decide(op, approve, expected, subject, env) => DecideSound(r, op, approve, expected, subject, env);
      case Claim(op, env) => ClaimSound(r, op, env);
      case Record(op, outcome, result, now) => RecordSound(r, op, outcome, result, now);
      case Reject(op, now) => RecordSound(r, op, Failed, None, now);
      case Escalate(op, now) => EscalateSound(r, op, now);
      case Finish => FinishSound(r);
      case PutArtifact(artifact, kind) => PutArtifactSound(r, artifact, kind);
      case _ => PlainSound(r, s);
    }
  }

  lemma {:induction false} RunSound(r: Rows, steps: seq<Step>)
    requires Sound(r)
    ensures Sound(Run(r, steps))
  {
    hide Sound, Next;
    if steps != [] {
      RunSound(r, steps[..|steps| - 1]);
      StepSound(Run(r, steps[..|steps| - 1]), steps[|steps| - 1]);
    }
  }

  // ---------- What never goes back ----------

  predicate OperationEvolves(o: OperationRow, o': OperationRow) {
    && o.action == o'.action
    && o.step == o'.step
    && o.status.Rank() <= o'.status.Rank()
    && o.attempts <= o'.attempts
  }

  predicate TaskEvolves(t: TaskRow, t': TaskRow) {
    && t.contract == t'.contract
    && t.deadline == t'.deadline
    && t.version <= t'.version
    && (t.cancelled ==> t'.cancelled)
    && (t.status == Terminated ==> t'.status == Terminated && t'.result == t.result)
  }

  predicate OperationsEvolve(m: map<OperationId, OperationRow>, m': map<OperationId, OperationRow>) {
    forall op :: op in m ==> op in m' && OperationEvolves(m[op], m'[op])
  }

  predicate ApprovalsEvolve(m: map<OperationId, ApprovalRow>, m': map<OperationId, ApprovalRow>) {
    forall op :: op in m ==>
      && op in m'
      && m'[op].payload == m[op].payload
      && (m[op].status != Undecided ==> m'[op].status == m[op].status)
  }

  predicate ArtifactsEvolve(m: map<ArtifactId, ArtifactKind>, m': map<ArtifactId, ArtifactKind>) {
    forall k :: k in m ==> k in m' && m'[k] == m[k]
  }

  predicate Evolves(r: Rows, r': Rows) {
    && r.live == r'.live
    && TaskEvolves(r.task, r'.task)
    && r.events <= r'.events
    && OperationsEvolve(r.operations, r'.operations)
    && ApprovalsEvolve(r.approvals, r'.approvals)
    && ArtifactsEvolve(r.artifacts, r'.artifacts)
  }

  lemma StepEvolves(r: Rows, s: Step)
    requires Sound(r)
    ensures Evolves(r, Next(r, s))
  {
    hide HistorySound, RowsSound, Sequenced, TerminationSound;
    if Enabled(r, s) {
      match s
      case Finish => FinishEvolves(r);
      case Record(op, outcome, result, now) => RecordEvolves(r, op, outcome, result, now);
      case Reject(op, now) => RecordEvolves(r, op, Failed, None, now);
      case Propose(step, action, op, approval, env) => ProposeEvolves(r, step, action, op, approval, env);
      case _ => OtherEvolves(r, s);
    }
  }

  lemma FinishEvolves(r: Rows)
    requires TerminationSound(r)
    ensures Evolves(r, FinishTx(r).0)
  {
    AllStatuses(r);
    Unmoved(r);
  }

  lemma RecordEvolves(r: Rows, op: OperationId, outcome: Status, result: Option<RemoteResult>, now: Time)
    requires outcome == Succeeded || outcome == Failed || outcome == Unknown
    requires op in r.operations
    ensures Evolves(r, RecordTx(r, op, outcome, result, now).0)
  {
    hide OperationsEvolve, ApprovalsEvolve, ArtifactsEvolve;
    Unmoved(r);
    var r' := RecordTx(r, op, outcome, result, now).0;
    if r'.operations != r.operations { RowEvolves(r.operations, op, r'.operations[op]); }
  }

  lemma ProposeEvolves(r: Rows, step: string, action: Action, op: OperationId, approval: ApprovalId, env: Env)
    requires Fresh(r, op, approval)
    ensures Evolves(r, ProposeTx(r, step, action, op, approval, env).0)
  {
    hide StepTaken, StepBinds, OperationsEvolve, ApprovalsEvolve, ArtifactsEvolve;
    Unmoved(r);
    var r' := ProposeTx(r, step, action, op, approval, env).0;
    if r'.operations != r.operations { RowEvolves(r.operations, op, r'.operations[op]); }
    if r'.approvals != r.approvals { ApprovalEvolves(r.approvals, op, r'.approvals[op]); }
  }

  lemma OtherEvolves(r: Rows, s: Step)
    requires Enabled(r, s) && ControlSound(r.task, r.live)
    requires !s.Finish? && !s.Record? && !s.Reject? && !s.Propose?
    ensures Evolves(r, Next(r, s))
  {
    hide OperationsEvolve, ApprovalsEvolve, ArtifactsEvolve;
    Unmoved(r);
    var r' := Next(r, s);
    if s.Claim? || s.Escalate? {
      if r'.operations != r.operations { RowEvolves(r.operations, s.op, r'.operations[s.op]); }
    } else if s.Decide? {
      if r'.approvals != r.approvals { ApprovalEvolves(r.approvals, s.op, r'.approvals[s.op]); }
    } else if s.PutArtifact? {
      ArtifactEvolves(r.artifacts, s.artifact, s.kind);
    }
  }

  lemma Unmoved(r: Rows)
    ensures OperationsEvolve(r.operations, r.operations)
    ensures ApprovalsEvolve(r.approvals, r.approvals)
    ensures ArtifactsEvolve(r.artifacts, r.artifacts)
  {
  }

  lemma RowEvolves(m: map<OperationId, OperationRow>, op: OperationId, o: OperationRow)
    requires op in m ==> OperationEvolves(m[op], o)
    ensures OperationsEvolve(m, m[op := o])
  {
  }

  lemma ApprovalEvolves(m: map<OperationId, ApprovalRow>, op: OperationId, a: ApprovalRow)
    requires op in m ==> m[op].status == Undecided && a.payload == m[op].payload
    ensures ApprovalsEvolve(m, m[op := a])
  {
  }

  lemma ArtifactEvolves(m: map<ArtifactId, ArtifactKind>, k: ArtifactId, v: ArtifactKind)
    ensures k !in m ==> ArtifactsEvolve(m, m[k := v])
  {
  }

  /** Over any run: the history only grows, statuses only rise, a stop is never undone and an end is final. */
  lemma {:induction false} RunEvolves(r: Rows, steps: seq<Step>)
    requires Sound(r)
    ensures Evolves(r, Run(r, steps))
  {
    if steps != [] {
      hide Sound, Next, OperationEvolves;
      var init := steps[..|steps| - 1];
      RunEvolves(r, init);
      RunSound(r, init);
      StepEvolves(Run(r, init), steps[|steps| - 1]);
      EvolvesTransitive(r, Run(r, init), Run(r, steps));
    } else {
      Unmoved(r);
    }
  }

  lemma EvolvesTransitive(r: Rows, r': Rows, r'': Rows)
    requires Evolves(r, r') && Evolves(r', r'')
    ensures Evolves(r, r'')
  {
  }

  /** Task control, over every run and everything that may follow it: an ended task keeps its result and never again has an
      operation in doubt, a cancellation is never undone, takeover and cancellation exclude each other, and no operation is
      ever dispatched twice or moves down. */
  lemma TaskControl(live: bool, contract: Contract, deadline: Time, steps: seq<Step>, more: seq<Step>)
    ensures var r := Run(Created(live, contract, deadline), steps);
      var r' := Run(r, more);
      && !(r.task.cancelled && r.task.takenOver)
      && (r.task.takenOver ==> r.task.status == Waiting && r.task.waiting == Some(HumanTakeover))
      && (r.task.cancelled ==> r'.task.cancelled)
      && (r.task.status == Terminated ==>
            && r'.task.status == Terminated
            && r'.task.result == r.task.result
            && r.task.result.Some?
            && forall op :: op in r'.operations ==> !r'.operations[op].status.InDoubt())
      && (forall op :: op in r.operations ==>
            && op in r'.operations
            && r.operations[op].status.Rank() <= r'.operations[op].status.Rank()
            && r'.operations[op].attempts <= 1)
  {
    var r := Run(Created(live, contract, deadline), steps);
    var r' := Run(r, more);
    CreatedSound(live, contract, deadline);
    RunSound(Created(live, contract, deadline), steps);
    RunSound(r, more);
    RunEvolves(r, more);
    hide Created, HistorySound, Sequenced, RowsSound, Run;
    forall op | op in r.operations ensures op in r'.operations && r'.operations[op].attempts <= 1 {
      assert op in r'.operations;
      RowsAt(r'.events, r'.operations, r'.approvals, op);
    }
  }
}
