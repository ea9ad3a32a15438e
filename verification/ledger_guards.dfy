/** Who may change what: every change of a task's rows, the one step that makes it, and all that must hold then. */
module LedgerGuards {
  import opened Basics
  import opened Domain
  import opened History
  import opened Ledger
  import opened LedgerRuns

  // ---------- What must hold ----------

  /** A task may start something: its worker is admitted, nobody stopped it, and time, grant and policy allow it. */
  predicate MayStart(r: Rows, env: Env) {
    && env.leaseHeld && env.releaseServed && env.granted && !env.emergencyStop
    && !r.task.cancelled && !r.task.takenOver && r.task.status != Terminated
    && env.now < r.task.deadline
  }

  predicate Cleared(r: Rows, op: OperationId, env: Env)
    requires op in r.operations
  {
    && op in r.approvals
    && r.approvals[op].status == Decided(Approved)
    && env.now < r.approvals[op].expiresAt
    && r.approvals[op].payload == r.operations[op].action
    && env.approverGranted
  }

  predicate MayDispatch(r: Rows, op: OperationId, env: Env) {
    && op in r.operations && r.operations[op].status == NotSubmitted
    && !r.live
    && MayStart(r, env)
    && r.operations[op].action.request.call.Tool() !in env.disabledTools
    && (r.operations[op].action.request.call.Protected() ==> Cleared(r, op, env))
  }

  predicate MayPropose(r: Rows, step: string, action: Action, env: Env) {
    && action.request.call.ValidParameters()
    && 0 < |step| <= 160
    && env.authorized
    && MayStart(r, env)
    && action.request.resource == r.task.contract.resource
    && (forall k :: k in r.operations ==> r.operations[k].step != step)
    && |r.operations| < 100
  }

  predicate MayDecide(r: Rows, op: OperationId, expected: Action, subject: Subject, env: Env) {
    && op in r.operations && op in r.approvals
    && env.authorized
    && (r.task.contract.production ==> subject != r.task.contract.principal)
    && expected == r.approvals[op].payload == r.operations[op].action
    && r.approvals[op].status == Undecided
    && env.now < r.approvals[op].expiresAt
    && !r.task.cancelled && !r.task.takenOver
  }

  predicate MayResume(r: Rows, version: int, env: Env) {
    && env.authorized && version == r.task.version
    && r.task.takenOver && !r.task.cancelled && r.task.status != Terminated
    && env.now < r.task.deadline && env.granted && !env.emergencyStop
  }

  function Logged(r: Rows, kind: Kind, payload: Payload): seq<Event> {
    r.events + [Event(r.task.nextSequence + 1, kind, payload)]
  }

  // ---------- Exactly when each transaction acts, and what it leaves ----------

  lemma DispatchExactly(r: Rows, op: OperationId, env: Env)
    ensures var (r', reply) := Perform(r, Claim(op, env));
      && (reply == Done <==> MayDispatch(r, op, env))
      && (reply != Done ==> r' == r)
      && (reply == Done ==>
            r' == r.(operations := r.operations[op := r.operations[op].(
                       status := Pending, attempts := r.operations[op].attempts + 1, updatedAt := env.now)],
                     task := r.task.(status := Running, waiting := None, nextSequence := r.task.nextSequence + 1),
                     events := Logged(r, OperationDispatched, About(op))))
  {
  }

  lemma ProposeExactly(r: Rows, step: string, action: Action, op: OperationId, approval: ApprovalId, env: Env)
    requires Fresh(r, op, approval)
    ensures var (r', reply) := Perform(r, Propose(step, action, op, approval, env));
      && (reply == Done <==> MayPropose(r, step, action, env))
      && (reply != Done ==> r' == r)
      && (reply == Done ==>
            && r'.operations == r.operations[op := OperationRow(step, action, NotSubmitted, None, None, None, 0, env.now)]
            && r'.approvals == (if action.request.call.Protected()
                                then r.approvals[op := ApprovalRow(approval, action, Undecided, None, env.now + 86_400)] else r.approvals)
            && r'.task == (if action.request.call.Protected() then r.task.(status := Waiting, waiting := Some(AwaitingApproval))
                           else r.task).(nextSequence := r.task.nextSequence + 1)
            && r'.events == Logged(r, OperationProposed, About(op))
            && r'.artifacts == r.artifacts)
  {
  }

  /** A repeated proposal of a permitted worker is recognised by its action. */
  lemma RepeatExactly(r: Rows, step: string, action: Action, op: OperationId, approval: ApprovalId, env: Env)
    requires action.request.call.ValidParameters() && 0 < |step| <= 160 && env.authorized && MayStart(r, env)
    requires action.request.resource == r.task.contract.resource
    requires exists k :: k in r.operations && r.operations[k].step == step
    ensures var reply := ProposeTx(r, step, action, op, approval, env).1;
      && (reply == Unchanged <==> exists k :: k in r.operations && r.operations[k].step == step && r.operations[k].action == action)
      && (reply != Unchanged ==> reply == Refused(IDEMPOTENCY_CONFLICT))
  {
  }

  lemma DecideExactly(r: Rows, op: OperationId, approve: bool, expected: Action, subject: Subject, env: Env)
    ensures var (r', reply) := Perform(r, Decide(op, approve, expected, subject, env));
      && (reply == Done <==> MayDecide(r, op, expected, subject, env))
      && (reply != Done ==> r' == r)
      && (reply == Done ==>
            var decision := if approve then Approved else Rejected;
            r' == r.(approvals := r.approvals[op := r.approvals[op].(status := Decided(decision), decidedBy := Some(subject))],
                     task := r.task.(nextSequence := r.task.nextSequence + 1),
                     events := Logged(r, ApprovalDecided, About(op).(decision := Some(decision)))))
  {
  }

  lemma StopExactly(r: Rows, takeover: bool, authorized: bool)
    ensures var (r', reply) := Perform(r, Stop(takeover, authorized));
      && (reply == Done <==> authorized && r.task.status != Terminated && !r.task.cancelled && !(r.task.takenOver && takeover))
      && (reply != Done ==> r' == r)
      && (reply == Done ==>
            && r'.task == (if takeover then r.task.(takenOver := true, cancelled := false, status := Waiting, waiting := Some(HumanTakeover))
                           else r.task.(takenOver := false, cancelled := true, status := Cancelling, waiting := Some(Reconciliation))
                          ).(version := r.task.version + 1, nextSequence := r.task.nextSequence + 1)
            && r'.events == Logged(r, if takeover then TaskTakeover else TaskCancelled, NOTHING)
            && r'.operations == r.operations && r'.approvals == r.approvals && r'.artifacts == r.artifacts)
  {
  }

  lemma ResumeExactly(r: Rows, version: int, env: Env)
    ensures var (r', reply) := Perform(r, Resume(version, env));
      && (reply == Done <==> MayResume(r, version, env))
      && (reply != Done ==> r' == r)
      && (reply == Done ==>
            r' == r.(task := r.task.(takenOver := false, status := Queued, waiting := None, version := r.task.version + 1,
                                     nextSequence := r.task.nextSequence + 1),
                     events := Logged(r, TaskResumed, NOTHING)))
  {
  }

  /** The outcome that counts: a success without a confirmed receipt and its identity is no more than unknown. */
  predicate Counts(outcome: Status, result: Option<RemoteResult>, as': Status) {
    if outcome == Succeeded && (result.None? || !result.value.confirmed || result.value.externalId.None?) then as' == Unknown
    else as' == outcome
  }

  /** An outcome is recorded exactly if it tells more than the row: anything over pending, a final one over unknown, a success over
      a failure, nothing over a success. */
  predicate TellsMore(before: Status, outcome: Status) {
    match before
    case Succeeded => false
    case Failed => outcome == Succeeded
    case Unknown => outcome != Unknown
    case _ => true
  }

  lemma RecordExactly(r: Rows, op: OperationId, outcome: Status, result: Option<RemoteResult>, now: Time, counted: Status)
    requires Enabled(r, Record(op, outcome, result, now)) && Counts(outcome, result, counted)
    ensures var (r', reply) := Perform(r, Record(op, outcome, result, now));
      && (reply == Done <==> TellsMore(r.operations[op].status, counted))
      && (reply != Done ==> r' == r)
      && (reply == Done ==>
            var o, o' := r.operations[op], r'.operations[op];
            && o'.status == counted
            && o'.result == (if counted == outcome then result else None)
            && (o'.result.Some? ==> o'.externalId == o'.result.value.externalId)
            && (o'.result.None? ==> o'.externalId == o.externalId)
            && o'.updatedAt == (if counted == Unknown then o.updatedAt else now)
            && o'.recovery == (if counted == Unknown then Some(Reconciling) else None)
            && r'.operations == r.operations[op := o'] && o' == o.(status := o'.status, result := o'.result,
                 externalId := o'.externalId, updatedAt := o'.updatedAt, recovery := o'.recovery)
            && r'.task == (if counted == Unknown && !r.task.cancelled && !r.task.takenOver && r.task.status != Terminated
                           then r.task.(status := Waiting, waiting := Some(Reconciliation)) else r.task
                          ).(nextSequence := r.task.nextSequence + 1)
            && r'.events == Logged(r, if counted == Succeeded then OperationSucceeded
                                      else if counted == Failed then OperationFailed else OperationUnknown, About(op))
            && r'.approvals == r.approvals && r'.artifacts == r.artifacts)
  {
  }

  lemma EscalateExactly(r: Rows, op: OperationId, now: Time)
    ensures var (r', reply) := Perform(r, Escalate(op, now));
      && (reply == Done <==>
            && op in r.operations
            && (r.operations[op].status == Pending || r.operations[op].status == Unknown)
            && r.operations[op].updatedAt + 900 <= now
            && r.operations[op].recovery != Some(InManualReview))
      && (reply != Done ==> r' == r)
      && (reply == Done ==>
            && r'.operations == r.operations[op := r.operations[op].(recovery := Some(InManualReview))]
            && r'.task == (if !r.task.cancelled && !r.task.takenOver && r.task.status != Terminated
                           then r.task.(status := Waiting, waiting := Some(ManualReview)) else r.task
                          ).(nextSequence := r.task.nextSequence + 1)
            && r'.events == Logged(r, OperationEscalated, About(op))
            && r'.approvals == r.approvals && r'.artifacts == r.artifacts)
  {
  }

  predicate AnyIs(r: Rows, s: Status) { exists k :: k in r.operations && r.operations[k].status == s }

  /** A task ends exactly if nobody took it over, nothing is in doubt, nothing is left to do unless it was cancelled, and a success
      has its verification. */
  predicate MayEnd(r: Rows) {
    && !r.task.takenOver && r.task.status != Terminated
    && !AnyIs(r, Pending) && !AnyIs(r, Unknown)
    && (!r.task.cancelled ==> !AnyIs(r, NotSubmitted))
    && (!r.task.cancelled && !AnyIs(r, Failed) ==> exists k :: k in r.artifacts && r.artifacts[k] == Verification)
  }

  lemma FinishExactly(r: Rows)
    ensures var (r', reply) := FinishTx(r);
      && (reply == Done <==> MayEnd(r))
      && (reply == Done ==>
            && r'.task.result.Some?
            && (r'.task.result.value == Cancelled <==> r.task.cancelled)
            && (r'.task.result.value == TaskFailed <==> !r.task.cancelled && AnyIs(r, Failed))
            && r' == r.(task := r.task.(status := Terminated, result := r'.task.result, waiting := None,
                                        nextSequence := r.task.nextSequence + 1),
                        events := Logged(r, TaskTerminated, NOTHING.(result := r'.task.result))))
      && (reply != Done ==>
            r' == if !r.task.takenOver && (AnyIs(r, Pending) || AnyIs(r, Unknown))
                  then r.(task := r.task.(status := Waiting, waiting := Some(Reconciliation))) else r)
      && (reply == Refused(VERIFICATION_REQUIRED) <==>
            && !r.task.takenOver && r.task.status != Terminated && !r.task.cancelled
            && (forall k :: k in r.operations ==> r.operations[k].status == Succeeded)
            && (forall k :: k in r.artifacts ==> r.artifacts[k] != Verification))
  {
    forall k | k in r.operations
      ensures var status := r.operations[k].status;
        status.NotSubmitted? || status.Pending? || status.Unknown? || status.Failed? || status.Succeeded?
    {
    }
  }

  lemma BlockExactly(r: Rows, reason: Reason, event: nat, leaseHeld: bool)
    ensures var (r', reply) := Perform(r, Block(reason, event, leaseHeld));
      && (reply == Done <==>
            && leaseHeld && !r.task.cancelled && !r.task.takenOver && r.task.status != Terminated
            && !(r.task.status == Waiting && r.task.waiting == Some(reason)))
      && (reply != Done ==> r' == r)
      && (reply == Done ==>
            r' == r.(task := r.task.(status := Waiting, waiting := Some(reason), nextSequence := r.task.nextSequence + 1),
                     events := Logged(r, OtherKind(event), NOTHING)))
  {
  }

  // ---------- Nobody else ----------

  lemma OnlyClaimDispatches(r: Rows, s: Step, op: OperationId)
    requires op in r.operations && op in Next(r, s).operations && Next(r, s).operations[op].attempts > r.operations[op].attempts
    requires s.Propose? ==> s.id != op
    ensures s.Claim? && s.op == op && MayDispatch(r, op, s.env)
  {
    if s.Claim? {
      DispatchExactly(r, s.op, s.env);
      hide ClaimTx;
    } else {
      KeepsAttempts(r, s, op);
      assert false;
    }
  }

  lemma KeepsAttempts(r: Rows, s: Step, op: OperationId)
    requires op in r.operations && !s.Claim? && (s.Propose? ==> s.id != op)
    ensures op in Next(r, s).operations && Next(r, s).operations[op].attempts == r.operations[op].attempts
  {
    hide Blocker, Verified, Verdict, AnyStatus;
  }

  lemma OnlyProposeAdds(r: Rows, s: Step, op: OperationId)
    requires op !in r.operations && op in Next(r, s).operations
    ensures s.Propose? && s.id == op && MayPropose(r, s.step, s.action, s.env)
    ensures Next(r, s).operations[op] == OperationRow(s.step, s.action, NotSubmitted, None, None, None, 0, s.env.now)
  {
    if s.Propose? {
      if Enabled(r, s) { ProposeExactly(r, s.step, s.action, s.id, s.approval, s.env); }
      hide ProposeTx;
    } else {
      KeepsOperations(r, s);
      assert false;
    }
  }

  lemma KeepsOperations(r: Rows, s: Step)
    requires !s.Propose?
    ensures Next(r, s).operations.Keys == r.operations.Keys
  {
    hide Blocker, Verified, Verdict, AnyStatus, ValidApproval;
  }

  lemma OnlyDecideDecides(r: Rows, s: Step, op: OperationId)
    requires op in r.approvals && op in Next(r, s).approvals && Next(r, s).approvals[op].status != r.approvals[op].status
    requires op in r.operations
    ensures s.Decide? && s.op == op && MayDecide(r, op, s.expected, s.subject, s.env)
    ensures Next(r, s).approvals[op].status == Decided(if s.approve then Approved else Rejected)
  {
    if s.Decide? {
      DecideExactly(r, s.op, s.approve, s.expected, s.subject, s.env);
      hide DecideTx;
    } else {
      KeepsApprovals(r, s, op);
      assert false;
    }
  }

  lemma KeepsApprovals(r: Rows, s: Step, op: OperationId)
    requires op in r.approvals && op in r.operations && !s.Decide?
    ensures op in Next(r, s).approvals && Next(r, s).approvals[op] == r.approvals[op]
  {
    hide Blocker, Verified, Verdict, AnyStatus, ValidApproval;
  }

  lemma OnlyFinishEnds(r: Rows, s: Step)
    requires r.task.status != Terminated && Next(r, s).task.status == Terminated
    ensures s.Finish? && MayEnd(r)
  {
    if s.Finish? {
      FinishExactly(r);
      hide FinishTx, MayEnd;
    } else {
      KeepsGoing(r, s);
      assert false;
    }
  }

  lemma KeepsGoing(r: Rows, s: Step)
    requires r.task.status != Terminated && !s.Finish?
    ensures Next(r, s).task.status != Terminated
  {
    hide Blocker, Verified, ValidApproval, StepTaken, StepBinds;
  }

  lemma OnlyResumeGivesBack(r: Rows, s: Step)
    requires r.task.takenOver && !Next(r, s).task.takenOver
    ensures (s.Resume? && MayResume(r, s.version, s.env)) || (s.Stop? && !s.takeover && Next(r, s).task.cancelled)
  {
    hide Blocker, Verified, Verdict, AnyStatus, ValidApproval;
  }

  // ---------- Over whole runs ----------

  /** The rows before step number `k` of a run. */
  function Before(live: bool, contract: Contract, deadline: Time, steps: seq<Step>, k: nat): Rows
    requires k <= |steps|
  {
    Run(Created(live, contract, deadline), steps[..k])
  }

  lemma BeforeInit(live: bool, contract: Contract, deadline: Time, steps: seq<Step>, k: nat)
    requires k < |steps|
    ensures Before(live, contract, deadline, steps[..|steps| - 1], k) == Before(live, contract, deadline, steps, k)
  {
    assert steps[..|steps| - 1][..k] == steps[..k];
  }

  /** Behind every dispatched operation stands a claim that was made while everything that guards a dispatch held. */
  lemma {:induction false} DispatchHasItsClaim(live: bool, contract: Contract, deadline: Time, steps: seq<Step>, op: OperationId)
    returns (k: nat)
    requires var r := Run(Created(live, contract, deadline), steps); op in r.operations && r.operations[op].attempts > 0
    ensures k < |steps| && steps[k].Claim? && steps[k].op == op
    ensures MayDispatch(Before(live, contract, deadline, steps, k), op, steps[k].env)
  {
    var init, last := steps[..|steps| - 1], steps[|steps| - 1];
    var r := Run(Created(live, contract, deadline), init);
    hide Next, MayDispatch;
    if op in r.operations && r.operations[op].attempts > 0 {
      k := DispatchHasItsClaim(live, contract, deadline, init, op);
      BeforeInit(live, contract, deadline, steps, k);
    } else {
      k := |steps| - 1;
      if op !in r.operations { OnlyProposeAdds(r, last, op); }
      if last.Propose? && last.id == op && op in r.operations { NotProposedAgain(r, last); }
      OnlyClaimDispatches(r, last, op);
    }
  }

  lemma NotProposedAgain(r: Rows, s: Step)
    requires s.Propose? && s.id in r.operations
    ensures Next(r, s) == r
  {
  }

  /** Behind every operation stands a proposal that was allowed. */
  lemma {:induction false} OperationHasItsProposal(live: bool, contract: Contract, deadline: Time, steps: seq<Step>, op: OperationId)
    returns (k: nat)
    requires op in Run(Created(live, contract, deadline), steps).operations
    ensures k < |steps| && steps[k].Propose? && steps[k].id == op
    ensures MayPropose(Before(live, contract, deadline, steps, k), steps[k].step, steps[k].action, steps[k].env)
    ensures Run(Created(live, contract, deadline), steps).operations[op].action == steps[k].action
  {
    var init, last := steps[..|steps| - 1], steps[|steps| - 1];
    var r := Run(Created(live, contract, deadline), init);
    CreatedSound(live, contract, deadline);
    RunSound(Created(live, contract, deadline), init);
    hide Next, MayPropose, Sound;
    if op in r.operations {
      k := OperationHasItsProposal(live, contract, deadline, init, op);
      BeforeInit(live, contract, deadline, steps, k);
      StepEvolves(r, last);
      assert OperationEvolves(r.operations[op], Next(r, last).operations[op]);
    } else {
      k := |steps| - 1;
      OnlyProposeAdds(r, last, op);
    }
  }

  /** Behind every decided approval stands a decision that was allowed, on the action the operation still has. */
  lemma {:induction false} ApprovalHasItsDecision(live: bool, contract: Contract, deadline: Time, steps: seq<Step>, op: OperationId)
    returns (k: nat)
    requires var r := Run(Created(live, contract, deadline), steps); op in r.approvals && r.approvals[op].status != Undecided
    ensures k < |steps| && steps[k].Decide? && steps[k].op == op
    ensures MayDecide(Before(live, contract, deadline, steps, k), op, steps[k].expected, steps[k].subject, steps[k].env)
    ensures Run(Created(live, contract, deadline), steps).approvals[op].status == Decided(if steps[k].approve then Approved else Rejected)
  {
    hide Next, MayDecide, Sound, Created, OperationsEvolve, TaskEvolves, ArtifactsEvolve;
    assert steps != [] by {
      NothingDecided(live, contract, deadline);
    }
    var init, last := steps[..|steps| - 1], steps[|steps| - 1];
    var r := Run(Created(live, contract, deadline), init);
    CreatedSound(live, contract, deadline);
    RunSound(Created(live, contract, deadline), init);
    if op in r.approvals { ApprovalKnown(r, op); }
    if op in r.approvals && r.approvals[op].status != Undecided {
      k := ApprovalHasItsDecision(live, contract, deadline, init, op);
      BeforeInit(live, contract, deadline, steps, k);
      StepEvolves(r, last);
    } else {
      k := |steps| - 1;
      if op !in r.approvals { NewApproval(r, last, op); }
      OnlyDecideDecides(r, last, op);
    }
  }

  lemma NothingDecided(live: bool, contract: Contract, deadline: Time)
    ensures Created(live, contract, deadline).approvals == map[]
  {
  }

  lemma ApprovalKnown(r: Rows, op: OperationId)
    requires Sound(r) && op in r.approvals
    ensures op in r.operations
  {
    hide HistorySound, Sequenced, TerminationSound;
    assert ApprovalSound(r.events, op, r.approvals[op], Find(r.operations, op));
  }

  lemma NewApproval(r: Rows, s: Step, op: OperationId)
    requires op !in r.approvals && op in Next(r, s).approvals
    ensures Next(r, s).approvals[op].status == Undecided
  {
    hide Blocker, Verified, Verdict, AnyStatus, ValidApproval;
  }

  // ---------- How a task ended ----------

  predicate FailedOnce(r: Rows) { exists i :: 0 <= i < |r.events| && r.events[i].kind == OperationFailed }

  /** The result of an ended task: cancelled exactly if it was; a failure if some operation failed, and only if one did fail. */
  predicate ResultSound(r: Rows) {
    r.task.status == Terminated ==>
      && r.task.result.Some?
      && (r.task.result.value == Cancelled <==> r.task.cancelled)
      && (!r.task.cancelled ==> !AnyIs(r, NotSubmitted))
      && (!r.task.cancelled && AnyIs(r, Failed) ==> r.task.result.value == TaskFailed)
      && (r.task.result.value == TaskFailed ==> !r.task.cancelled && FailedOnce(r))
  }

  lemma {:induction false} FailureLogged(es: seq<Event>, op: OperationId)
    requires LastStatus(es, op) == Some(Failed)
    ensures exists i :: 0 <= i < |es| && es[i].kind == OperationFailed
  {
    if es != [] {
      var init, e := es[..|es| - 1], es[|es| - 1];
      if e.kind != OperationFailed {
        FailureLogged(init, op);
        var i :| 0 <= i < |init| && init[i].kind == OperationFailed;
        assert es[i] == init[i];
      }
    }
  }

  lemma EndIsSound(r: Rows)
    requires Sound(r) && MayEnd(r)
    ensures ResultSound(FinishTx(r).0)
  {
    hide Sound, FinishTx;
    FinishExactly(r);
    if AnyIs(r, Failed) {
      var op :| op in r.operations && r.operations[op].status == Failed;
      FailedHasEvent(r, op);
      var i :| 0 <= i < |r.events| && r.events[i].kind == OperationFailed;
      assert FinishTx(r).0.events[i] == r.events[i];
    }
  }

  lemma FailedHasEvent(r: Rows, op: OperationId)
    requires Sound(r) && op in r.operations && r.operations[op].status == Failed
    ensures FailedOnce(r)
  {
    hide HistorySound, Sequenced, TerminationSound;
    RowsAt(r.events, r.operations, r.approvals, op);
    FailureLogged(r.events, op);
  }

  lemma NothingAdded(r: Rows, s: Step)
    requires r.task.status == Terminated
    ensures forall k :: k in Next(r, s).operations ==> k in r.operations
  {
    forall k | k in Next(r, s).operations ensures k in r.operations {
      if k !in r.operations { OnlyProposeAdds(r, s, k); }
    }
    hide Next;
  }

  lemma LogStays(r: Rows, r': Rows)
    requires r.events <= r'.events && FailedOnce(r)
    ensures FailedOnce(r')
  {
    var i :| 0 <= i < |r.events| && r.events[i].kind == OperationFailed;
    assert r'.events[i] == r.events[i];
  }

  lemma SettledStays(m: map<OperationId, OperationRow>, m': map<OperationId, OperationRow>)
    requires OperationsEvolve(m, m') && forall k :: k in m' ==> k in m
    requires forall k :: k in m ==> m[k].status.Failed? || m[k].status.Succeeded?
    ensures forall k :: k in m' ==> m'[k].status != NotSubmitted && (m'[k].status == Failed ==> m[k].status == Failed)
  {
    forall k | k in m' ensures m'[k].status != NotSubmitted && (m'[k].status == Failed ==> m[k].status == Failed) {
      assert OperationEvolves(m[k], m'[k]);
    }
  }

  lemma AllSettled(r: Rows)
    requires Sound(r) && ResultSound(r) && r.task.status == Terminated && !r.task.cancelled
    ensures forall k :: k in r.operations ==> r.operations[k].status.Failed? || r.operations[k].status.Succeeded?
  {
    NothingInDoubt(r);
    hide Sound;
    forall k | k in r.operations ensures r.operations[k].status.Failed? || r.operations[k].status.Succeeded? {
      assert !r.operations[k].status.InDoubt() && r.operations[k].status != NotSubmitted;
    }
  }

  /** After the end no operation is added and none is revived. */
  lemma EndedStays(r: Rows, s: Step)
    requires Sound(r) && ResultSound(r) && r.task.status == Terminated
    ensures ResultSound(Next(r, s)) && Next(r, s).task.cancelled == r.task.cancelled
  {
    hide Sound, Next, FailedOnce, ApprovalsEvolve, ArtifactsEvolve, OperationsEvolve;
    var r' := Next(r, s);
    StepEvolves(r, s);
    CancelledStays(r, s);
    NothingAdded(r, s);
    if FailedOnce(r) { LogStays(r, r'); }
    if !r.task.cancelled {
      AllSettled(r);
      SettledStays(r.operations, r'.operations);
    }
  }

  lemma NothingInDoubt(r: Rows)
    requires Sound(r) && r.task.status == Terminated
    ensures forall k :: k in r.operations ==> !r.operations[k].status.InDoubt()
  {
  }

  lemma CancelledStays(r: Rows, s: Step)
    requires r.task.status == Terminated
    ensures Next(r, s).task.cancelled == r.task.cancelled
  {
    hide Blocker, Verified, Verdict, AnyStatus, ValidApproval;
  }

  lemma StepResultSound(r: Rows, s: Step)
    requires Sound(r) && ResultSound(r)
    ensures ResultSound(Next(r, s))
  {
    hide ResultSound, Sound, Next, MayEnd;
    if r.task.status == Terminated {
      EndedStays(r, s);
    } else if Next(r, s).task.status == Terminated {
      OnlyFinishEnds(r, s);
      EndIsSound(r);
      FinishNext(r, s);
    } else {
      GoingIsSound(Next(r, s));
    }
  }

  /** Over every run: how a task ended says what happened to its operations. */
  lemma {:induction false} ResultsTellTheTruth(live: bool, contract: Contract, deadline: Time, steps: seq<Step>)
    ensures ResultSound(Run(Created(live, contract, deadline), steps))
  {
    hide ResultSound, Sound, Next;
    if steps == [] {
      NotEndedYet(live, contract, deadline);
    } else {
      ResultsTellTheTruth(live, contract, deadline, steps[..|steps| - 1]);
      CreatedSound(live, contract, deadline);
      RunSound(Created(live, contract, deadline), steps[..|steps| - 1]);
      hide Created;
      StepResultSound(Run(Created(live, contract, deadline), steps[..|steps| - 1]), steps[|steps| - 1]);
    }
  }

  lemma NotEndedYet(live: bool, contract: Contract, deadline: Time)
    ensures ResultSound(Created(live, contract, deadline))
  {
  }

  lemma GoingIsSound(r: Rows)
    requires r.task.status != Terminated
    ensures ResultSound(r)
  {
  }

  lemma FinishNext(r: Rows, s: Step)
    requires s.Finish? && Next(r, s).task.status == Terminated && r.task.status != Terminated
    ensures Next(r, s) == FinishTx(r).0
  {
    hide FinishTx;
  }
}
