/** Promises of single ledger operations that only whole runs can keep. */
module LedgerControl {
  import opened Basics
  import opened Domain
  import opened Ledger
  import opened LedgerRuns

  /** Once an operation left the unsubmitted state, no claim of it ever succeeds again. */
  lemma ClaimedOnce(live: bool, contract: Contract, deadline: Time, steps: seq<Step>, more: seq<Step>, op: OperationId, env: Env)
    requires var r := Run(Created(live, contract, deadline), steps); op in r.operations && r.operations[op].status != NotSubmitted
    ensures var r' := Run(Run(Created(live, contract, deadline), steps), more); ClaimTx(r', op, env) == (r', Unchanged)
  {
    var r := Run(Created(live, contract, deadline), steps);
    CreatedSound(live, contract, deadline);
    RunSound(Created(live, contract, deadline), steps);
    RunEvolves(r, more);
    hide Sound, Run, Created;
    assert OperationEvolves(r.operations[op], Run(r, more).operations[op]);
  }

  // ---------- One operation per step ----------

  predicate StepsUnique(r: Rows) {
    forall j, k :: j in r.operations && k in r.operations && r.operations[j].step == r.operations[k].step ==> j == k
  }

  lemma StepKeepsUnique(r: Rows, s: Step)
    requires Sound(r) && StepsUnique(r)
    ensures StepsUnique(Next(r, s))
  {
    hide Sound, StepsUnique, Perform;
    if s.Propose? {
      ProposeNext(r, s);
      ProposeUnique(r, s.step, s.action, s.id, s.approval, s.env);
    } else {
      StepEvolves(r, s);
      SameKeys(r, s);
      EvolvesUnique(r, Next(r, s));
    }
  }

  lemma ProposeNext(r: Rows, s: Step)
    requires s.Propose?
    ensures Next(r, s) == r || Next(r, s) == ProposeTx(r, s.step, s.action, s.id, s.approval, s.env).0
  {
    hide ProposeTx;
  }

  lemma ProposeUnique(r: Rows, step: string, action: Action, op: OperationId, approval: ApprovalId, env: Env)
    requires StepsUnique(r)
    ensures StepsUnique(ProposeTx(r, step, action, op, approval, env).0)
  {
  }

  lemma EvolvesUnique(r: Rows, r': Rows)
    requires StepsUnique(r) && Evolves(r, r') && r'.operations.Keys == r.operations.Keys
    ensures StepsUnique(r')
  {
    forall j, k | j in r'.operations && k in r'.operations && r'.operations[j].step == r'.operations[k].step ensures j == k {
      assert OperationEvolves(r.operations[j], r'.operations[j]) && OperationEvolves(r.operations[k], r'.operations[k]);
    }
  }

  lemma SameKeys(r: Rows, s: Step)
    requires !s.Propose?
    ensures Next(r, s).operations.Keys == r.operations.Keys
  {
  }

  /** Whatever runs, a step key names at most one operation. */
  lemma {:induction false} OneOperationPerStep(live: bool, contract: Contract, deadline: Time, steps: seq<Step>)
    ensures StepsUnique(Run(Created(live, contract, deadline), steps))
  {
    if steps != [] {
      var init := steps[..|steps| - 1];
      OneOperationPerStep(live, contract, deadline, init);
      CreatedSound(live, contract, deadline);
      RunSound(Created(live, contract, deadline), init);
      hide Sound, Next, StepsUnique, Created;
      StepKeepsUnique(Run(Created(live, contract, deadline), init), steps[|steps| - 1]);
    }
  }

  /** A step that was proposed once answers every later proposal by its action alone, and adds nothing. */
  lemma ProposedOnce(
    live: bool, contract: Contract, deadline: Time, steps: seq<Step>, more: seq<Step>, known: OperationId,
    action: Action, op: OperationId, approval: ApprovalId, env: Env)
    requires known in Run(Created(live, contract, deadline), steps).operations
    ensures var r := Run(Created(live, contract, deadline), steps);
      var (r', reply) := ProposeTx(Run(r, more), r.operations[known].step, action, op, approval, env);
      && r' == Run(r, more)
      && (reply == Unchanged ==> action == r.operations[known].action)
      && (reply == Refused(IDEMPOTENCY_CONFLICT) ==> action != r.operations[known].action)
      && reply != Done
  {
    var r := Run(Created(live, contract, deadline), steps);
    CreatedSound(live, contract, deadline);
    RunSound(Created(live, contract, deadline), steps);
    RunEvolves(r, more);
    OneOperationPerStep(live, contract, deadline, steps + more);
    RunAppend(Created(live, contract, deadline), steps, more);
    hide Sound, Run, Created, ProposeTx, StepsUnique;
    assert OperationEvolves(r.operations[known], Run(r, more).operations[known]);
    StepAnswers(Run(r, more), known, action, op, approval, env);
  }

  lemma StepAnswers(r: Rows, known: OperationId, action: Action, op: OperationId, approval: ApprovalId, env: Env)
    requires StepsUnique(r) && known in r.operations
    ensures var (r', reply) := ProposeTx(r, r.operations[known].step, action, op, approval, env);
      && r' == r
      && (reply == Unchanged ==> action == r.operations[known].action)
      && (reply == Refused(IDEMPOTENCY_CONFLICT) ==> action != r.operations[known].action)
      && reply != Done
  {
    assert StepTaken(r, r.operations[known].step);
  }

  lemma {:induction false} RunAppend(r: Rows, steps: seq<Step>, more: seq<Step>)
    ensures Run(r, steps + more) == Run(Run(r, steps), more)
  {
    hide Next;
    if more == [] {
      assert steps + more == steps;
    } else {
      var all := steps + more;
      assert all[..|all| - 1] == steps + more[..|more| - 1] && all[|all| - 1] == more[|more| - 1];
      RunAppend(r, steps, more[..|more| - 1]);
    }
  }

  // ---------- Separation of duties ----------

  /** A decision has an author, who in production is not the one the agent works for. */
  predicate DutiesSeparated(r: Rows) {
    forall op :: op in r.approvals && r.approvals[op].status.Decided? ==>
      r.approvals[op].decidedBy.Some? && (r.task.contract.production ==> r.approvals[op].decidedBy.value != r.task.contract.principal)
  }

  lemma StepKeepsDuties(r: Rows, s: Step)
    requires Sound(r) && DutiesSeparated(r)
    ensures DutiesSeparated(Next(r, s))
  {
    SameContract(r, s);
    hide Sound;
    if !s.Decide? && !s.Propose? { SameApprovals(r, s); }
  }

  lemma SameContract(r: Rows, s: Step)
    ensures Next(r, s).task.contract == r.task.contract
  {
  }

  lemma SameApprovals(r: Rows, s: Step)
    requires !s.Decide? && !s.Propose?
    ensures Next(r, s).approvals == r.approvals
  {
  }

  lemma {:induction false} DutiesStaySeparated(live: bool, contract: Contract, deadline: Time, steps: seq<Step>)
    ensures DutiesSeparated(Run(Created(live, contract, deadline), steps))
  {
    if steps != [] {
      var init := steps[..|steps| - 1];
      DutiesStaySeparated(live, contract, deadline, init);
      CreatedSound(live, contract, deadline);
      RunSound(Created(live, contract, deadline), init);
      hide Sound, Next, DutiesSeparated, Created;
      StepKeepsDuties(Run(Created(live, contract, deadline), init), steps[|steps| - 1]);
    }
  }

  // ---------- Versions ----------

  /** A resume that was decided on an older version never gets through. */
  lemma StaleResume(r: Rows, s: Step, more: seq<Step>, env: Env)
    requires Sound(r) && Enabled(r, s) && (s.Stop? || s.Resume?) && Perform(r, s).1 == Done
    ensures var r' := Run(Next(r, s), more);
      && r'.task.version > r.task.version
      && ResumeTx(r', r.task.version, env) == (r', Refused(if env.authorized then TASK_CHANGED else FORBIDDEN))
  {
    hide Sound, Run, Next, Perform, Enabled;
    StepSound(r, s);
    RunEvolves(Next(r, s), more);
    VersionRises(r, s);
  }

  lemma VersionRises(r: Rows, s: Step)
    requires Enabled(r, s) && (s.Stop? || s.Resume?) && Perform(r, s).1 == Done
    ensures Next(r, s).task.version == r.task.version + 1
  {
  }
}
