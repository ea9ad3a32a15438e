/** Admission leases and ledger transactions together: what a worker without its lease can no longer write. */
module Fencing {
  import opened Basics
  import opened Domain
  import opened Ledger
  import L = LedgerRuns
  import opened Scheduling
  import S = SchedulingRuns

  datatype World = World(admission: S.World, tasks: map<TaskId, Rows>)

  /** An admission step, or one ledger transaction of a task by the worker with this token; without a token an operator runs
      it, who is not admitted. */
  datatype Move = Admit(admission: S.Step) | Work(task: TaskId, token: Option<Token>, action: L.Step)

  /** What `check_execution_lease` answers. */
  predicate LeaseHeld(w: World, task: TaskId, token: Option<Token>) {
    token.None? || Holds(w.admission.gate, task, token.value, w.admission.now)
  }

  /** Every transaction that checks the lease sees the answer of its own moment. */
  predicate Checked(w: World, m: Move)
    requires m.Work?
  {
    match m.action
    case Propose(_, _, _, _, env) => env.leaseHeld == LeaseHeld(w, m.task, m.token) && env.now == w.admission.now
    case Claim(_, env) => env.leaseHeld == LeaseHeld(w, m.task, m.token) && env.now == w.admission.now
    case Block(_, _, leaseHeld) => leaseHeld == LeaseHeld(w, m.task, m.token)
    case _ => true
  }

  function Next(w: World, m: Move, settings: Settings): World {
    match m
    case Admit(step) => w.(admission := S.Next(w.admission, step, settings))
    case Work(task, _, step) =>
      if task in w.tasks && Checked(w, m) then w.(tasks := w.tasks[task := L.Next(w.tasks[task], step)]) else w
  }

  function Run(w: World, moves: seq<Move>, settings: Settings): World {
    if moves == [] then w else Next(Run(w, moves[..|moves| - 1], settings), moves[|moves| - 1], settings)
  }

  /** The token was handed out, and its lease expired or went to another worker since. */
  predicate Lost(w: World, task: TaskId, token: Token) {
    token in w.admission.issued && !Holds(w.admission.gate, task, token, w.admission.now)
  }

  lemma {:induction false} LostStays(w: World, moves: seq<Move>, settings: Settings, task: TaskId, token: Token)
    requires S.Sound(w.admission) && Lost(w, task, token)
    ensures S.Sound(Run(w, moves, settings).admission) && Lost(Run(w, moves, settings), task, token)
  {
    if moves != [] {
      var init, m := moves[..|moves| - 1], moves[|moves| - 1];
      LostStays(w, init, settings, task, token);
      var before := Run(w, init, settings);
      hide S.Sound, S.Next, Holds, Checked;
      if m.Admit? {
        S.StillLost(before.admission, m.admission, settings, task, token);
        S.StepSound(before.admission, m.admission, settings);
      }
    }
  }

  /** The steps in which the worker acts for its task: it proposes, dispatches or reports an error. */
  predicate Acts(step: L.Step) { step.Propose? || step.Claim? || step.Block? }

  lemma UnheldActsInVain(r: Rows, step: L.Step)
    requires Acts(step) && (if step.Block? then !step.leaseHeld else !step.env.leaseHeld)
    ensures L.Next(r, step) == r
  {
  }

  /** No stale dispatch and no stale completion: once a token's lease expired or was superseded, no proposal, dispatch or error
      report by its worker changes a row, whatever admissions and ledger transactions happen in between. */
  lemma NoStaleWrite(w: World, moves: seq<Move>, settings: Settings, task: TaskId, token: Token, step: L.Step)
    requires S.Sound(w.admission) && Lost(w, task, token) && Acts(step)
    ensures var w' := Run(w, moves, settings); Next(w', Work(task, Some(token), step), settings) == w'
  {
    LostStays(w, moves, settings, task, token);
    var w' := Run(w, moves, settings);
    hide S.Sound, Run, Holds, L.Next;
    if task in w'.tasks && Checked(w', Work(task, Some(token), step)) {
      UnheldActsInVain(w'.tasks[task], step);
      assert w'.tasks[task := w'.tasks[task]] == w'.tasks;
    }
  }

  /** The worker that was superseded: after another grant for the task, nothing it does gets through. */
  lemma SupersededIsFenced(
    w: World, grant: S.Step, moves: seq<Move>, settings: Settings, old': Token, step: L.Step)
    requires S.Sound(w.admission) && S.Enabled(w.admission, grant) && grant.Acquire? && old' in w.admission.issued && Acts(step)
    requires AcquireTx(w.admission.gate, w.admission.halted, grant.task, grant.when, grant.id, grant.token, settings).1.Granted?
    ensures var w' := Run(Next(w, Admit(grant), settings), moves, settings);
      Next(w', Work(grant.task, Some(old'), step), settings) == w'
  {
    S.Superseded(w.admission, grant, [], settings, old');
    S.StepSound(w.admission, grant, settings);
    hide S.Sound, AcquireTx, Holds, Checked, Run;
    NoStaleWrite(Next(w, Admit(grant), settings), moves, settings, grant.task, old', step);
  }
}
