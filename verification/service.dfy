/** The calls that span a transaction, the remote authority and a second transaction. */
module Services {
  import opened Basics
  import opened Domain
  import opened Ledger
  import opened LedgerRuns
  import opened TaskStores
  import opened Authority
  import opened Tenants

  /** What the caller makes of the authority's answer. */
  function Outcome(answer: Answer): (Status, Option<RemoteResult>) {
    match answer
    case Answered(result) => (Succeeded, Some(result))
    case ConfirmedFailure => (Failed, None)
    case UnknownOutcome => (Unknown, None)
  }

  class Service {
    const store: TaskStore
    const remote: SimulatedSystem

    constructor (store: TaskStore, remote: SimulatedSystem)
      ensures this.store == store && this.remote == remote
    {
      this.store := store;
      this.remote := remote;
    }

    /** Commit the intent, call the authority once, record its answer; only the successful claim calls at all. */
    method Execute(op: OperationId, env: Env, now: Time) returns (reply: Reply)
      modifies store, remote
      ensures var (claimed, r) := ClaimTx(old(store.Contents()), op, env);
        if r != Done then store.Contents() == claimed && remote.Contents() == old(remote.Contents()) && reply == r
        else
          var (system, answer) := ExecuteTx(old(remote.Contents()), op, claimed.operations[op].action.request);
          && remote.Contents() == system
          && store.Contents() == RecordTx(claimed, op, Outcome(answer).0, Outcome(answer).1, now).0
    {
      reply := store.Claim(op, env);
      if reply != Done { return; }
      ClaimFrame(old(store.Contents()), op, env);
      var request := store.operations[op].action.request;
      var answer := remote.Execute(op, request);
      match answer
      case ConfirmedFailure => reply := store.Record(op, Failed, None, now);
      case UnknownOutcome => reply := store.Record(op, Unknown, None, now);
      case Answered(result) => reply := store.Record(op, Succeeded, Some(result), now);
    }

    /** Ask the authority about an operation in doubt and record what it confirms. */
    method Reconcile(op: OperationId, now: Time) returns (reply: Reply)
      modifies store, remote
      ensures var rows, system := old(store.Contents()), old(remote.Contents());
        if op !in rows.operations || !rows.operations[op].status.InDoubt() then store.Contents() == rows && remote.Contents() == system
        else
          var (system', found) := QueryTx(system, op);
          && remote.Contents() == system'
          && store.Contents() == RecordTx(rows, op, if found.Some? then Succeeded else Unknown, found, now).0
    {
      if op !in store.operations { return Refused(NOT_FOUND); }
      if !store.operations[op].status.InDoubt() { return Unchanged; }
      var found := remote.Query(op);
      if found.None? {
        reply := store.Record(op, Unknown, None, now);
      } else {
        reply := store.Record(op, Succeeded, found, now);
      }
    }
  }

  lemma ClaimMove(s: Tenant, t: TaskId, op: OperationId, env: Env)
    requires t in s.tasks && ClaimTx(s.tasks[t], op, env).1 == Done
    ensures Moved(s, OnTask(t, Claim(op, env))) ==
            s.(tasks := s.tasks[t := ClaimTx(s.tasks[t], op, env).0], inFlight := s.inFlight + {op})
  {
    hide ClaimTx;
  }

  lemma RecordMove(s: Tenant, t: TaskId, op: OperationId, outcome: Status, result: Option<RemoteResult>, now: Time)
    requires t in s.tasks && Dispatched(s.tasks[t], op)
    requires outcome == Succeeded || outcome == Failed || outcome == Unknown
    requires outcome == Succeeded ==> op in s.remote.receipts && result == Some(s.remote.receipts[op].result)
    requires outcome == Failed ==> op in s.rejected
    ensures Moved(s, OnTask(t, Record(op, outcome, result, now))) ==
            s.(tasks := s.tasks[t := RecordTx(s.tasks[t], op, outcome, result, now).0])
  {
    hide RecordTx;
  }

  /** Claim, deliver and record without interruption. */
  function ExecuteMoves(s: Tenant, t: TaskId, op: OperationId, env: Env, now: Time): seq<Move>
    requires t in s.tasks && op in s.tasks[t].operations
  {
    var answer := ExecuteTx(s.remote, op, s.tasks[t].operations[op].action.request).1;
    [OnTask(t, Claim(op, env)), Deliver(t, op), OnTask(t, Record(op, Outcome(answer).0, Outcome(answer).1, now))]
  }

  /** An uninterrupted `Execute` is one of the interleavings that the tenant's runs consist of. */
  lemma ExecuteIsAPlay(s: Tenant, t: TaskId, op: OperationId, env: Env, now: Time)
    requires TenantSound(s) && t in s.tasks && op in s.tasks[t].operations && ClaimTx(s.tasks[t], op, env).1 == Done
    ensures var claimed := ClaimTx(s.tasks[t], op, env).0;
      var (system, answer) := ExecuteTx(s.remote, op, s.tasks[t].operations[op].action.request);
      var s' := Played(s, ExecuteMoves(s, t, op, env, now));
      && s'.remote == system
      && s'.tasks == s.tasks[t := RecordTx(claimed, op, Outcome(answer).0, Outcome(answer).1, now).0]
  {
    hide TenantSound, ClaimTx, RecordTx, Moved, ExecuteTx, Played, Outcome, Dispatched;
    var moves := ExecuteMoves(s, t, op, env, now);
    var request := s.tasks[t].operations[op].action.request;
    var answer := ExecuteTx(s.remote, op, request).1;
    ClaimedTenant(s, t, op, env, request);
    var s1 := Moved(s, moves[0]);
    DeliverMove(s1, t, op, request);
    OutcomeCases(answer);
    RecordMove(Moved(s1, moves[1]), t, op, Outcome(answer).0, Outcome(answer).1, now);
    ThreeMoves(s, moves);
  }

  lemma OutcomeCases(answer: Answer)
    ensures Outcome(answer).0 == Succeeded || Outcome(answer).0 == Failed || Outcome(answer).0 == Unknown
    ensures Outcome(answer).0 == Succeeded ==> answer.Answered? && Outcome(answer).1 == Some(answer.result)
    ensures Outcome(answer).0 == Failed ==> answer == ConfirmedFailure
  {
  }

  lemma ClaimedTenant(s: Tenant, t: TaskId, op: OperationId, env: Env, request: Request)
    requires TenantSound(s) && t in s.tasks && op in s.tasks[t].operations && ClaimTx(s.tasks[t], op, env).1 == Done
    requires request == s.tasks[t].operations[op].action.request
    ensures var s' := Moved(s, OnTask(t, Claim(op, env)));
      && s' == s.(tasks := s.tasks[t := ClaimTx(s.tasks[t], op, env).0], inFlight := s.inFlight + {op})
      && op in s'.tasks[t].operations
      && s'.tasks[t].operations[op].action.request == request
      && Dispatched(s'.tasks[t], op)
      && op !in s.remote.receipts
  {
    hide Sound, RemoteSound, ClaimTx, Moved;
    ClaimFrame(s.tasks[t], op, env);
    ClaimMove(s, t, op, env);
    assert op !in s.remote.receipts by { AgreesAt(s, t, op); }
  }

  lemma DeliverMove(s: Tenant, t: TaskId, op: OperationId, request: Request)
    requires t in s.tasks && op in s.tasks[t].operations && op in s.inFlight && op !in s.remote.receipts
    requires s.tasks[t].operations[op].action.request == request
    ensures var s', (system, answer) := Moved(s, Deliver(t, op)), ExecuteTx(s.remote, op, request);
      && s'.tasks == s.tasks
      && s'.remote == system
      && (answer.Answered? ==> op in system.receipts && system.receipts[op].result == answer.result)
      && (answer == ConfirmedFailure ==> op in s'.rejected)
  {
  }

  lemma ThreeMoves(s: Tenant, moves: seq<Move>)
    requires |moves| == 3
    ensures Played(s, moves) == Moved(Moved(Moved(s, moves[0]), moves[1]), moves[2])
  {
    hide Moved;
    var two, one := moves[..2], moves[..1];
    assert two[..1] == one && one[..0] == [];
    assert Played(s, one) == Moved(Played(s, one[..0]), one[0]);
    assert Played(s, two) == Moved(Played(s, two[..1]), two[1]);
  }

  /** Reconciliation resolves every operation whose effect the authority can see. */
  lemma ReconcileResolves(s: Tenant, t: TaskId, op: OperationId, now: Time)
    requires TenantSound(s) && t in s.tasks && op in s.tasks[t].operations
    requires s.tasks[t].operations[op].status.InDoubt() && QueryTx(s.remote, op).1.Some?
    ensures var o := RecordTx(s.tasks[t], op, Succeeded, QueryTx(s.remote, op).1, now).0.operations[op];
      o.status == Succeeded && o.result == Some(s.remote.receipts[op].result) && o.externalId == Some(op)
  {
    hide Sound, Conserved, RevisionsUnique;
    assert ReceiptSound(s.remote, op);
  }
}
