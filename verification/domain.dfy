/** The vocabulary shared by the action ledger, the remote authority and the audit recording. */
module Domain {
  import opened Basics

  // Identities are only ever compared, so numbers stand for the UUIDs, digests and names.
  type TaskId = nat
  type OperationId = nat
  type ApprovalId = nat
  type ArtifactId = nat
  type Subject = nat
  type Resource = nat
  type Release = nat
  type Sha = nat

  datatype Status = NotSubmitted | Pending | Unknown | Failed | Succeeded {
    predicate InDoubt() { Pending? || Unknown? }

    /** The order in which a status may move, and never back. */
    function Rank(): nat {
      match this
      case NotSubmitted => 0
      case Pending => 1
      case Unknown => 2
      case Failed => 3
      case Succeeded => 4
    }
  }

  datatype Recovery = Reconciling | InManualReview
  datatype Decision = Approved | Rejected
  datatype ApprovalStatus = Undecided | Decided(decision: Decision) | Expired
  datatype TaskStatus = Queued | Running | Waiting | Cancelling | Terminated
  datatype TaskResult = Success | TaskFailed | Cancelled
  datatype ArtifactKind = Verification | OtherArtifact(name: nat)

  datatype Reason =
    | HumanTakeover
    | Reconciliation
    | AwaitingApproval
    | ManualReview
    | EvidenceRequired
    | OtherReason(code: nat)

  datatype Tool = CreatePrTool | TriggerCiTool | MergePrTool | DeployTool | RollbackTool | RunbookTool

  /** A tool together with exactly the parameters that tool accepts. */
  datatype Call =
    | CreatePr(candidate: Sha, base: Sha)
    | TriggerCi(candidate: Sha)
    | MergePr(source: Sha, target: Sha)
    | Deploy(image: Sha, expectedRevision: int)
    | Rollback(image: Sha, expectedRevision: int)
    | Runbook(replicas: int, expectedRevision: int)
  {
    function Tool(): Tool {
      match this
      case CreatePr(_, _) => CreatePrTool
      case TriggerCi(_) => TriggerCiTool
      case MergePr(_, _) => MergePrTool
      case Deploy(_, _) => DeployTool
      case Rollback(_, _) => RollbackTool
      case Runbook(_, _) => RunbookTool
    }

    /** The tools that may only be dispatched after an approval. */
    predicate Protected() { MergePr? || Deploy? || Rollback? || Runbook? }

    predicate Versioned() { Deploy? || Rollback? || Runbook? }

    predicate ValidParameters() {
      && (Versioned() ==> expectedRevision >= 1)
      && (Runbook? ==> 1 <= replicas <= 10)
    }
  }

  datatype Request = Request(call: Call, resource: Resource)

  /** Digests are injective, so an action stands for its own payload digest. */
  datatype Action = Action(request: Request, evidence: seq<nat>)

  /** What the authority answers: the fields `_record` looks at, and the revision it produced. */
  datatype RemoteResult = RemoteResult(confirmed: bool, externalId: Option<OperationId>, resource: Resource, revision: int)

  datatype Kind =
    | TaskCreated
    | TaskCancelled
    | TaskTakeover
    | TaskResumed
    | TaskTerminated
    | OperationProposed
    | ApprovalDecided
    | OperationDispatched
    | OperationSucceeded
    | OperationFailed
    | OperationUnknown
    | OperationEscalated
    | OtherKind(name: nat)

  datatype Payload = Payload(
    operation: Option<OperationId>,
    decision: Option<Decision>,
    release: Option<Release>,
    result: Option<TaskResult>)

  const NOTHING := Payload(None, None, None, None)

  function About(op: OperationId): Payload { NOTHING.(operation := Some(op)) }

  datatype Event = Event(sequence: int, kind: Kind, payload: Payload)
}
