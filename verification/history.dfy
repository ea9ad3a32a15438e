/** What an event history says: the order of proposals and dispatches, the last decision and outcome of an operation. */
module History {
  import opened Basics
  import opened Domain

  predicate Names(e: Event, kind: Kind, op: OperationId) {
    e.kind == kind && e.payload.operation == Some(op)
  }

  function Selected(es: seq<Event>, kind: Kind): (ids: seq<OperationId>) {
    if es == [] then []
    else
      var e := es[|es| - 1];
      Selected(es[..|es| - 1], kind)
      + if e.kind == kind && e.payload.operation.Some? then [e.payload.operation.value] else []
  }

  function ProposalOrder(es: seq<Event>): seq<OperationId> { Selected(es, OperationProposed) }

  function DispatchOrder(es: seq<Event>): seq<OperationId> { Selected(es, OperationDispatched) }

  /** The status one event announces for `op`, if it announces any. */
  function Announces(e: Event, op: OperationId): Option<Status> {
    if e.payload.operation != Some(op) then None
    else match e.kind
      case OperationProposed => Some(NotSubmitted)
      case OperationDispatched => Some(Pending)
      case OperationSucceeded => Some(Succeeded)
      case OperationFailed => Some(Failed)
      case OperationUnknown => Some(Unknown)
      case _ => None
  }

  function LastStatus(es: seq<Event>, op: OperationId): Option<Status> {
    if es == [] then None
    else
      var said := Announces(es[|es| - 1], op);
      if said.Some? then said else LastStatus(es[..|es| - 1], op)
  }

  function LastDecision(es: seq<Event>, op: OperationId): Option<Decision> {
    if es == [] then None
    else
      var e := es[|es| - 1];
      if Names(e, ApprovalDecided, op) && e.payload.decision.Some? then e.payload.decision
      else LastDecision(es[..|es| - 1], op)
  }

  function Terminations(es: seq<Event>): seq<Event> {
    if es == [] then []
    else
      var e := es[|es| - 1];
      Terminations(es[..|es| - 1]) + if e.kind == TaskTerminated then [e] else []
  }

  predicate IsOutcome(kind: Kind) {
    kind == OperationSucceeded || kind == OperationFailed || kind == OperationUnknown
  }

  /** What the checker demands of one event, given the events before it. */
  predicate EventAccepted(before: seq<Event>, e: Event, known: set<OperationId>, guarded: set<OperationId>) {
    var op := e.payload.operation;
    && (op.Some? ==> op.value in known)
    && (e.kind == OperationProposed ==> op.Some? && op.value !in ProposalOrder(before))
    && (e.kind == ApprovalDecided ==> op.Some? && op.value in ProposalOrder(before) && e.payload.decision.Some?)
    && (IsOutcome(e.kind) ==> op.Some? && op.value in ProposalOrder(before))
    && (e.kind == OperationDispatched ==>
          && op.Some?
          && op.value in ProposalOrder(before)
          && op.value !in DispatchOrder(before)
          && (op.value in guarded ==> LastDecision(before, op.value) == Some(Approved)))
  }

  predicate HistoryAccepted(es: seq<Event>, known: set<OperationId>, guarded: set<OperationId>) {
    forall i :: 0 <= i < |es| ==> EventAccepted(es[..i], es[i], known, guarded)
  }

  predicate Numbered(es: seq<Event>) {
    forall i :: 0 <= i < |es| ==> es[i].sequence == i + 1
  }

  /** How every reading of a history changes when one event is appended. */
  lemma Append(es: seq<Event>, e: Event)
    ensures forall op :: LastStatus(es + [e], op) == if Announces(e, op).Some? then Announces(e, op) else LastStatus(es, op)
    ensures forall op :: LastDecision(es + [e], op) ==
                         if Names(e, ApprovalDecided, op) && e.payload.decision.Some? then e.payload.decision
                         else LastDecision(es, op)
    ensures Terminations(es + [e]) == Terminations(es) + if e.kind == TaskTerminated then [e] else []
    ensures forall kind :: Selected(es + [e], kind) ==
                           Selected(es, kind)
                           + if e.kind == kind && e.payload.operation.Some? then [e.payload.operation.value] else []
  {
    assert (es + [e])[..|es|] == es;
  }

  lemma AppendAt(es: seq<Event>, e: Event, op: OperationId)
    ensures LastStatus(es + [e], op) == if Announces(e, op).Some? then Announces(e, op) else LastStatus(es, op)
    ensures LastDecision(es + [e], op) ==
            if Names(e, ApprovalDecided, op) && e.payload.decision.Some? then e.payload.decision else LastDecision(es, op)
    ensures op in ProposalOrder(es + [e]) <==> op in ProposalOrder(es) || Names(e, OperationProposed, op)
    ensures op in DispatchOrder(es + [e]) <==> op in DispatchOrder(es) || Names(e, OperationDispatched, op)
  {
    Append(es, e);
  }

  lemma AppendAccepted(es: seq<Event>, e: Event, known: set<OperationId>, guarded: set<OperationId>)
    ensures HistoryAccepted(es + [e], known, guarded)
            <==> HistoryAccepted(es, known, guarded) && EventAccepted(es, e, known, guarded)
  {
    var all := es + [e];
    assert all[..|es|] == es && all[|es|] == e;
    assert forall i :: 0 <= i < |es| ==> all[..i] == es[..i] && all[i] == es[i];
    if HistoryAccepted(all, known, guarded) {
      forall i | 0 <= i < |es| ensures EventAccepted(es[..i], es[i], known, guarded) {
        assert EventAccepted(all[..i], all[i], known, guarded);
      }
      assert EventAccepted(all[..|es|], all[|es|], known, guarded);
    }
  }

  /** Knowing more operations never invalidates a history that does not dispatch the new ones. */
  lemma AcceptedMonotone(
    es: seq<Event>, known: set<OperationId>, guarded: set<OperationId>, known': set<OperationId>, guarded': set<OperationId>)
    requires HistoryAccepted(es, known, guarded)
    requires known <= known' && guarded' * known <= guarded
    ensures HistoryAccepted(es, known', guarded')
  {
  }

  /** An accepted history never dispatches an operation twice, and never proposes one twice. */
  lemma {:induction false} AcceptedOrdersDistinct(es: seq<Event>, known: set<OperationId>, guarded: set<OperationId>)
    requires HistoryAccepted(es, known, guarded)
    ensures Distinct(DispatchOrder(es)) && Distinct(ProposalOrder(es))
    ensures forall op :: op in DispatchOrder(es) ==> op in ProposalOrder(es)
    ensures forall op :: op in ProposalOrder(es) ==> op in known
  {
    if es != [] {
      var init, e := es[..|es| - 1], es[|es| - 1];
      assert es == init + [e];
      AppendAccepted(init, e, known, guarded);
      AcceptedOrdersDistinct(init, known, guarded);
    }
  }

  /** Behind every dispatch of a guarded operation stands an approval that no later decision replaced. */
  lemma {:induction false} GuardedDispatchApproved(es: seq<Event>, i: nat, known: set<OperationId>, guarded: set<OperationId>)
    requires HistoryAccepted(es, known, guarded)
    requires i < |es| && es[i].kind == OperationDispatched && es[i].payload.operation.Some?
    requires es[i].payload.operation.value in guarded
    ensures exists j :: 0 <= j < i && Names(es[j], ApprovalDecided, es[i].payload.operation.value)
                        && es[j].payload.decision == Some(Approved)
                        && forall k :: j < k < i ==> !Names(es[k], ApprovalDecided, es[i].payload.operation.value)
  {
    var op := es[i].payload.operation.value;
    assert EventAccepted(es[..i], es[i], known, guarded);
    forall k | 0 <= k < i && Names(es[k], ApprovalDecided, op) ensures es[k].payload.decision.Some? {
      assert EventAccepted(es[..k], es[k], known, guarded);
    }
    var j := DecisionIndex(es[..i], op);
    assert forall k :: j < k < i ==> es[k] == es[..i][k];
  }

  /** The index of the decision that `LastDecision` reports. */
  lemma {:induction false} DecisionIndex(es: seq<Event>, op: OperationId) returns (j: nat)
    requires LastDecision(es, op).Some?
    ensures j < |es| && Names(es[j], ApprovalDecided, op) && es[j].payload.decision == LastDecision(es, op)
    ensures forall k :: j < k < |es| && Names(es[k], ApprovalDecided, op) ==> es[k].payload.decision.None?
  {
    var e := es[|es| - 1];
    if Names(e, ApprovalDecided, op) && e.payload.decision.Some? {
      j := |es| - 1;
    } else {
      j := DecisionIndex(es[..|es| - 1], op);
    }
  }
}
