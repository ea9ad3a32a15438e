/** What an effect does: the state of every resource is what its receipts tell. */
module AuthorityEffects {
  import opened Basics
  import opened Domain
  import opened Authority
  import opened Tenants

  /** The parts of a resource that calls set. */
  datatype Part = Image | Replicas | Candidate

  predicate Sets(part: Part, call: Call) {
    match part
    case Image => call.Deploy? || call.Rollback?
    case Replicas => call.Runbook?
    case Candidate => call.CreatePr?
  }

  function ValueOf(part: Part, call: Call): int
    requires Sets(part, call)
  {
    match part case Image => call.image case Replicas => call.replicas case Candidate => call.candidate
  }

  function Shown(part: Part, state: ResourceState): int {
    match part case Image => state.image case Replicas => state.replicas case Candidate => state.candidate
  }

  /** A resource nobody touched runs the healthy image on two replicas, with the fixed candidate. */
  function Untouched(part: Part): int {
    match part case Image => HEALTHY_IMAGE case Replicas => 2 case Candidate => FIXED_CANDIDATE
  }

  predicate ReceiptOn(m: Remote, resource: Resource, op: OperationId) {
    op in m.receipts && m.receipts[op].request.resource == resource
  }

  function RevisionOf(m: Remote, op: OperationId): int
    requires op in m.receipts
  {
    m.receipts[op].result.revision
  }

  /** A receipt of the resource, older than the revision, whose call set the part. */
  predicate SetBefore(m: Remote, resource: Resource, part: Part, revision: int, op: OperationId) {
    ReceiptOn(m, resource, op) && Sets(part, m.receipts[op].request.call) && RevisionOf(m, op) < revision
  }

  /** The last of them. */
  predicate LastSet(m: Remote, resource: Resource, part: Part, revision: int, op: OperationId) {
    && SetBefore(m, resource, part, revision, op)
    && forall k :: k in m.receipts && SetBefore(m, resource, part, revision, k) ==> RevisionOf(m, k) <= RevisionOf(m, op)
  }

  /** The value the receipts tell for a part, just before a revision: that of the last call that set it, or the untouched one. */
  ghost predicate Told(m: Remote, resource: Resource, part: Part, revision: int, value: int) {
    || ((forall k :: k in m.receipts ==> !SetBefore(m, resource, part, revision, k)) && value == Untouched(part))
    || (exists op :: op in m.receipts && LastSet(m, resource, part, revision, op) && value == ValueOf(part, m.receipts[op].request.call))
  }

  predicate MakesHealthy(call: Call) { call.Deploy? || call.Rollback? || call.Runbook? }

  ghost predicate StateTold(m: Remote, resource: Resource) {
    var state := Snapshot(m, resource);
    && (forall part :: Told(m, resource, part, state.revision + 1, Shown(part, state)))
    && (state.healthy <==> exists op :: op in m.receipts && ReceiptOn(m, resource, op) && MakesHealthy(m.receipts[op].request.call))
    && state.base == BASELINE
  }

  /** A merge took effect only between the candidate and the base of its moment. */
  ghost predicate MergeTold(m: Remote, op: OperationId)
    requires op in m.receipts
  {
    var request := m.receipts[op].request;
    request.call.MergePr? ==>
      Told(m, request.resource, Candidate, RevisionOf(m, op), request.call.source) && request.call.target == BASELINE
  }

  ghost predicate EffectsTold(m: Remote) {
    && (forall resource: Resource :: StateTold(m, resource))
    && (forall op :: op in m.receipts ==> MergeTold(m, op))
  }

  // ---------- One call ----------

  /** The checks a new request must pass. */
  predicate Accepts(m: Remote, op: OperationId, request: Request) {
    var state := Snapshot(m, request.resource);
    && !(op in m.faults && m.faults[op].mode == RejectRequest)
    && (request.call.Versioned() ==> request.call.expectedRevision == state.revision)
    && (request.call.MergePr? ==> request.call.source == state.candidate && request.call.target == state.base)
  }

  /** A known identity is answered from its receipt or refused; a new one takes effect exactly if it passes the checks, and then
      only its own resource and its own receipt change. */
  lemma ExecuteExactly(m: Remote, op: OperationId, request: Request)
    ensures var (m', answer) := ExecuteTx(m, op, request);
      && m'.faults == m.faults
      && (op in m.receipts ==>
            m' == m && answer == if m.receipts[op].request == request then Answered(m.receipts[op].result) else ConfirmedFailure)
      && (op !in m.receipts && !Accepts(m, op, request) ==> m' == m && answer == ConfirmedFailure)
      && (op !in m.receipts && Accepts(m, op, request) ==>
            var result := RemoteResult(true, Some(op), request.resource, Snapshot(m, request.resource).revision + 1);
            && m'.receipts == m.receipts[op := Receipt(request, result)]
            && (forall r :: r != request.resource ==> Snapshot(m', r) == Snapshot(m, r))
            && Snapshot(m', request.resource).revision == Snapshot(m, request.resource).revision + 1
            && Snapshot(m', request.resource).effectCount == Snapshot(m, request.resource).effectCount + 1
            && answer == if op in m.faults && m.faults[op].mode == ResponseLost then UnknownOutcome else Answered(result))
  {
  }

  /** A query shows the receipt, except while a hiding fault lasts. */
  lemma QueryExactly(m: Remote, op: OperationId)
    ensures var (m', result) := QueryTx(m, op);
      var hidden := op in m.faults && m.faults[op].mode == QueryHidden && m.faults[op].remaining > 0;
      && m'.receipts == m.receipts && m'.resources == m.resources
      && (result.Some? <==> op in m.receipts && !hidden)
      && (result.Some? ==> result.value == m.receipts[op].result)
      && m'.faults == if hidden then m.faults[op := FaultRow(QueryHidden, m.faults[op].remaining - 1)] else m.faults
  {
  }

  function Queried(m: Remote, op: OperationId, times: nat): Remote {
    if times == 0 then m else QueryTx(Queried(m, op, times - 1), op).0
  }

  /** A hiding fault hides the next `remaining` queries of its operation, and no more. */
  lemma {:induction false} HiddenExactly(m: Remote, op: OperationId, remaining: nat, times: nat)
    ensures var m' := Queried(InjectTx(m, op, QueryHidden, remaining), op, times);
      && m'.receipts == m.receipts && m'.resources == m.resources
      && m'.faults == m.faults[op := FaultRow(QueryHidden, if times < remaining then remaining - times else 0)]
      && QueryTx(m', op).1 == if times < remaining || op !in m.receipts then None else Some(m.receipts[op].result)
  {
    if times > 0 {
      HiddenExactly(m, op, remaining, times - 1);
      QueryExactly(Queried(InjectTx(m, op, QueryHidden, remaining), op, times - 1), op);
    }
  }

  /** What the new state shows: the parts the call sets, and the old ones otherwise. */
  lemma EffectShows(m: Remote, op: OperationId, request: Request, part: Part)
    requires op !in m.receipts && Accepts(m, op, request)
    ensures var before, after := Snapshot(m, request.resource), Snapshot(ExecuteTx(m, op, request).0, request.resource);
      && Shown(part, after) == (if Sets(part, request.call) then ValueOf(part, request.call) else Shown(part, before))
      && after.healthy == (before.healthy || MakesHealthy(request.call))
      && after.base == before.base
  {
  }

  // ---------- All calls ----------

  /** A receipt that is newer than the revision tells nothing about it. */
  lemma ToldLater(m: Remote, m': Remote, op: OperationId, c: Receipt, resource: Resource, part: Part, revision: int, value: int)
    requires op !in m.receipts && m'.receipts == m.receipts[op := c]
    requires c.request.resource == resource ==> c.result.revision >= revision || !Sets(part, c.request.call)
    requires Told(m, resource, part, revision, value)
    ensures Told(m', resource, part, revision, value)
  {
    if exists k :: k in m.receipts && LastSet(m, resource, part, revision, k) && value == ValueOf(part, m.receipts[k].request.call) {
      var k :| k in m.receipts && LastSet(m, resource, part, revision, k) && value == ValueOf(part, m.receipts[k].request.call);
      assert LastSet(m', resource, part, revision, k);
    }
  }

  lemma Revisions(m: Remote, resource: Resource)
    requires RemoteSound(m)
    ensures forall k :: k in m.receipts && ReceiptOn(m, resource, k) ==> RevisionOf(m, k) <= Snapshot(m, resource).revision
  {
    hide Conserved, RevisionsUnique;
    forall k | k in m.receipts && ReceiptOn(m, resource, k) ensures RevisionOf(m, k) <= Snapshot(m, resource).revision {
      assert ReceiptSound(m, k);
    }
  }

  /** A part after a call that set it. */
  lemma SetTold(m: Remote, op: OperationId, request: Request, part: Part)
    requires RemoteSound(m) && op !in m.receipts && Accepts(m, op, request) && Sets(part, request.call)
    ensures var m' := ExecuteTx(m, op, request).0;
      var state := Snapshot(m', request.resource);
      Told(m', request.resource, part, state.revision + 1, Shown(part, state))
  {
    var m', r := ExecuteTx(m, op, request).0, request.resource;
    ExecuteExactly(m, op, request);
    EffectShows(m, op, request, part);
    Revisions(m, r);
    hide *;
    NewestTold(m, m', op, m'.receipts[op], part, Snapshot(m, r).revision);
  }

  /** And after a call that did not. */
  lemma UnsetTold(m: Remote, op: OperationId, request: Request, part: Part)
    requires RemoteSound(m) && op !in m.receipts && Accepts(m, op, request) && !Sets(part, request.call)
    requires var before := Snapshot(m, request.resource); Told(m, request.resource, part, before.revision + 1, Shown(part, before))
    ensures var m' := ExecuteTx(m, op, request).0;
      var state := Snapshot(m', request.resource);
      Told(m', request.resource, part, state.revision + 1, Shown(part, state))
  {
    var m', r := ExecuteTx(m, op, request).0, request.resource;
    var before := Snapshot(m, r);
    ExecuteExactly(m, op, request);
    EffectShows(m, op, request, part);
    Revisions(m, r);
    hide *;
    ToldLater(m, m', op, m'.receipts[op], r, part, before.revision + 1, Shown(part, before));
    NotSetNow(m, m', op, r, part, before.revision, Shown(part, before));
  }

  lemma NewestTold(m: Remote, m': Remote, op: OperationId, c: Receipt, part: Part, revision: int)
    requires op !in m.receipts && m'.receipts == m.receipts[op := c] && Sets(part, c.request.call) && c.result.revision == revision + 1
    requires forall k :: k in m.receipts && ReceiptOn(m, c.request.resource, k) ==> RevisionOf(m, k) <= revision
    ensures Told(m', c.request.resource, part, revision + 2, ValueOf(part, c.request.call))
  {
    forall k | k in m'.receipts && SetBefore(m', c.request.resource, part, revision + 2, k) ensures RevisionOf(m', k) <= RevisionOf(m', op) {
      if k != op { assert ReceiptOn(m, c.request.resource, k) && RevisionOf(m', k) == RevisionOf(m, k); }
    }
    assert LastSet(m', c.request.resource, part, revision + 2, op);
  }

  lemma NotSetNow(m: Remote, m': Remote, op: OperationId, resource: Resource, part: Part, revision: int, value: int)
    requires op in m'.receipts && op !in m.receipts && m'.receipts == m.receipts[op := m'.receipts[op]]
    requires !Sets(part, m'.receipts[op].request.call) && Told(m', resource, part, revision + 1, value)
    requires forall k :: k in m.receipts && ReceiptOn(m, resource, k) ==> RevisionOf(m, k) <= revision
    ensures Told(m', resource, part, revision + 2, value)
  {
    forall k | k in m'.receipts ensures SetBefore(m', resource, part, revision + 1, k) <==> SetBefore(m', resource, part, revision + 2, k) {
      if k in m.receipts && ReceiptOn(m, resource, k) { assert RevisionOf(m, k) <= revision; }
    }
    if exists k :: k in m'.receipts && LastSet(m', resource, part, revision + 1, k) && value == ValueOf(part, m'.receipts[k].request.call) {
      var k :| k in m'.receipts && LastSet(m', resource, part, revision + 1, k) && value == ValueOf(part, m'.receipts[k].request.call);
      assert LastSet(m', resource, part, revision + 2, k);
    }
  }

  lemma HealthTold(m: Remote, op: OperationId, request: Request)
    requires StateTold(m, request.resource) && op !in m.receipts && Accepts(m, op, request)
    ensures var m' := ExecuteTx(m, op, request).0;
      var state := Snapshot(m', request.resource);
      && (state.healthy <==> exists k :: k in m'.receipts && ReceiptOn(m', request.resource, k) && MakesHealthy(m'.receipts[k].request.call))
      && state.base == BASELINE
  {
    var m', r := ExecuteTx(m, op, request).0, request.resource;
    ExecuteExactly(m, op, request);
    EffectShows(m, op, request, Image);
    var before := Snapshot(m, r);
    hide ExecuteTx, Told;
    assert ReceiptOn(m', r, op);
    if before.healthy {
      var k :| k in m.receipts && ReceiptOn(m, r, k) && MakesHealthy(m.receipts[k].request.call);
      assert k in m'.receipts && ReceiptOn(m', r, k) && MakesHealthy(m'.receipts[k].request.call);
    }
    forall k | k in m'.receipts && ReceiptOn(m', r, k) && MakesHealthy(m'.receipts[k].request.call) && k != op ensures before.healthy {
      assert ReceiptOn(m, r, k);
    }
  }

  lemma OtherTold(m: Remote, op: OperationId, request: Request, resource: Resource)
    requires StateTold(m, resource) && op !in m.receipts && Accepts(m, op, request) && resource != request.resource
    ensures StateTold(ExecuteTx(m, op, request).0, resource)
  {
    var m' := ExecuteTx(m, op, request).0;
    ExecuteExactly(m, op, request);
    var state := Snapshot(m, resource);
    hide ExecuteTx, Told;
    forall part ensures Told(m', resource, part, state.revision + 1, Shown(part, state)) {
      ToldLater(m, m', op, m'.receipts[op], resource, part, state.revision + 1, Shown(part, state));
    }
    forall k | k in m.receipts ensures ReceiptOn(m', resource, k) == ReceiptOn(m, resource, k) && m'.receipts[k] == m.receipts[k] {
    }
  }

  lemma CandidateTold(m: Remote, resource: Resource)
    requires StateTold(m, resource)
    ensures Told(m, resource, Candidate, Snapshot(m, resource).revision + 1, Snapshot(m, resource).candidate)
    ensures Snapshot(m, resource).base == BASELINE
  {
    hide Told;
    var state := Snapshot(m, resource);
    assert Told(m, resource, Candidate, state.revision + 1, Shown(Candidate, state));
  }

  /** The merge that takes effect now. */
  lemma NewMergeTold(m: Remote, op: OperationId, request: Request)
    requires StateTold(m, request.resource) && op !in m.receipts && Accepts(m, op, request)
    ensures MergeTold(ExecuteTx(m, op, request).0, op)
  {
    var m' := ExecuteTx(m, op, request).0;
    ExecuteExactly(m, op, request);
    if request.call.MergePr? {
      CandidateTold(m, request.resource);
      hide ExecuteTx, Told, StateTold;
      ToldLater(m, m', op, m'.receipts[op], request.resource, Candidate, RevisionOf(m', op), request.call.source);
    }
  }

  /** The merges before it. */
  lemma OldMergeTold(m: Remote, op: OperationId, request: Request, k: OperationId)
    requires RemoteSound(m) && k in m.receipts && MergeTold(m, k) && op !in m.receipts && Accepts(m, op, request)
    ensures k in ExecuteTx(m, op, request).0.receipts && MergeTold(ExecuteTx(m, op, request).0, k)
  {
    var m' := ExecuteTx(m, op, request).0;
    ExecuteExactly(m, op, request);
    var c := m.receipts[k].request;
    Revisions(m, c.resource);
    assert ReceiptOn(m, c.resource, k);
    hide ExecuteTx, Told, RemoteSound;
    if c.call.MergePr? { ToldLater(m, m', op, m'.receipts[op], c.resource, Candidate, RevisionOf(m, k), c.call.source); }
  }

  lemma ExecuteTold(m: Remote, op: OperationId, request: Request)
    requires RemoteSound(m) && EffectsTold(m)
    ensures EffectsTold(ExecuteTx(m, op, request).0)
  {
    ExecuteExactly(m, op, request);
    if op !in m.receipts && Accepts(m, op, request) {
      var m' := ExecuteTx(m, op, request).0;
      hide ExecuteTx, Told, RemoteSound, Accepts, MergeTold;
      forall resource: Resource ensures StateTold(m', resource) {
        if resource == request.resource {
          forall part ensures Told(m', resource, part, Snapshot(m', resource).revision + 1, Shown(part, Snapshot(m', resource))) {
            if Sets(part, request.call) { SetTold(m, op, request, part); } else {
              assert StateTold(m, resource);
              assert Told(m, resource, part, Snapshot(m, resource).revision + 1, Shown(part, Snapshot(m, resource)));
              UnsetTold(m, op, request, part);
            }
          }
          HealthTold(m, op, request);
        } else {
          OtherTold(m, op, request, resource);
        }
      }
      forall k | k in m'.receipts ensures MergeTold(m', k) {
        if k == op { NewMergeTold(m, op, request); } else { OldMergeTold(m, op, request, k); }
      }
    }
  }

  lemma SameTold(m: Remote, m': Remote)
    requires EffectsTold(m) && m'.receipts == m.receipts && m'.resources == m.resources
    ensures EffectsTold(m')
  {
    SameMerges(m, m');
    forall resource: Resource ensures StateTold(m', resource) {
      assert StateTold(m, resource) && Snapshot(m', resource) == Snapshot(m, resource);
      SameState(m, m', resource);
    }
  }

  lemma SameState(m: Remote, m': Remote, resource: Resource)
    requires StateTold(m, resource) && m'.receipts == m.receipts && m'.resources == m.resources
    ensures StateTold(m', resource)
  {
    var state := Snapshot(m, resource);
    forall part ensures Told(m', resource, part, state.revision + 1, Shown(part, state)) {
      SameValue(m, m', resource, part, state.revision + 1, Shown(part, state));
    }
    hide Told;
    assert forall k :: ReceiptOn(m', resource, k) == ReceiptOn(m, resource, k);
  }

  lemma SameValue(m: Remote, m': Remote, resource: Resource, part: Part, revision: int, value: int)
    requires Told(m, resource, part, revision, value) && m'.receipts == m.receipts
    ensures Told(m', resource, part, revision, value)
  {
    assert forall k :: SetBefore(m', resource, part, revision, k) == SetBefore(m, resource, part, revision, k);
    if exists k :: k in m.receipts && LastSet(m, resource, part, revision, k) && value == ValueOf(part, m.receipts[k].request.call) {
      var k :| k in m.receipts && LastSet(m, resource, part, revision, k) && value == ValueOf(part, m.receipts[k].request.call);
      assert LastSet(m', resource, part, revision, k);
    }
  }

  lemma SameMerges(m: Remote, m': Remote)
    requires EffectsTold(m) && m'.receipts == m.receipts
    ensures forall k :: k in m'.receipts ==> MergeTold(m', k)
  {
    forall k | k in m'.receipts ensures MergeTold(m', k) {
      assert MergeTold(m, k);
      var request := m.receipts[k].request;
      if request.call.MergePr? { SameValue(m, m', request.resource, Candidate, RevisionOf(m, k), request.call.source); }
    }
  }

  lemma NothingTold()
    ensures EffectsTold(Remote(map[], map[], map[]))
  {
    var m := Remote(map[], map[], map[]);
    forall resource: Resource ensures StateTold(m, resource) {
      assert Snapshot(m, resource) == INITIAL;
    }
  }

  lemma DeliveryTold(s: Tenant, a: Move)
    requires RemoteSound(s.remote) && EffectsTold(s.remote) && (a.Deliver? || a.Redeliver?)
    ensures EffectsTold(Moved(s, a).remote)
  {
    hide EffectsTold, RemoteSound, ExecuteTx;
    if a.task in s.tasks && a.op in s.tasks[a.task].operations {
      ExecuteTold(s.remote, a.op, s.tasks[a.task].operations[a.op].action.request);
    }
  }

  lemma MoveTold(s: Tenant, a: Move)
    requires RemoteSound(s.remote) && EffectsTold(s.remote)
    ensures EffectsTold(Moved(s, a).remote)
  {
    hide EffectsTold, RemoteSound;
    match a
    case Deliver(_, _) => DeliveryTold(s, a);
    case Redeliver(_, _) => DeliveryTold(s, a);
    case Query(op) =>
      QueryExactly(s.remote, op);
      SameTold(s.remote, QueryTx(s.remote, op).0);
    case Inject(op, mode, remaining) => SameTold(s.remote, InjectTx(s.remote, op, mode, remaining));
    case _ => RemoteStays(s, a);
  }

  lemma RemoteStays(s: Tenant, a: Move)
    requires a.CreateTask? || a.OnTask?
    ensures Moved(s, a).remote == s.remote
  {
  }

  /** Over every play of workers, deliveries, faults and crashes: a resource runs the image of its last deployment or rollback on
      the replicas of its last runbook, its candidate is that of its last pull request, it is healthy if and only if one of the
      first three ever took effect, and every merge joined the candidate and the base of its moment. */
  lemma {:induction false} EffectsOverPlays(live: bool, moves: seq<Move>)
    ensures EffectsTold(Played(Empty(live), moves).remote)
  {
    if moves == [] {
      NothingTold();
    } else {
      EffectsOverPlays(live, moves[..|moves| - 1]);
      PlaySound(live, moves[..|moves| - 1]);
      assert RemoteSound(Played(Empty(live), moves[..|moves| - 1]).remote);
      hide TenantSound, Moved, EffectsTold, RemoteSound;
      MoveTold(Played(Empty(live), moves[..|moves| - 1]), moves[|moves| - 1]);
    }
  }
}
