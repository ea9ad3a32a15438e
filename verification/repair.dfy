/** The bounded repair loop: attempts moved by compare-and-set, replanned at every tick from rows that may be stale. */
module Repair {
  import opened Basics

  type Token = nat

  const VERIFICATIONS: nat := 3

  datatype Outcome = RegressionFixed | CandidateFailed | OtherOutcome(code: nat) | Interrupted

  datatype Phase = Generating | Generated | Verifying | Blocked | Verified

  datatype Attempt = Attempt(ordinal: nat, phase: Phase, count: nat, token: Option<Token>, outcome: Option<Outcome>)

  datatype State = Active | ReadyForReview | Inconclusive | Exhausted | InputChanged | EvidenceChanged

  /** A run and its attempts; an attempt's position is its identity. */
  datatype Campaign = Campaign(limit: nat, state: State, attempts: seq<Attempt>)

  /** The attempt with the highest ordinal. */
  function Newest(attempts: seq<Attempt>): (i: Option<nat>)
    ensures i.None? <==> attempts == []
    ensures i.Some? ==> i.value < |attempts| && forall k :: 0 <= k < |attempts| ==> attempts[k].ordinal <= attempts[i.value].ordinal
  {
    if attempts == [] then None
    else
      var i := Newest(attempts[..|attempts| - 1]);
      if i.None? || attempts[|attempts| - 1].ordinal > attempts[i.value].ordinal then Some(|attempts| - 1) else i
  }

  // ---------- Transactions ----------

  predicate Has(c: Campaign, id: nat, phase: Phase) { id < |c.attempts| && c.attempts[id].phase == phase }

  predicate Carries(c: Campaign, id: nat, phase: Phase, token: Option<Token>) {
    Has(c, id, phase) && c.attempts[id].token == token
  }

  function With(c: Campaign, id: nat, a: Attempt): Campaign
    requires id < |c.attempts|
  {
    c.(attempts := c.attempts[id := a])
  }

  /** The unique ordinal makes a second insertion do nothing. */
  function CreateTx(c: Campaign, ordinal: nat): Campaign {
    if exists k :: 0 <= k < |c.attempts| && c.attempts[k].ordinal == ordinal then c
    else c.(attempts := c.attempts + [Attempt(ordinal, Generating, 0, None, None)])
  }

  function SaveTx(c: Campaign, id: nat): Campaign {
    if Has(c, id, Generating) then With(c, id, c.attempts[id].(phase := Generated)) else c
  }

  function StartTx(c: Campaign, id: nat, token: Token): Campaign {
    if Has(c, id, Generated) && c.attempts[id].count < VERIFICATIONS then
      With(c, id, c.attempts[id].(phase := Verifying, token := Some(token), count := c.attempts[id].count + 1))
    else c
  }

  function BlockTx(c: Campaign, id: nat, token: Option<Token>): Campaign {
    if Carries(c, id, Verifying, token) then With(c, id, c.attempts[id].(phase := Blocked, outcome := Some(Interrupted))) else c
  }

  function ReopenTx(c: Campaign, id: nat, token: Option<Token>): Campaign {
    if Carries(c, id, Blocked, token) then With(c, id, c.attempts[id].(phase := Verifying)) else c
  }

  function VerifiedTx(c: Campaign, id: nat, token: Option<Token>, outcome: Outcome): Campaign {
    if Carries(c, id, Verifying, token) then With(c, id, c.attempts[id].(phase := Verified, outcome := Some(outcome))) else c
  }

  function EndTx(c: Campaign, state: State): Campaign { if c.state == Active then c.(state := state) else c }

  /** A changed source or withdrawn evidence overwrites whatever state the run has. */
  function ChangeTx(c: Campaign, state: State): Campaign { c.(state := state) }

  predicate Retryable(c: Campaign, id: nat) {
    && c.state == Active
    && Has(c, id, Blocked)
    && c.attempts[id].outcome == Some(Interrupted)
    && c.attempts[id].count < VERIFICATIONS
  }

  function RetryTx(c: Campaign, id: nat): Campaign {
    if Retryable(c, id) then With(c, id, c.attempts[id].(phase := Generated, outcome := None, token := None)) else c
  }

  // ---------- The tick ----------

  /** What a tick does with the rows it read. `recovered` is the outcome of a stored report with the attempt's token. */
  datatype Plan =
    | Wait
    | EndAs(state: State)
    | Create(ordinal: nat)
    | Reopen(id: nat, token: Option<Token>, outcome: Outcome)
    | Propose(id: nat)
    | Accept(id: nat, token: Option<Token>, outcome: Outcome)
    | Block(id: nat, token: Option<Token>)
    | Launch(id: nat)

  function PlanOf(seen: Campaign, recovered: Option<Outcome>, expired: bool): Plan {
    if seen.state != Active then Wait
    else if Newest(seen.attempts).None? then (if 1 > seen.limit then EndAs(Exhausted) else Create(1))
    else
      var id := Newest(seen.attempts).value;
      var a := seen.attempts[id];
      match a.phase
      case Verified =>
        if a.outcome == Some(CandidateFailed) then
          (if a.ordinal + 1 > seen.limit then EndAs(Exhausted) else Create(a.ordinal + 1))
        else EndAs(if a.outcome == Some(RegressionFixed) then ReadyForReview else Inconclusive)
      case Blocked =>
        if a.token.Some? && recovered.Some? && a.outcome == Some(Interrupted) then Reopen(id, a.token, recovered.value) else Wait
      case Generating => Propose(id)
      case Verifying =>
        if a.token.Some? && recovered.Some? then Accept(id, a.token, recovered.value)
        else if expired then Block(id, a.token)
        else Wait
      case Generated => Launch(id)
  }

  /** The tick's first write. */
  function Act(c: Campaign, plan: Plan, uid: Token): Campaign {
    match plan
    case Wait => c
    case EndAs(state) => EndTx(c, state)
    case Create(ordinal) => CreateTx(c, ordinal)
    case Reopen(id, token, _) => ReopenTx(c, id, token)
    case Propose(id) => SaveTx(c, id)
    case Accept(id, token, outcome) => VerifiedTx(c, id, token, outcome)
    case Block(id, token) => BlockTx(c, id, token)
    case Launch(id) => StartTx(c, id, uid)
  }

  /** How a verified outcome ends the run; a failed candidate does not. */
  function EndFor(c: Campaign, outcome: Outcome): Campaign {
    if outcome == CandidateFailed then c else EndTx(c, if outcome == RegressionFixed then ReadyForReview else Inconclusive)
  }

  /** `_verified`: only the transaction that recorded the outcome goes on to end the run. */
  function ConcludeTx(c: Campaign, id: nat, token: Option<Token>, outcome: Outcome): Campaign {
    if Carries(c, id, Verifying, token) then EndFor(VerifiedTx(c, id, token, outcome), outcome) else c
  }

  /** A whole tick that nobody interleaves with. `verdict` is what its verifier reports, none if it fails. */
  function TickTx(c: Campaign, plan: Plan, uid: Token, verdict: Option<Outcome>): Campaign {
    match plan
    case Accept(id, token, outcome) => ConcludeTx(c, id, token, outcome)
    case Reopen(id, token, outcome) =>
      if Carries(c, id, Blocked, token) then ConcludeTx(ReopenTx(c, id, token), id, token, outcome) else c
    case Launch(id) =>
      if !Has(c, id, Generated) || c.attempts[id].count >= VERIFICATIONS then c
      else
        var started := StartTx(c, id, uid);
        if verdict.Some? then ConcludeTx(started, id, Some(uid), verdict.value) else BlockTx(started, id, Some(uid))
    case _ => Act(c, plan, uid)
  }

  class RepairTables {
    const limit: nat
    var state: State
    var attempts: seq<Attempt>

    function Contents(): Campaign
      reads this
    {
      Campaign(limit, state, attempts)
    }

    constructor (limit: nat)
      ensures Contents() == Campaign(limit, Active, [])
    {
      this.limit, state, attempts := limit, Active, [];
    }

    method Insert(ordinal: nat)
      modifies this
      ensures Contents() == CreateTx(old(Contents()), ordinal)
    {
      var i := 0;
      while i < |attempts|
        invariant i <= |attempts| && forall k :: 0 <= k < i ==> attempts[k].ordinal != ordinal
      {
        if attempts[i].ordinal == ordinal { return; }
        i := i + 1;
      }
      attempts := attempts + [Attempt(ordinal, Generating, 0, None, None)];
    }

    /** The compare-and-set every step of an attempt goes through. */
    method CompareAndSet(id: nat, phase: Phase, token: Option<Token>, after: Phase, outcome: Option<Outcome>) returns (changed: bool)
      modifies this`attempts
      ensures changed == Carries(old(Contents()), id, phase, token)
      ensures Contents() ==
              if changed then With(old(Contents()), id, old(attempts)[id].(phase := after, outcome := outcome)) else old(Contents())
    {
      changed := id < |attempts| && attempts[id].phase == phase && attempts[id].token == token;
      if changed { attempts := attempts[id := attempts[id].(phase := after, outcome := outcome)]; }
    }

    method Save(id: nat)
      modifies this`attempts
      ensures Contents() == SaveTx(old(Contents()), id)
    {
      if id < |attempts| && attempts[id].phase == Generating {
        attempts := attempts[id := attempts[id].(phase := Generated)];
      }
    }

    method StartVerification(id: nat, token: Token) returns (started: bool)
      modifies this`attempts
      ensures Contents() == StartTx(old(Contents()), id, token)
      ensures started <==> Has(old(Contents()), id, Generated) && old(attempts)[id].count < VERIFICATIONS
      ensures started <==> Contents() != old(Contents())
    {
      started := id < |attempts| && attempts[id].phase == Generated && attempts[id].count < VERIFICATIONS;
      if started {
        ghost var before := attempts;
        attempts := attempts[id := attempts[id].(phase := Verifying, token := Some(token), count := attempts[id].count + 1)];
        assert attempts[id] != before[id];
      }
    }

    method End(result: State)
      modifies this`state
      ensures Contents() == EndTx(old(Contents()), result)
    {
      if state == Active { state := result; }
    }

    method Change(result: State)
      modifies this`state
      ensures Contents() == ChangeTx(old(Contents()), result)
    {
      state := result;
    }

    /** Only an interrupted verification of an active run may be repeated, and at most three may ever start. */
    method RetryVerification(id: nat) returns (accepted: bool)
      modifies this`attempts
      ensures accepted == Retryable(old(Contents()), id)
      ensures Contents() == RetryTx(old(Contents()), id)
    {
      if state != Active || id >= |attempts| { return false; }
      var a := attempts[id];
      if a.phase != Blocked || a.outcome != Some(Interrupted) || a.count >= VERIFICATIONS { return false; }
      attempts := attempts[id := a.(phase := Generated, outcome := None, token := None)];
      accepted := true;
    }

    /** Records the outcome of a verification, and ends the run unless another candidate may follow. */
    method Conclude(id: nat, token: Option<Token>, outcome: Outcome)
      modifies this
      ensures Contents() == ConcludeTx(old(Contents()), id, token, outcome)
    {
      var changed := CompareAndSet(id, Verifying, token, Verified, Some(outcome));
      if !changed { return; }
      if outcome == RegressionFixed {
        End(ReadyForReview);
      } else if outcome != CandidateFailed {
        End(Inconclusive);
      }
    }

    /** One tick, on rows read earlier. */
    method Tick(seen: Campaign, recovered: Option<Outcome>, expired: bool, uid: Token, verdict: Option<Outcome>)
      modifies this
      ensures Contents() == TickTx(old(Contents()), PlanOf(seen, recovered, expired), uid, verdict)
    {
      if seen.state != Active { return; }
      var newest := Newest(seen.attempts);
      if newest.None? {
        if 1 > seen.limit { End(Exhausted); } else { Insert(1); }
        return;
      }
      var id := newest.value;
      var attempt := seen.attempts[id];
      if attempt.phase == Verified && attempt.outcome != Some(CandidateFailed) {
        End(if attempt.outcome == Some(RegressionFixed) then ReadyForReview else Inconclusive);
      } else if attempt.phase == Verified {
        if attempt.ordinal + 1 > seen.limit { End(Exhausted); } else { Insert(attempt.ordinal + 1); }
      } else if attempt.phase == Blocked {
        if attempt.token.Some? && recovered.Some? && attempt.outcome == Some(Interrupted) {
          if Carries(Contents(), id, Blocked, attempt.token) {
            attempts := attempts[id := attempts[id].(phase := Verifying)];
            Conclude(id, attempt.token, recovered.value);
          }
        }
      } else if attempt.phase == Generating {
        Save(id);
      } else if attempt.phase == Verifying {
        if attempt.token.Some? && recovered.Some? {
          Conclude(id, attempt.token, recovered.value);
        } else if expired {
          var changed := CompareAndSet(id, Verifying, attempt.token, Blocked, Some(Interrupted));
        }
      } else {
        var started := StartVerification(id, uid);
        if !started { return; }
        if verdict.Some? {
          Conclude(id, Some(uid), verdict.value);
        } else {
          var changed := CompareAndSet(id, Verifying, Some(uid), Blocked, Some(Interrupted));
        }
      }
    }
  }
}
