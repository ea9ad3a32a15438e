/** What a repair campaign comes to when somebody keeps ticking: every tick takes it a step further, and it ends as its verdicts
    say. */
module RepairTicks {
  import opened Basics
  import opened Repair
  import opened RepairRuns

  // ---------- One uninterrupted tick on the present rows ----------

  predicate Numbered(attempts: seq<Attempt>) { forall k :: 0 <= k < |attempts| ==> attempts[k].ordinal == k + 1 }

  /** The last attempt was verified with this outcome, under this token. */
  predicate VerifiedAs(c: Campaign, c': Campaign, outcome: Outcome, token: Option<Token>, count: nat)
    requires c.attempts != []
  {
    var n := |c.attempts|;
    && c'.limit == c.limit
    && c'.attempts == c.attempts[n - 1 := Attempt(n, Verified, count, token, Some(outcome))]
    && c'.state == (match outcome case RegressionFixed => ReadyForReview case CandidateFailed => Active case _ => Inconclusive)
  }

  /** The last attempt waits for an operator. */
  predicate GivenUp(c: Campaign, c': Campaign, token: Option<Token>, count: nat)
    requires c.attempts != []
  {
    var n := |c.attempts|;
    c' == c.(attempts := c.attempts[n - 1 := Attempt(n, Blocked, count, token, Some(Interrupted))])
  }

  /** A new attempt if the limit allows one more, and otherwise the end. */
  predicate GoesOn(c: Campaign, c': Campaign) {
    if |c.attempts| < c.limit then c' == c.(attempts := c.attempts + [Attempt(|c.attempts| + 1, Generating, 0, None, None)])
    else c' == c.(state := Exhausted)
  }

  /** What each tick must come to, by where the last attempt stands. */
  predicate TickDue(c: Campaign, recovered: Option<Outcome>, expired: bool, uid: Token, verdict: Option<Outcome>, c': Campaign) {
    if c.state != Active then c' == c
    else if c.attempts == [] then GoesOn(c, c')
    else
      var n := |c.attempts|;
      var last := c.attempts[n - 1];
      match last.phase
      case Generating => c' == c.(attempts := c.attempts[n - 1 := last.(phase := Generated)])
      case Generated =>
        if last.count >= 3 then c' == c
        else if verdict.Some? then VerifiedAs(c, c', verdict.value, Some(uid), last.count + 1)
        else GivenUp(c, c', Some(uid), last.count + 1)
      case Verifying =>
        if last.token.Some? && recovered.Some? then VerifiedAs(c, c', recovered.value, last.token, last.count)
        else if expired then GivenUp(c, c', last.token, last.count)
        else c' == c
      case Blocked =>
        if last.token.Some? && recovered.Some? && last.outcome == Some(Interrupted)
        then VerifiedAs(c, c', recovered.value, last.token, last.count) else c' == c
      case Verified =>
        match last.outcome
        case Some(CandidateFailed) => GoesOn(c, c')
        case Some(RegressionFixed) => c' == c.(state := ReadyForReview)
        case _ => c' == c.(state := Inconclusive)
  }

  lemma Overwrites(attempts: seq<Attempt>, first: Attempt, second: Attempt)
    requires attempts != []
    ensures attempts[|attempts| - 1 := first][|attempts| - 1 := second] == attempts[|attempts| - 1 := second]
  {
  }

  /** An outcome recorded on the last attempt. */
  lemma ConcludeDue(c: Campaign, token: Option<Token>, outcome: Outcome)
    requires c.attempts != [] && Numbered(c.attempts) && c.state == Active
    requires Carries(c, |c.attempts| - 1, Verifying, token)
    ensures VerifiedAs(c, ConcludeTx(c, |c.attempts| - 1, token, outcome), outcome, token, c.attempts[|c.attempts| - 1].count)
  {
  }

  lemma LaunchDue(c: Campaign, uid: Token, verdict: Option<Outcome>)
    requires c.attempts != [] && Numbered(c.attempts) && c.state == Active && Has(c, |c.attempts| - 1, Generated)
    ensures var n := |c.attempts|;
      var c', count := TickTx(c, Launch(n - 1), uid, verdict), c.attempts[n - 1].count;
      if count >= 3 then c' == c
      else if verdict.Some? then VerifiedAs(c, c', verdict.value, Some(uid), count + 1)
      else GivenUp(c, c', Some(uid), count + 1)
  {
    var n := |c.attempts|;
    if c.attempts[n - 1].count < 3 {
      var started := StartTx(c, n - 1, uid);
      if verdict.Some? { ConcludeDue(started, Some(uid), verdict.value); }
      hide ConcludeTx;
      var last := started.attempts[n - 1];
      var outcome := if verdict.Some? then verdict.value else Interrupted;
      Overwrites(c.attempts, last, Attempt(n, if verdict.Some? then Verified else Blocked, last.count, Some(uid), Some(outcome)));
    }
  }

  lemma ReopenDue(c: Campaign, token: Option<Token>, outcome: Outcome, uid: Token, verdict: Option<Outcome>)
    requires c.attempts != [] && Numbered(c.attempts) && c.state == Active && Carries(c, |c.attempts| - 1, Blocked, token)
    ensures var n := |c.attempts|;
      VerifiedAs(c, TickTx(c, Reopen(n - 1, token, outcome), uid, verdict), outcome, token, c.attempts[n - 1].count)
  {
    var n := |c.attempts|;
    var reopened := ReopenTx(c, n - 1, token);
    ConcludeDue(reopened, token, outcome);
    hide ConcludeTx;
    Overwrites(c.attempts, reopened.attempts[n - 1], Attempt(n, Verified, c.attempts[n - 1].count, token, Some(outcome)));
  }

  lemma VerifyingDue(c: Campaign, recovered: Option<Outcome>, expired: bool, uid: Token, verdict: Option<Outcome>)
    requires c.attempts != [] && Numbered(c.attempts) && c.state == Active && Has(c, |c.attempts| - 1, Verifying)
    ensures var n := |c.attempts|;
      var last := c.attempts[n - 1];
      && (recovered.Some? ==>
            VerifiedAs(c, TickTx(c, Accept(n - 1, last.token, recovered.value), uid, verdict), recovered.value, last.token, last.count))
      && GivenUp(c, TickTx(c, Block(n - 1, last.token), uid, verdict), last.token, last.count)
  {
    if recovered.Some? { ConcludeDue(c, c.attempts[|c.attempts| - 1].token, recovered.value); }
    hide ConcludeTx;
  }

  lemma NextDue(c: Campaign)
    requires Numbered(c.attempts) && c.state == Active
    ensures if |c.attempts| < c.limit then GoesOn(c, CreateTx(c, |c.attempts| + 1)) else GoesOn(c, EndTx(c, Exhausted))
  {
  }

  /** The plan looks at the last attempt. */
  lemma PlanIs(c: Campaign, recovered: Option<Outcome>, expired: bool)
    requires Numbered(c.attempts) && c.state == Active && c.attempts != []
    ensures var n, plan := |c.attempts|, PlanOf(c, recovered, expired);
      var last := c.attempts[n - 1];
      match last.phase
      case Generating => plan == Propose(n - 1)
      case Generated => plan == Launch(n - 1)
      case Verifying => plan == (if last.token.Some? && recovered.Some? then Accept(n - 1, last.token, recovered.value)
                                 else if expired then Block(n - 1, last.token) else Wait)
      case Blocked => plan == (if last.token.Some? && recovered.Some? && last.outcome == Some(Interrupted)
                               then Reopen(n - 1, last.token, recovered.value) else Wait)
      case Verified =>
        plan == (match last.outcome
                 case Some(CandidateFailed) => if n < c.limit then Create(n + 1) else EndAs(Exhausted)
                 case Some(RegressionFixed) => EndAs(ReadyForReview)
                 case _ => EndAs(Inconclusive))
  {
    NewestIsLast(c.attempts);
    hide Newest;
  }

  /** Every tick does what is due, and what is due says where the campaign stands afterwards. */
  lemma TickExactly(c: Campaign, recovered: Option<Outcome>, expired: bool, uid: Token, verdict: Option<Outcome>)
    requires Numbered(c.attempts)
    ensures TickDue(c, recovered, expired, uid, verdict, TickTx(c, PlanOf(c, recovered, expired), uid, verdict))
  {
    if c.state == Active {
      NextDue(c);
      if c.attempts == [] {
        hide CreateTx, ConcludeTx, VerifiedAs, GivenUp, GoesOn;
      } else {
        PlanIs(c, recovered, expired);
        hide PlanOf, CreateTx, GoesOn;
        var n := |c.attempts|;
        var last := c.attempts[n - 1];
        match last.phase
        case Generated => LaunchDue(c, uid, verdict);
        case Verifying => VerifyingDue(c, recovered, expired, uid, verdict);
        case Blocked => if recovered.Some? { ReopenDue(c, last.token, recovered.value, uid, verdict); }
        case _ =>
      }
    }
  }

  /** An operator may repeat an interrupted verification of an active campaign, up to three in all; the patch stays. */
  lemma RetryExactly(c: Campaign, id: nat)
    ensures var may := c.state == Active && id < |c.attempts| && c.attempts[id].phase == Blocked
                       && c.attempts[id].outcome == Some(Interrupted) && c.attempts[id].count < 3;
      RetryTx(c, id) ==
      if may then c.(attempts := c.attempts[id := Attempt(c.attempts[id].ordinal, Generated, c.attempts[id].count, None, None)]) else c
  {
  }

  // ---------- A whole campaign ----------

  /** A campaign that is ticked again and again; attempt `n` gets the verdict `verdicts(n)`. */
  function Ticked(limit: nat, verdicts: nat -> Outcome, uids: nat -> Token, ticks: nat): Campaign {
    if ticks == 0 then Campaign(limit, Active, [])
    else
      var c := Ticked(limit, verdicts, uids, ticks - 1);
      TickTx(c, PlanOf(c, None, false), uids(ticks), Some(verdicts(|c.attempts|)))
  }

  predicate AllFailed(verdicts: nat -> Outcome, n: nat) { forall k :: 1 <= k <= n ==> verdicts(k) == CandidateFailed }

  /** Where a campaign stands whose first `n` candidates failed. */
  predicate StandsAt(c: Campaign, limit: nat, n: nat) {
    && c.limit == limit && c.state == Active && |c.attempts| == n && Numbered(c.attempts)
    && (n > 0 ==> c.attempts[n - 1].phase == Verified && c.attempts[n - 1].outcome == Some(CandidateFailed))
  }

  /** Three ticks make an attempt, a patch and a verdict. */
  lemma ThreeTicks(c: Campaign, limit: nat, n: nat, verdict: Outcome, a: Token, b: Token, uid: Token, other: Outcome)
    requires StandsAt(c, limit, n) && n < limit
    ensures var c1 := TickTx(c, PlanOf(c, None, false), a, Some(other));
      var c2 := TickTx(c1, PlanOf(c1, None, false), b, Some(verdict));
      var c3 := TickTx(c2, PlanOf(c2, None, false), uid, Some(verdict));
      && |c1.attempts| == |c2.attempts| == |c3.attempts| == n + 1
      && c3.limit == limit && Numbered(c3.attempts)
      && c3.attempts[n] == Attempt(n + 1, Verified, 1, Some(uid), Some(verdict))
      && c3.state == (match verdict case RegressionFixed => ReadyForReview case CandidateFailed => Active case _ => Inconclusive)
  {
    var c1 := TickTx(c, PlanOf(c, None, false), a, Some(other));
    var c2 := TickTx(c1, PlanOf(c1, None, false), b, Some(verdict));
    hide TickTx, PlanOf;
    TickCreates(c, limit, n, a, Some(other));
    TickPatches(c1, n, b, Some(verdict));
    TickVerifies(c2, n, uid, verdict);
  }

  lemma TickCreates(c: Campaign, limit: nat, n: nat, uid: Token, verdict: Option<Outcome>)
    requires StandsAt(c, limit, n) && n < limit
    ensures TickTx(c, PlanOf(c, None, false), uid, verdict) ==
            c.(attempts := c.attempts + [Attempt(n + 1, Generating, 0, None, None)])
  {
    TickExactly(c, None, false, uid, verdict);
    hide TickTx, PlanOf;
  }

  lemma TickPatches(c: Campaign, n: nat, uid: Token, verdict: Option<Outcome>)
    requires c.state == Active && Numbered(c.attempts) && |c.attempts| == n + 1
    requires c.attempts[n] == Attempt(n + 1, Generating, 0, None, None)
    ensures TickTx(c, PlanOf(c, None, false), uid, verdict) ==
            c.(attempts := c.attempts[n := Attempt(n + 1, Generated, 0, None, None)])
  {
    TickExactly(c, None, false, uid, verdict);
    hide TickTx, PlanOf;
  }

  lemma TickVerifies(c: Campaign, n: nat, uid: Token, verdict: Outcome)
    requires c.state == Active && Numbered(c.attempts) && |c.attempts| == n + 1
    requires c.attempts[n] == Attempt(n + 1, Generated, 0, None, None)
    ensures VerifiedAs(c, TickTx(c, PlanOf(c, None, false), uid, Some(verdict)), verdict, Some(uid), 1)
  {
    TickExactly(c, None, false, uid, Some(verdict));
    hide TickTx, PlanOf;
  }

  lemma TicksAdd(limit: nat, verdicts: nat -> Outcome, uids: nat -> Token, ticks: nat, n: nat)
    requires StandsAt(Ticked(limit, verdicts, uids, ticks), limit, n) && n < limit
    ensures var c := Ticked(limit, verdicts, uids, ticks + 3);
      && |c.attempts| == n + 1 && c.limit == limit && Numbered(c.attempts)
      && c.attempts[n] == Attempt(n + 1, Verified, 1, Some(uids(ticks + 3)), Some(verdicts(n + 1)))
      && c.state == (match verdicts(n + 1) case RegressionFixed => ReadyForReview case CandidateFailed => Active case _ => Inconclusive)
  {
    var c := Ticked(limit, verdicts, uids, ticks);
    ThreeTicks(c, limit, n, verdicts(n + 1), uids(ticks + 1), uids(ticks + 2), uids(ticks + 3), verdicts(n));
    hide TickTx, PlanOf, StandsAt, Numbered;
    assert Ticked(limit, verdicts, uids, ticks + 1) == TickTx(c, PlanOf(c, None, false), uids(ticks + 1), Some(verdicts(|c.attempts|)));
  }

  lemma {:induction false} FailedSoFar(limit: nat, verdicts: nat -> Outcome, uids: nat -> Token, n: nat)
    requires n <= limit && AllFailed(verdicts, n)
    ensures StandsAt(Ticked(limit, verdicts, uids, 3 * n), limit, n)
  {
    hide TickTx, PlanOf;
    if n > 0 {
      FailedSoFar(limit, verdicts, uids, n - 1);
      hide Ticked;
      TicksAdd(limit, verdicts, uids, 3 * (n - 1), n - 1);
      assert 3 * (n - 1) + 3 == 3 * n;
    }
  }

  /** The campaign ends with its first candidate that did not fail: it is offered for review if the regression is fixed, and is
      inconclusive otherwise. */
  lemma EndsWithItsCandidate(limit: nat, verdicts: nat -> Outcome, uids: nat -> Token, n: nat)
    requires n < limit && AllFailed(verdicts, n) && verdicts(n + 1) != CandidateFailed
    ensures var c := Ticked(limit, verdicts, uids, 3 * n + 3);
      && |c.attempts| == n + 1
      && c.state == (if verdicts(n + 1) == RegressionFixed then ReadyForReview else Inconclusive)
  {
    hide TickTx, PlanOf, Ticked;
    FailedSoFar(limit, verdicts, uids, n);
    TicksAdd(limit, verdicts, uids, 3 * n, n);
  }

  /** And if every candidate fails it is exhausted, one tick after the last. */
  lemma EndsExhausted(limit: nat, verdicts: nat -> Outcome, uids: nat -> Token)
    requires AllFailed(verdicts, limit)
    ensures var c := Ticked(limit, verdicts, uids, 3 * limit + 1); |c.attempts| == limit && c.state == Exhausted
  {
    FailedSoFar(limit, verdicts, uids, limit);
    var c := Ticked(limit, verdicts, uids, 3 * limit);
    TickExactly(c, None, false, uids(3 * limit + 1), Some(verdicts(|c.attempts|)));
    hide TickTx, PlanOf;
  }

  // ---------- No attempt is stuck ----------

  predicate MayStart(c: Campaign) {
    forall k :: 0 <= k < |c.attempts| && c.attempts[k].phase == Generated ==> c.attempts[k].count < 3
  }

  lemma StepMayStart(w: World, s: Step)
    requires Sound(w) && MayStart(w.rows)
    ensures MayStart(Next(w, s).rows)
  {
    if Enabled(w, s) {
      var e := StepEffect(w, s);
      var c, c' := w.rows, Rows(w, s);
      forall k | 0 <= k < |c'.attempts| && c'.attempts[k].phase == Generated ensures c'.attempts[k].count < 3 {
        if k < |c.attempts| && e == Moved(k) { assert Moves(c.attempts[k], c'.attempts[k]); }
        if k < |c.attempts| { assert AttemptSound(c.attempts[k], w.issued, w.reports); }
      }
    }
  }

  /** Over every run, an attempt that has its patch can still be verified. */
  lemma {:induction false} GeneratedCanStart(limit: nat, steps: seq<Step>)
    ensures MayStart(Run(Start(limit), steps).rows)
  {
    if steps != [] {
      var init := steps[..|steps| - 1];
      GeneratedCanStart(limit, init);
      RunSound(limit, init);
      hide Sound, Next, MayStart;
      StepMayStart(Run(Start(limit), init), steps[|steps| - 1]);
    }
  }
}
