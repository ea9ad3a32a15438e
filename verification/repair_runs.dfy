/** Whole runs of the repair loop: workers act on rows they read at any earlier time, and stop anywhere. */
module RepairRuns {
  import opened Basics
  import opened Repair

  datatype Report = Report(token: Token, outcome: Outcome)

  /** The rows and the stored reports at one time. */
  datatype Moment = Moment(rows: Campaign, reports: set<Report>)

  /** `past` holds every moment so far, the present one last: any of them may be what a worker still has in hand. `launching`
      are the tokens whose workers neither recorded an outcome nor gave up. */
  datatype World = World(rows: Campaign, past: seq<Moment>, issued: set<Token>, reports: set<Report>, launching: set<Token>)

  /** A tick on rows read at moment `seen` and reports looked for at moment `looked`; a verifier finishing a container; a worker
      recording what a stored report says; the worker of a verification giving up on it; an operator's retry; a change from
      outside. */
  datatype Step =
    | Tick(seen: nat, looked: nat, recovered: Option<Outcome>, expired: bool, uid: Token)
    | FileReport(token: Token, outcome: Outcome)
    | Record(id: nat, token: Token, outcome: Outcome)
    | Interrupt(id: nat, token: Token)
    | Retry(id: nat)
    | Change(state: State)

  predicate Reported(reports: set<Report>, token: Token) { exists r :: r in reports && r.token == token }

  /** What looking for the report of the newest attempt finds. */
  predicate Found(c: Campaign, reports: set<Report>, recovered: Option<Outcome>) {
    var newest := Newest(c.attempts);
    if newest.None? || c.attempts[newest.value].token.None? then recovered.None?
    else
      var token := c.attempts[newest.value].token.value;
      if recovered.Some? then Report(token, recovered.value) in reports else !Reported(reports, token)
  }

  predicate Planned(w: World, s: Step)
    requires s.Tick?
  {
    s.seen <= s.looked < |w.past| && Found(w.past[s.seen].rows, w.past[s.looked].reports, s.recovered)
  }

  function PlanFor(w: World, s: Step): Plan
    requires s.Tick? && Planned(w, s)
  {
    PlanOf(w.past[s.seen].rows, s.recovered, s.expired)
  }

  /** A new token was never used; only the worker of a verification gives up on it, and only once. */
  predicate Enabled(w: World, s: Step) {
    match s
    case Tick(_, _, _, _, uid) => Planned(w, s) && (PlanFor(w, s).Launch? ==> uid !in w.issued)
    case FileReport(token, outcome) => token in w.issued && outcome != Interrupted
    case Record(_, token, outcome) => Report(token, outcome) in w.reports
    case Interrupt(_, token) => token in w.launching
    case Retry(_) => true
    case Change(state) => state == InputChanged || state == EvidenceChanged
  }

  function Rows(w: World, s: Step): Campaign
    requires Enabled(w, s)
  {
    match s
    case Tick(_, _, _, _, uid) => Act(w.rows, PlanFor(w, s), uid)
    case FileReport(_, _) => w.rows
    case Record(id, token, outcome) => VerifiedTx(w.rows, id, Some(token), outcome)
    case Interrupt(id, token) => BlockTx(w.rows, id, Some(token))
    case Retry(id) => RetryTx(w.rows, id)
    case Change(state) => ChangeTx(w.rows, state)
  }

  predicate Launches(w: World, s: Step) {
    s.Tick? && Enabled(w, s) && PlanFor(w, s).Launch? && Rows(w, s) != w.rows
  }

  function Reports(w: World, s: Step): set<Report> { if s.FileReport? then w.reports + {Report(s.token, s.outcome)} else w.reports }

  function Next(w: World, s: Step): World {
    if !Enabled(w, s) then w
    else
      World(Rows(w, s),
            w.past + [Moment(Rows(w, s), Reports(w, s))],
            if Launches(w, s) then w.issued + {s.uid} else w.issued,
            Reports(w, s),
            if Launches(w, s) then w.launching + {s.uid} else if s.Interrupt? then w.launching - {s.token} else w.launching)
  }

  function Run(w: World, steps: seq<Step>): World {
    if steps == [] then w else Next(Run(w, steps[..|steps| - 1]), steps[|steps| - 1])
  }

  function Start(limit: nat): World {
    var rows := Campaign(limit, Active, []);
    World(rows, [Moment(rows, {})], {}, {}, {})
  }

  // ---------- The invariant ----------

  predicate FailedCandidate(a: Attempt) { a.phase == Verified && a.outcome == Some(CandidateFailed) }

  predicate AttemptSound(a: Attempt, issued: set<Token>, reports: set<Report>) {
    && a.count <= VERIFICATIONS
    && (a.token.Some? ==> a.token.value in issued)
    && match a.phase
       case Generating => a.count == 0 && a.token.None? && a.outcome.None?
       case Generated => a.token.None? && a.outcome.None?
       case Verifying =>
         && a.token.Some? && a.count > 0
         && (a.outcome.None? || (a.outcome == Some(Interrupted) && Reported(reports, a.token.value)))
       case Blocked => a.token.Some? && a.outcome == Some(Interrupted) && a.count > 0
       case Verified => a.token.Some? && a.outcome.Some? && Report(a.token.value, a.outcome.value) in reports && a.count > 0
  }

  predicate EndSound(c: Campaign) {
    match c.state
    case Active => true
    case InputChanged => true
    case EvidenceChanged => true
    case ReadyForReview => c.attempts != [] && Final(c).phase == Verified && Final(c).outcome == Some(RegressionFixed)
    case Inconclusive =>
      c.attempts != [] && Final(c).phase == Verified && Final(c).outcome != Some(RegressionFixed) && !FailedCandidate(Final(c))
    case Exhausted => |c.attempts| == c.limit && (c.attempts != [] ==> FailedCandidate(Final(c)))
  }

  function Final(c: Campaign): Attempt
    requires c.attempts != []
  {
    c.attempts[|c.attempts| - 1]
  }

  predicate Shaped(c: Campaign) {
    && |c.attempts| <= c.limit
    && (forall k :: 0 <= k < |c.attempts| ==> c.attempts[k].ordinal == k + 1)
    && (forall k :: 0 <= k < |c.attempts| - 1 ==> FailedCandidate(c.attempts[k]))
    && EndSound(c)
  }

  /** What later rows owe to earlier ones. */
  predicate Evolves(c: Campaign, c': Campaign) {
    && c'.limit == c.limit
    && |c.attempts| <= |c'.attempts|
    && (forall k :: 0 <= k < |c.attempts| && c.attempts[k].phase == Verified ==> c'.attempts[k] == c.attempts[k])
    && (c.state != Active ==> c'.state != Active)
  }

  predicate TokensDistinct(attempts: seq<Attempt>) {
    forall j, k :: 0 <= j < k < |attempts| && attempts[j].token.Some? ==> attempts[j].token != attempts[k].token
  }

  predicate RowsSound(w: World) {
    && Shaped(w.rows)
    && (forall k :: 0 <= k < |w.rows.attempts| ==> AttemptSound(w.rows.attempts[k], w.issued, w.reports))
    && TokensDistinct(w.rows.attempts)
  }

  predicate PastSound(w: World) {
    forall k :: 0 <= k < |w.past| ==>
      Shaped(w.past[k].rows) && Evolves(w.past[k].rows, w.rows) && w.past[k].reports <= w.reports
  }

  predicate ReportsSound(w: World) {
    (forall r :: r in w.reports ==> r.token in w.issued && r.outcome != Interrupted) && w.launching <= w.issued
  }

  predicate Sound(w: World) { RowsSound(w) && PastSound(w) && ReportsSound(w) }

  lemma {:induction false} NewestIsLast(attempts: seq<Attempt>)
    requires forall k :: 0 <= k < |attempts| ==> attempts[k].ordinal == k + 1
    ensures Newest(attempts) == if attempts == [] then None else Some(|attempts| - 1)
  {
    if attempts != [] {
      assert attempts[Newest(attempts).value].ordinal >= attempts[|attempts| - 1].ordinal;
    }
  }

  // ---------- One attempt moves ----------

  /** The moves an attempt may make. */
  predicate Moves(a: Attempt, a': Attempt) {
    && a'.ordinal == a.ordinal
    && a.phase != Verified
    && match a'.phase
       case Generating => false
       case Generated =>
         || (a.phase == Generating && a' == a.(phase := Generated))
         || (a.phase == Blocked && a' == a.(phase := Generated, outcome := None, token := None) && a.count < VERIFICATIONS)
       case Verifying =>
         || (a.phase == Generated && a' == a.(phase := Verifying, token := a'.token, count := a.count + 1) && a.count < VERIFICATIONS)
         || (a.phase == Blocked && a' == a.(phase := Verifying))
       case Blocked => a.phase == Verifying && a' == a.(phase := Blocked, outcome := Some(Interrupted))
       case Verified => a.phase == Verifying && a' == a.(phase := Verified, outcome := a'.outcome)
  }

  /** What one step does to the rows. */
  datatype Effect = Nothing | Appended | Moved(id: nat) | Ended

  predicate Does(c: Campaign, c': Campaign, e: Effect) {
    match e
    case Nothing => c' == c
    case Appended =>
      && (c.attempts != [] ==> FailedCandidate(Final(c)))
      && |c.attempts| < c.limit
      && c' == c.(attempts := c.attempts + [Attempt(|c.attempts| + 1, Generating, 0, None, None)])
    case Moved(id) => id < |c.attempts| == |c'.attempts| && Moves(c.attempts[id], c'.attempts[id]) && c' == With(c, id, c'.attempts[id])
    case Ended => c' == c.(state := c'.state) && c'.state != Active && EndSound(c') && (c.state == Active || c'.state == InputChanged || c'.state == EvidenceChanged)
  }

  /** A stale plan to append or to end is still right: what it saw verified stays verified. */
  lemma TickEffect(w: World, s: Step) returns (e: Effect)
    requires Sound(w) && Enabled(w, s) && s.Tick?
    ensures Does(w.rows, Rows(w, s), e)
  {
    var seen := w.past[s.seen].rows;
    var c, c' := w.rows, Rows(w, s);
    assert Shaped(seen) && Evolves(seen, c);
    NewestIsLast(seen.attempts);
    var plan := PlanFor(w, s);
    match plan
    case Wait => e := Nothing;
    case EndAs(state) =>
      if c.state == Active {
        EndIsRight(seen, c, s.recovered, s.expired);
        e := Ended;
      } else {
        e := Nothing;
      }
    case Create(ordinal) => e := CreateEffect(seen, c, ordinal);
    case _ =>
      hide Shaped, Evolves, PlanOf, PlanFor;
      e := MoveEffect(c, plan, s.uid);
  }

  lemma MoveEffect(c: Campaign, plan: Plan, uid: Token) returns (e: Effect)
    requires !plan.Wait? && !plan.EndAs? && !plan.Create?
    ensures Does(c, Act(c, plan, uid), e)
  {
    e := if Act(c, plan, uid) == c then Nothing else Moved(plan.id);
  }

  lemma EndIsRight(seen: Campaign, c: Campaign, recovered: Option<Outcome>, expired: bool)
    requires Shaped(seen) && Shaped(c) && Evolves(seen, c) && PlanOf(seen, recovered, expired).EndAs?
    ensures var state := PlanOf(seen, recovered, expired).state; state != Active && EndSound(c.(state := state))
  {
    NewestIsLast(seen.attempts);
  }

  lemma CreateEffect(seen: Campaign, c: Campaign, ordinal: nat) returns (e: Effect)
    requires Shaped(seen) && Shaped(c) && Evolves(seen, c)
    requires ordinal == |seen.attempts| + 1 <= c.limit && (seen.attempts != [] ==> FailedCandidate(Final(seen)))
    ensures Does(c, CreateTx(c, ordinal), e)
  {
    if |c.attempts| >= ordinal {
      assert c.attempts[ordinal - 1].ordinal == ordinal;
      e := Nothing;
    } else {
      e := Appended;
    }
  }

  lemma StepEffect(w: World, s: Step) returns (e: Effect)
    requires Sound(w) && Enabled(w, s)
    ensures Does(w.rows, Rows(w, s), e)
  {
    match s
    case Tick(_, _, _, _, _) => e := TickEffect(w, s);
    case FileReport(_, _) => e := Nothing;
    case Record(id, _, _) => e := if Rows(w, s) == w.rows then Nothing else Moved(id);
    case Interrupt(id, _) => e := if Rows(w, s) == w.rows then Nothing else Moved(id);
    case Retry(id) => e := if Rows(w, s) == w.rows then Nothing else Moved(id);
    case Change(_) => e := Ended;
  }

  lemma EffectShaped(c: Campaign, c': Campaign, e: Effect)
    requires Shaped(c) && Does(c, c', e)
    ensures Shaped(c') && Evolves(c, c')
  {
  }

  lemma EvolvesOn(a: Campaign, b: Campaign, c: Campaign)
    requires Evolves(a, b) && Evolves(b, c)
    ensures Evolves(a, c)
  {
  }

  /** A recovered plan is backed by a stored report. */
  lemma FoundReports(w: World, s: Step)
    requires Sound(w) && Enabled(w, s) && s.Tick?
    ensures var plan := PlanFor(w, s);
      plan.Reopen? || plan.Accept? ==> plan.token.Some? && Report(plan.token.value, plan.outcome) in w.reports
  {
    hide Shaped, Evolves;
  }

  lemma AttemptGrows(a: Attempt, w: World, w': World)
    requires AttemptSound(a, w.issued, w.reports) && w.issued <= w'.issued && w.reports <= w'.reports
    ensures AttemptSound(a, w'.issued, w'.reports)
  {
  }

  /** What stands behind a move: a fresh token, a stored report, or nothing. */
  predicate Backed(w: World, s: Step, a: Attempt, a': Attempt) {
    && (a.phase == Generated && a'.phase == Verifying ==> Launches(w, s) && a'.token == Some(s.uid))
    && (a.phase == Blocked && a'.phase == Verifying ==> a.token.Some? && Reported(w.reports, a.token.value))
    && (a'.phase == Verified ==> a.token.Some? && a'.outcome.Some? && Report(a.token.value, a'.outcome.value) in w.reports)
  }

  lemma MoveBacked(w: World, s: Step, k: nat)
    requires Sound(w) && Enabled(w, s) && k < |w.rows.attempts| && k < |Rows(w, s).attempts|
    requires Rows(w, s).attempts[k] != w.rows.attempts[k]
    ensures Backed(w, s, w.rows.attempts[k], Rows(w, s).attempts[k])
  {
    hide Sound, Found, PlanOf, Newest, PlanFor, Planned;
    if s.Tick? {
      FoundReports(w, s);
      PlanMoves(w.rows, PlanFor(w, s), s.uid, k);
      hide Act;
    }
  }

  /** Which plan makes which move. */
  lemma PlanMoves(c: Campaign, plan: Plan, uid: Token, k: nat)
    requires k < |c.attempts| && k < |Act(c, plan, uid).attempts| && Act(c, plan, uid).attempts[k] != c.attempts[k]
    ensures var a, a' := c.attempts[k], Act(c, plan, uid).attempts[k];
      match plan
      case Propose(_) => a'.phase == Generated
      case Launch(_) => a.phase == Generated && a'.token == Some(uid) && a'.phase == Verifying
      case Block(_, _) => a'.phase == Blocked
      case Reopen(_, token, _) => a.phase == Blocked && a.token == token && a'.phase == Verifying
      case Accept(_, token, outcome) => a.phase == Verifying && a.token == token && a'.phase == Verified && a'.outcome == Some(outcome)
      case _ => false
  {
  }

  lemma MovedSound(w: World, s: Step, a: Attempt, a': Attempt)
    requires AttemptSound(a, w.issued, w.reports) && Moves(a, a') && Backed(w, s, a, a')
    ensures var w' := Next(w, s); AttemptSound(a', w'.issued, w'.reports)
    ensures a'.token == a.token || a'.token.None? || (Launches(w, s) && a'.token == Some(s.uid))
  {
    hide Rows, PlanFor, Planned;
  }

  lemma ChangedAttempt(w: World, s: Step, e: Effect, k: nat)
    requires Sound(w) && Enabled(w, s) && Does(w.rows, Rows(w, s), e) && k < |w.rows.attempts|
    ensures k < |Rows(w, s).attempts|
    ensures var a, a' := w.rows.attempts[k], Rows(w, s).attempts[k]; a' == a || (Moves(a, a') && Backed(w, s, a, a'))
  {
    if k < |Rows(w, s).attempts| && Rows(w, s).attempts[k] != w.rows.attempts[k] { MoveBacked(w, s, k); }
    hide Sound, Moves, Backed, Rows;
  }

  /** The attempts of the new rows carry what their phase asks for. */
  lemma AttemptsSound(w: World, s: Step)
    requires Sound(w) && Enabled(w, s)
    ensures var w' := Next(w, s);
      && (forall k :: 0 <= k < |w'.rows.attempts| ==> AttemptSound(w'.rows.attempts[k], w'.issued, w'.reports))
      && TokensDistinct(w'.rows.attempts)
  {
    var w' := Next(w, s);
    var e := StepEffect(w, s);
    var before, after := w.rows.attempts, w'.rows.attempts;
    assert forall k :: |before| <= k < |after| ==> after[k].token.None? && AttemptSound(after[k], w'.issued, w'.reports);
    forall k | 0 <= k < |before|
      ensures AttemptSound(before[k], w.issued, w.reports) && AttemptSound(after[k], w'.issued, w'.reports)
      ensures after[k].token == before[k].token || after[k].token.None? || (Launches(w, s) && after[k].token == Some(s.uid))
    {
      ChangedAttempt(w, s, e, k);
      if after[k] == before[k] { AttemptGrows(after[k], w, w'); } else { MovedSound(w, s, before[k], after[k]); }
    }
    if Launches(w, s) { LaunchedIsNew(w, s); }
    hide Sound, Rows, Enabled, Launches, Does, Reports;
    forall j, k | 0 <= j < k < |after| && after[j].token.Some? ensures after[j].token != after[k].token {
      if k < |before| { assert before[j].token.Some? ==> before[j].token != before[k].token; }
    }
  }

  /** A launch changes one attempt and uses a token no attempt carries. */
  lemma LaunchedIsNew(w: World, s: Step)
    requires Sound(w) && Launches(w, s)
    ensures s.uid !in w.issued
    ensures forall j, k :: 0 <= j < k < |w.rows.attempts| ==>
              Rows(w, s).attempts[j] == w.rows.attempts[j] || Rows(w, s).attempts[k] == w.rows.attempts[k]
  {
    hide PlanOf, Newest, Found, Shaped;
  }

  lemma StepSound(w: World, s: Step)
    requires Sound(w)
    ensures Sound(Next(w, s))
  {
    if Enabled(w, s) {
      var w' := Next(w, s);
      var e := StepEffect(w, s);
      EffectShaped(w.rows, w'.rows, e);
      AttemptsSound(w, s);
      hide Shaped, Evolves, AttemptSound, TokensDistinct, Does, Rows;
      forall k | 0 <= k < |w'.past|
        ensures Shaped(w'.past[k].rows) && Evolves(w'.past[k].rows, w'.rows) && w'.past[k].reports <= w'.reports
      {
        if k < |w.past| { EvolvesOn(w.past[k].rows, w.rows, w'.rows); } else { EvolvesSelf(w'.rows); }
      }
    }
  }

  lemma EvolvesSelf(c: Campaign)
    ensures Evolves(c, c)
  {
  }

  lemma {:induction false} RunSound(limit: nat, steps: seq<Step>)
    ensures Sound(Run(Start(limit), steps)) && Run(Start(limit), steps).rows.limit == limit
  {
    if steps != [] {
      var w := Run(Start(limit), steps[..|steps| - 1]);
      RunSound(limit, steps[..|steps| - 1]);
      StepSound(w, steps[|steps| - 1]);
      if Enabled(w, steps[|steps| - 1]) { var e := StepEffect(w, steps[|steps| - 1]); }
    }
  }

  // ---------- How long a campaign can last ----------

  /** An interrupted verification that was taken up again: its report is stored. */
  predicate Reopened(a: Attempt) { a.phase == Verifying && a.outcome == Some(Interrupted) }

  function Rank(a: Attempt): nat {
    match a.phase
    case Generating => 1
    case Generated => 0
    case Verifying => if Reopened(a) then 0 else 2
    case Blocked => 1
    case Verified => 0
  }

  /** What an attempt may still do: become verified, start verifications, and move between those. */
  function Left(a: Attempt): nat {
    (if a.phase == Verified then 0 else 1) + (if a.count < VERIFICATIONS then 3 * (VERIFICATIONS - a.count) else 0) + Rank(a)
  }

  function Weight(c: Campaign): int {
    (if c.state == Active then 1 else 0) + 12 * (c.limit - |c.attempts|) + if c.attempts == [] then 0 else Left(Final(c))
  }

  function Total(attempts: seq<Attempt>): nat {
    if attempts == [] then 0 else Total(attempts[..|attempts| - 1]) + attempts[|attempts| - 1].count
  }

  /** A step of the campaign itself that changed the rows. */
  predicate Changes(w: World, s: Step) { Enabled(w, s) && !s.Change? && Rows(w, s) != w.rows }

  /** A worker that found the report of an interrupted verification takes the attempt up again. */
  predicate Reopens(w: World, s: Step) { s.Tick? && Changes(w, s) && PlanFor(w, s).Reopen? }

  /** A reopened attempt is interrupted once more before its report was recorded. */
  predicate Relapses(w: World, s: Step) {
    Changes(w, s) && exists id :: 0 <= id < |w.rows.attempts| && id < |Rows(w, s).attempts|
                                  && Reopened(w.rows.attempts[id]) && Rows(w, s).attempts[id].phase == Blocked
  }

  /** A tick that gives up on an attempt because it looked for the report before the report was stored. */
  predicate Late(w: World, s: Step) {
    && s.Tick? && Changes(w, s) && PlanFor(w, s).Block? && PlanFor(w, s).token.Some?
    && !Reported(w.past[s.looked].reports, PlanFor(w, s).token.value)
    && Reported(w.reports, PlanFor(w, s).token.value)
  }

  function One(b: bool): nat { if b then 1 else 0 }

  /** How many steps of a run are of a kind. */
  function Count(limit: nat, steps: seq<Step>, kind: (World, Step) -> bool): nat {
    if steps == [] then 0
    else
      var init := steps[..|steps| - 1];
      Count(limit, init, kind) + One(kind(Run(Start(limit), init), steps[|steps| - 1]))
  }

  /** Only the last attempt can still move. */
  lemma MovesLast(c: Campaign, c': Campaign, id: nat)
    requires Shaped(c) && Does(c, c', Moved(id))
    ensures id == |c.attempts| - 1
  {
  }

  /** Every move but a relapse lowers what is left of an attempt. */
  lemma AttemptLeft(w: World, a: Attempt, a': Attempt)
    requires Moves(a, a') && AttemptSound(a, w.issued, w.reports)
    ensures if Reopened(a) && a'.phase == Blocked then Left(a') == Left(a) + 1 else Left(a') < Left(a)
    ensures a'.count == a.count + One(a.phase == Generated && a'.phase == Verifying)
    ensures Reopened(a') ==> a.phase == Blocked
  {
  }

  /** Only the last attempt can move, so an attempt that relapsed is the one that moved. */
  lemma RelapseMoves(w: World, s: Step, e: Effect)
    requires Sound(w) && Changes(w, s) && Does(w.rows, Rows(w, s), e)
    ensures Relapses(w, s) <==> e.Moved? && Reopened(w.rows.attempts[e.id]) && Rows(w, s).attempts[e.id].phase == Blocked
  {
    hide Sound, Moves, EndSound, Rows, Enabled;
  }

  /** Every step that changes the rows lowers the measure; only a relapse raises it, by one. */
  lemma StepWeight(w: World, s: Step)
    requires Sound(w)
    ensures Changes(w, s) && !Relapses(w, s) ==> Weight(Next(w, s).rows) < Weight(w.rows)
    ensures Weight(Next(w, s).rows) + One(Changes(w, s)) <= Weight(w.rows) + 2 * One(Relapses(w, s))
  {
    if Enabled(w, s) && Rows(w, s) != w.rows {
      var c, c' := w.rows, Rows(w, s);
      var e := StepEffect(w, s);
      if Changes(w, s) { RelapseMoves(w, s, e); }
      EndedByItself(w, s);
      match e
      case Moved(id) =>
        MovesLast(c, c', id);
        assert AttemptSound(c.attempts[id], w.issued, w.reports);
        AttemptLeft(w, c.attempts[id], c'.attempts[id]);
        LastMoved(c, c', id);
        hide Left, Rows, Sound, Enabled, Moves;
      case Appended =>
        LastAppended(c, c');
        hide Left, Rows, Sound, Enabled, Moves;
      case _ => hide Left, Rows, Sound, Enabled, Moves;
    }
  }

  lemma LastMoved(c: Campaign, c': Campaign, id: nat)
    requires Does(c, c', Moved(id)) && id == |c.attempts| - 1
    ensures Weight(c') - Weight(c) == Left(c'.attempts[id]) - Left(c.attempts[id])
  {
    hide Left, Moves;
  }

  lemma LastAppended(c: Campaign, c': Campaign)
    requires Does(c, c', Appended)
    ensures Weight(c') < Weight(c)
  {
    hide EndSound;
    assert Final(c') == Attempt(|c.attempts| + 1, Generating, 0, None, None);
  }

  /** A run that is over changes its state only from outside. */
  lemma EndedByItself(w: World, s: Step)
    requires Enabled(w, s)
    ensures Rows(w, s).state != w.rows.state && w.rows.state != Active ==> s.Change?
  {
    hide Newest, PlanOf, Found;
  }

  /** Taking a stored report into account, as one step or as two, brings the campaign closer to its end. */
  lemma RecoveryLowers(w: World, s: Step)
    requires Sound(w) && Reopens(w, s)
    ensures var plan := PlanFor(w, s);
      var t := Record(plan.id, plan.token.value, plan.outcome);
      var w' := Next(Next(w, s), t);
      && plan.token.Some?
      && Enabled(Next(w, s), t)
      && Weight(w'.rows) < Weight(Next(w, s).rows) < Weight(w.rows)
      && plan.id < |w'.rows.attempts| && w'.rows.attempts[plan.id].phase == Verified
      && w'.rows.attempts[plan.id].outcome == Some(plan.outcome)
  {
    FoundReports(w, s);
    StepSound(w, s);
    var plan := PlanFor(w, s);
    var t := Record(plan.id, plan.token.value, plan.outcome);
    ReopenedRows(w, s);
    StepWeight(w, s);
    StepWeight(Next(w, s), t);
    hide Weight, Sound, Found, PlanOf;
  }

  lemma ReopenedRows(w: World, s: Step)
    requires Sound(w) && Reopens(w, s)
    ensures var plan := PlanFor(w, s);
      && Carries(w.rows, plan.id, Blocked, plan.token)
      && Rows(w, s) == With(w.rows, plan.id, w.rows.attempts[plan.id].(phase := Verifying))
      && !Relapses(w, s)
      && plan.outcome != Interrupted
  {
    FoundReports(w, s);
    hide PlanOf, Found, Newest, RowsSound, PastSound;
  }

  // ---------- What a relapse takes ----------

  /** A relapse comes from the worker that started the verification, or from one that looked for its report too early. */
  lemma RelapseIsLate(w: World, s: Step)
    requires Sound(w) && Relapses(w, s)
    ensures s.Interrupt? || Late(w, s)
  {
    var id :| 0 <= id < |w.rows.attempts| && id < |Rows(w, s).attempts|
              && Reopened(w.rows.attempts[id]) && Rows(w, s).attempts[id].phase == Blocked;
    assert AttemptSound(w.rows.attempts[id], w.issued, w.reports);
    WhoBlocks(w, s, id);
    hide Sound, Found, PlanOf, Newest, Rows;
    if s.Tick? { BlockIsBlind(w, s); }
  }

  lemma WhoBlocks(w: World, s: Step, id: nat)
    requires Enabled(w, s) && id < |w.rows.attempts| && id < |Rows(w, s).attempts|
    requires w.rows.attempts[id].phase == Verifying && Rows(w, s).attempts[id].phase == Blocked
    ensures s.Interrupt? || (s.Tick? && PlanFor(w, s).Block? && PlanFor(w, s).token == w.rows.attempts[id].token)
  {
    hide Found, PlanOf, Newest;
  }

  lemma BlockIsBlind(w: World, s: Step)
    requires s.Tick? && Enabled(w, s) && PlanFor(w, s).Block? && PlanFor(w, s).token.Some?
    ensures !Reported(w.past[s.looked].reports, PlanFor(w, s).token.value)
  {
  }

  /** Every verification is given up on by its own worker at most once. */
  lemma {:induction false} InterruptsBounded(limit: nat, steps: seq<Step>)
    ensures Count(limit, steps, (w: World, s: Step) => s.Interrupt? && Enabled(w, s)) + |Run(Start(limit), steps).launching| ==
            Count(limit, steps, Launches)
  {
    if steps != [] {
      var init, s := steps[..|steps| - 1], steps[|steps| - 1];
      var w := Run(Start(limit), init);
      InterruptsBounded(limit, init);
      RunSound(limit, init);
      hide Rows, RowsSound, PastSound, Planned, PlanFor;
      if Launches(w, s) { LaunchedIsNew(w, s); }
    }
  }

  lemma {:induction false} RelapsesBounded(limit: nat, steps: seq<Step>)
    ensures Count(limit, steps, Relapses) <=
            Count(limit, steps, (w: World, s: Step) => s.Interrupt? && Enabled(w, s)) + Count(limit, steps, Late)
  {
    if steps != [] {
      var init, s := steps[..|steps| - 1], steps[|steps| - 1];
      RelapsesBounded(limit, init);
      RunSound(limit, init);
      if Relapses(Run(Start(limit), init), s) { RelapseIsLate(Run(Start(limit), init), s); }
      hide Late, Sound, Rows;
    }
  }

  lemma {:induction false} TotalAt(attempts: seq<Attempt>, id: nat, a: Attempt)
    requires id < |attempts|
    ensures Total(attempts[id := a]) == Total(attempts) - attempts[id].count + a.count
  {
    var init := attempts[..|attempts| - 1];
    if id < |init| {
      TotalAt(init, id, a);
      assert attempts[id := a][..|attempts| - 1] == init[id := a];
    } else {
      assert attempts[id := a][..|attempts| - 1] == init;
    }
  }

  lemma StepTotal(w: World, s: Step)
    requires Sound(w)
    ensures Total(Next(w, s).rows.attempts) == Total(w.rows.attempts) + One(Launches(w, s))
  {
    if Enabled(w, s) && Rows(w, s) != w.rows {
      var c, c' := w.rows, Rows(w, s);
      var e := StepEffect(w, s);
      LaunchMoves(w, s, e);
      match e
      case Moved(id) =>
        assert AttemptSound(c.attempts[id], w.issued, w.reports);
        AttemptLeft(w, c.attempts[id], c'.attempts[id]);
        TotalAt(c.attempts, id, c'.attempts[id]);
        hide Sound, Rows, Moves, Launches;
      case Appended =>
        assert c'.attempts[..|c.attempts|] == c.attempts;
        hide Sound, Rows, Moves, Launches;
      case _ => hide Sound, Rows, Moves, Launches;
    }
  }

  lemma LaunchMoves(w: World, s: Step, e: Effect)
    requires Enabled(w, s) && Does(w.rows, Rows(w, s), e) && Rows(w, s) != w.rows
    ensures Launches(w, s) <==>
            e.Moved? && w.rows.attempts[e.id].phase == Generated && Rows(w, s).attempts[e.id].phase == Verifying
  {
    hide Newest, PlanOf, Moves, Found;
  }

  /** At most three containers are ever started for each attempt. */
  lemma {:induction false} VerificationsBounded(limit: nat, steps: seq<Step>)
    ensures Count(limit, steps, Launches) == Total(Run(Start(limit), steps).rows.attempts) <= 3 * limit
  {
    RunSound(limit, steps);
    TotalBounded(Run(Start(limit), steps).rows.attempts);
    if steps != [] {
      var init := steps[..|steps| - 1];
      VerificationsBounded(limit, init);
      RunSound(limit, init);
      hide Sound, Next, Launches;
      StepTotal(Run(Start(limit), init), steps[|steps| - 1]);
    }
  }

  lemma {:induction false} TotalBounded(attempts: seq<Attempt>)
    requires forall k :: 0 <= k < |attempts| ==> attempts[k].count <= VERIFICATIONS
    ensures Total(attempts) <= VERIFICATIONS * |attempts|
  {
    if attempts != [] { TotalBounded(attempts[..|attempts| - 1]); }
  }

  lemma {:induction false} ChangesBounded(limit: nat, steps: seq<Step>)
    ensures Count(limit, steps, Changes) + Weight(Run(Start(limit), steps).rows) <= 12 * limit + 1 + 2 * Count(limit, steps, Relapses)
    ensures Weight(Run(Start(limit), steps).rows) >= 0
  {
    RunSound(limit, steps);
    if steps != [] {
      var init := steps[..|steps| - 1];
      ChangesBounded(limit, init);
      RunSound(limit, init);
      hide Weight, Sound, Next, Changes, Relapses;
      StepWeight(Run(Start(limit), init), steps[|steps| - 1]);
    }
  }

  /** However workers interleave, go stale and crash, a campaign of `limit` attempts changes its rows at most 12 * limit + 1
      times, plus two changes for every relapse; and at most 18 * limit + 1 times, plus two for every late tick. */
  lemma CampaignEnds(limit: nat, steps: seq<Step>)
    ensures Count(limit, steps, Changes) <= 12 * limit + 1 + 2 * Count(limit, steps, Relapses)
    ensures Count(limit, steps, Changes) <= 18 * limit + 1 + 2 * Count(limit, steps, Late)
  {
    ChangesBounded(limit, steps);
    RelapsesBounded(limit, steps);
    InterruptsBounded(limit, steps);
    VerificationsBounded(limit, steps);
  }

  // ---------- Recovery as one step ----------

  /** Whoever takes an interrupted verification up again records its report before anybody else moves. */
  predicate RecoversAtOnce(limit: nat, steps: seq<Step>) {
    forall k :: 0 <= k < |steps| && Reopens(Run(Start(limit), steps[..k]), steps[k]) ==>
      && k + 1 < |steps|
      && var plan := PlanFor(Run(Start(limit), steps[..k]), steps[k]);
         plan.token.Some? && steps[k + 1] == Record(plan.id, plan.token.value, plan.outcome)
  }

  predicate NoneReopened(c: Campaign) { forall id :: 0 <= id < |c.attempts| ==> !Reopened(c.attempts[id]) }

  lemma StaysUnopened(w: World, s: Step)
    requires Sound(w) && NoneReopened(w.rows) && !Reopens(w, s)
    ensures NoneReopened(Next(w, s).rows)
  {
    if Enabled(w, s) && Rows(w, s) != w.rows {
      var e := StepEffect(w, s);
      if e.Moved? { UnopenedMove(w, s, e.id); }
      hide Rows, Enabled, Sound, Reopens, Moves;
    }
  }

  lemma UnopenedMove(w: World, s: Step, id: nat)
    requires Sound(w) && Enabled(w, s) && !s.Change? && Rows(w, s) != w.rows && !Reopens(w, s)
    requires Does(w.rows, Rows(w, s), Moved(id))
    ensures !Reopened(Rows(w, s).attempts[id])
  {
    assert AttemptSound(w.rows.attempts[id], w.issued, w.reports);
    hide Newest, PlanOf, Found, PastSound, Shaped, TokensDistinct;
  }

  lemma RecordCloses(w: World, s: Step)
    requires Sound(w) && NoneReopened(w.rows) && Reopens(w, s)
    ensures var plan := PlanFor(w, s);
      plan.token.Some? &&
      var t := Record(plan.id, plan.token.value, plan.outcome);
      NoneReopened(Next(Next(w, s), t).rows) && !Relapses(Next(w, s), t)
  {
    RecoveryLowers(w, s);
    ReopenedRows(w, s);
    hide Sound, Weight, PlanOf, Found;
  }

  /** What one more step of such a run may leave behind. */
  predicate Closed(w: World, s: Step) {
    if Reopens(w, s) then NoneReopened(w.rows) else NoneReopened(Next(w, s).rows)
  }

  lemma ClosesAgain(w: World, s: Step, t: Step)
    requires Sound(w) && Closed(w, s)
    requires Reopens(w, s) ==> var plan := PlanFor(w, s); plan.token.Some? && t == Record(plan.id, plan.token.value, plan.outcome)
    ensures Closed(Next(w, s), t) && !Relapses(Next(w, s), t)
  {
    StepSound(w, s);
    if Reopens(w, s) {
      RecordCloses(w, s);
    } else {
      NothingRelapses(Next(w, s), t);
      if !Reopens(Next(w, s), t) { StaysUnopened(Next(w, s), t); }
    }
    hide Sound, Next, NoneReopened, Relapses, PlanFor;
  }

  lemma NothingRelapses(w: World, s: Step)
    requires NoneReopened(w.rows)
    ensures !Relapses(w, s)
  {
    hide Rows;
  }

  /** Between two steps that are not the halves of one recovery nothing is reopened, so nothing relapses. */
  lemma {:induction false} NoRelapse(limit: nat, steps: seq<Step>, n: nat)
    requires RecoversAtOnce(limit, steps) && n < |steps|
    ensures Count(limit, steps[..n + 1], Relapses) == 0
    ensures Closed(Run(Start(limit), steps[..n]), steps[n])
  {
    var w, s := Run(Start(limit), steps[..n]), steps[n];
    RunSound(limit, steps[..n]);
    RunStep(limit, steps, n);
    if n == 0 {
      NothingRelapses(w, s);
      hide Sound, Next, Relapses;
      if !Reopens(w, s) { StaysUnopened(w, s); }
    } else {
      NoRelapse(limit, steps, n - 1);
      RunSound(limit, steps[..n - 1]);
      RunStep(limit, steps, n - 1);
      hide Sound, Run, Next, Relapses, Closed, Reopens, PlanFor, Count;
      ClosesAgain(Run(Start(limit), steps[..n - 1]), steps[n - 1], s);
    }
  }

  lemma RunStep(limit: nat, steps: seq<Step>, n: nat)
    requires n < |steps|
    ensures Run(Start(limit), steps[..n + 1]) == Next(Run(Start(limit), steps[..n]), steps[n])
    ensures forall kind :: Count(limit, steps[..n + 1], kind) ==
              Count(limit, steps[..n], kind) + One(kind(Run(Start(limit), steps[..n]), steps[n]))
  {
    assert steps[..n + 1][..n] == steps[..n];
  }

  /** With recovery as one step a campaign of `limit` attempts changes its rows at most 12 * limit + 1 times. */
  lemma CampaignEndsAtOnce(limit: nat, steps: seq<Step>)
    requires RecoversAtOnce(limit, steps)
    ensures Count(limit, steps, Relapses) == 0
    ensures Count(limit, steps, Changes) <= 12 * limit + 1
  {
    if steps != [] {
      assert steps[..|steps|] == steps;
      NoRelapse(limit, steps, |steps| - 1);
    }
    CampaignEnds(limit, steps);
  }

  // ---------- The term for late ticks is needed ----------

  const LAUNCHED := Campaign(1, Active, [Attempt(1, Verifying, 1, Some(0), None)])
  const GIVEN_UP := Campaign(1, Active, [Attempt(1, Blocked, 1, Some(0), Some(Interrupted))])
  const TAKEN_UP := Campaign(1, Active, [Attempt(1, Verifying, 1, Some(0), Some(Interrupted))])
  const FIXED := Report(0, RegressionFixed)

  /** One worker read the rows and looked for the report before it was stored; another read the rows after it was given up. */
  predicate Pumped(w: World) {
    && w.rows == TAKEN_UP
    && |w.past| >= 6
    && w.past[3] == Moment(LAUNCHED, {})
    && w.past[5] == Moment(GIVEN_UP, {FIXED})
  }

  const TOO_EARLY := Tick(3, 3, None, true, 0)
  const ONCE_MORE := Tick(5, 5, Some(RegressionFixed), false, 0)

  lemma Plans(w: World)
    requires |w.past| >= 6 && w.past[3] == Moment(LAUNCHED, {}) && w.past[5] == Moment(GIVEN_UP, {FIXED})
    ensures Enabled(w, TOO_EARLY) && PlanFor(w, TOO_EARLY) == Block(0, Some(0))
    ensures Enabled(w, ONCE_MORE) && PlanFor(w, ONCE_MORE) == Reopen(0, Some(0), RegressionFixed)
  {
    NewestIsLast(LAUNCHED.attempts);
    NewestIsLast(GIVEN_UP.attempts);
  }

  lemma PumpOnce(w: World)
    requires Pumped(w)
    ensures var w' := Next(w, TOO_EARLY);
      && Changes(w, TOO_EARLY)
      && Changes(w', ONCE_MORE)
      && Pumped(Next(w', ONCE_MORE))
  {
    Plans(w);
    hide Found, PlanOf, Enabled;
    var w' := Next(w, TOO_EARLY);
    assert w'.rows == GIVEN_UP;
    Plans(w');
  }

  const CREATED := Campaign(1, Active, [Attempt(1, Generating, 0, None, None)])
  const SAVED := Campaign(1, Active, [Attempt(1, Generated, 0, None, None)])

  function Begin(): seq<Step> {
    [Tick(0, 0, None, false, 0), Tick(1, 1, None, false, 0), Tick(2, 2, None, false, 0),
     FileReport(0, RegressionFixed), TOO_EARLY, ONCE_MORE]
  }

  lemma MomentOne()
    ensures var w := Next(Start(1), Tick(0, 0, None, false, 0));
      w.rows == CREATED && |w.past| == 2 && w.past[1] == Moment(CREATED, {}) && w.issued == {} && w.reports == {}
  {
  }

  lemma MomentTwo(w: World)
    requires w.rows == CREATED && |w.past| == 2 && w.past[1] == Moment(CREATED, {}) && w.issued == {} && w.reports == {}
    ensures var w' := Next(w, Tick(1, 1, None, false, 0));
      w'.rows == SAVED && |w'.past| == 3 && w'.past[2] == Moment(SAVED, {}) && w'.issued == {} && w'.reports == {}
  {
    NewestIsLast(CREATED.attempts);
    assert PlanFor(w, Tick(1, 1, None, false, 0)) == Propose(0);
    hide PlanOf, Found;
  }

  lemma MomentThree(w: World)
    requires w.rows == SAVED && |w.past| == 3 && w.past[2] == Moment(SAVED, {}) && w.issued == {} && w.reports == {}
    ensures var w' := Next(w, Tick(2, 2, None, false, 0));
      w'.rows == LAUNCHED && |w'.past| == 4 && w'.past[3] == Moment(LAUNCHED, {}) && w'.issued == {0} && w'.reports == {}
  {
    NewestIsLast(SAVED.attempts);
    assert PlanFor(w, Tick(2, 2, None, false, 0)) == Launch(0);
    hide PlanOf, Found;
  }

  lemma MomentFour(w: World)
    requires w.rows == LAUNCHED && |w.past| == 4 && w.past[3] == Moment(LAUNCHED, {}) && w.issued == {0} && w.reports == {}
    ensures var w' := Next(w, FileReport(0, RegressionFixed));
      w'.rows == LAUNCHED && |w'.past| == 5 && w'.past[3] == Moment(LAUNCHED, {}) && w'.reports == {FIXED}
  {
  }

  lemma FirstMoments()
    ensures Pumped(Run(Start(1), Begin()))
  {
    var steps := Begin();
    MomentOne();
    var w1 := Next(Start(1), steps[0]);
    MomentTwo(w1);
    var w2 := Next(w1, steps[1]);
    MomentThree(w2);
    var w3 := Next(w2, steps[2]);
    MomentFour(w3);
    LastMoments(Next(w3, steps[3]));
    RunSix(Start(1), steps);
    hide Next, Pumped;
  }

  lemma LastMoments(w: World)
    requires w.rows == LAUNCHED && |w.past| == 5 && w.past[3] == Moment(LAUNCHED, {}) && w.reports == {FIXED}
    ensures Pumped(Next(Next(w, TOO_EARLY), ONCE_MORE))
  {
    NewestIsLast(LAUNCHED.attempts);
    var w' := Next(w, TOO_EARLY);
    assert w'.rows == GIVEN_UP && w'.past[5] == Moment(GIVEN_UP, {FIXED});
    Plans(w');
    hide Found, PlanOf, Enabled;
  }

  lemma RunSix(w: World, steps: seq<Step>)
    requires |steps| == 6
    ensures Run(w, steps) == Next(Next(Next(Next(Next(Next(w, steps[0]), steps[1]), steps[2]), steps[3]), steps[4]), steps[5])
  {
    hide Next;
    assert steps[..5][..4] == steps[..4] && steps[..4][..3] == steps[..3] && steps[..3][..2] == steps[..2];
    assert steps[..2][..1] == steps[..1] && steps[..1][..0] == [];
    assert Run(w, steps[..1]) == Next(Run(w, steps[..1][..0]), steps[0]);
    assert Run(w, steps[..2]) == Next(Run(w, steps[..1]), steps[1]);
    assert Run(w, steps[..3]) == Next(Run(w, steps[..2]), steps[2]);
    assert Run(w, steps[..4]) == Next(Run(w, steps[..3]), steps[3]);
    assert Run(w, steps[..5]) == Next(Run(w, steps[..4]), steps[4]);
  }

  lemma OneMore(limit: nat, steps: seq<Step>, s: Step)
    ensures Run(Start(limit), steps + [s]) == Next(Run(Start(limit), steps), s)
    ensures Count(limit, steps + [s], Changes) == Count(limit, steps, Changes) + One(Changes(Run(Start(limit), steps), s))
  {
    assert (steps + [s])[..|steps|] == steps;
  }

  /** Without a bound on late ticks there is none on the changes: a crash in every recovery and a stale worker behind each keep
      a campaign of one attempt going for as long as there are such workers. */
  lemma {:induction false} LateTicksPump(k: nat) returns (steps: seq<Step>)
    ensures Pumped(Run(Start(1), steps)) && Count(1, steps, Changes) >= k
  {
    if k == 0 {
      FirstMoments();
      steps := Begin();
    } else {
      steps := LateTicksPump(k - 1);
      PumpOnce(Run(Start(1), steps));
      OneMore(1, steps, TOO_EARLY);
      OneMore(1, steps + [TOO_EARLY], ONCE_MORE);
      hide Run, Next, Changes, Pumped, Count;
      steps := steps + [TOO_EARLY] + [ONCE_MORE];
    }
  }

  // ---------- What the states mean ----------

  /** The shape of every reachable campaign. */
  lemma CampaignShape(limit: nat, steps: seq<Step>)
    ensures var c := Run(Start(limit), steps).rows;
      && |c.attempts| <= limit
      && (forall k :: 0 <= k < |c.attempts| ==> c.attempts[k].ordinal == k + 1 && c.attempts[k].count <= 3)
      && (forall k :: 0 <= k < |c.attempts| - 1 ==> FailedCandidate(c.attempts[k]))
  {
    RunSound(limit, steps);
    var w := Run(Start(limit), steps);
    forall k | 0 <= k < |w.rows.attempts| ensures w.rows.attempts[k].count <= VERIFICATIONS {
      assert AttemptSound(w.rows.attempts[k], w.issued, w.reports);
    }
  }

  /** A candidate is offered for review only with a stored report that says so, and that report carries the token of the
      last attempt and of no other. */
  lemma ReadyIsReported(limit: nat, steps: seq<Step>)
    requires Run(Start(limit), steps).rows.state == ReadyForReview
    ensures var w := Run(Start(limit), steps);
      && w.rows.attempts != []
      && var last := Final(w.rows);
         && last.phase == Verified
         && last.token.Some?
         && Report(last.token.value, RegressionFixed) in w.reports
         && forall k :: 0 <= k < |w.rows.attempts| - 1 ==> w.rows.attempts[k].token != last.token
  {
    RunSound(limit, steps);
    var w := Run(Start(limit), steps);
    var attempts := w.rows.attempts;
    assert AttemptSound(Final(w.rows), w.issued, w.reports);
    forall k | 0 <= k < |attempts| - 1 ensures attempts[k].token != Final(w.rows).token {
      assert AttemptSound(attempts[k], w.issued, w.reports);
    }
  }

  /** An ended campaign never becomes active again, and verified attempts never change. */
  lemma {:induction false} EndedStays(limit: nat, steps: seq<Step>, more: seq<Step>)
    ensures Evolves(Run(Start(limit), steps).rows, Run(Start(limit), steps + more).rows)
  {
    if more == [] {
      assert steps + more == steps;
      EvolvesSelf(Run(Start(limit), steps).rows);
    } else {
      var init, all := more[..|more| - 1], steps + more;
      assert all[..|all| - 1] == steps + init && all[|all| - 1] == more[|more| - 1];
      EndedStays(limit, steps, init);
      var w := Run(Start(limit), steps + init);
      RunSound(limit, steps + init);
      StepEvolves(w, more[|more| - 1]);
      EvolvesOn(Run(Start(limit), steps).rows, w.rows, Next(w, more[|more| - 1]).rows);
    }
  }

  lemma StepEvolves(w: World, s: Step)
    requires Sound(w)
    ensures Evolves(w.rows, Next(w, s).rows)
  {
    if Enabled(w, s) {
      var e := StepEffect(w, s);
      EffectShaped(w.rows, Rows(w, s), e);
    } else {
      EvolvesSelf(w.rows);
    }
  }

  // ---------- Whole ticks are runs ----------

  /** The last moment is the present. */
  predicate Present(w: World) { w.past != [] && w.past[|w.past| - 1] == Moment(w.rows, w.reports) }

  lemma RunOne(w: World, s: Step)
    ensures Run(w, [s]) == Next(w, s)
  {
    assert [s][..0] == [];
    assert Run(w, [s]) == Next(Run(w, [s][..0]), s);
  }

  lemma {:induction false} RunAppend(w: World, steps: seq<Step>, more: seq<Step>)
    ensures Run(w, steps + more) == Run(Run(w, steps), more)
  {
    hide Next;
    if more == [] {
      assert steps + more == steps;
    } else {
      var all := steps + more;
      assert all[..|all| - 1] == steps + more[..|more| - 1] && all[|all| - 1] == more[|more| - 1];
      RunAppend(w, steps, more[..|more| - 1]);
    }
  }

  /** Somebody who reads the rows after a verification ended ends the run accordingly. */
  lemma EndingEnds(w: World, id: nat, token: Token, outcome: Outcome) returns (more: seq<Step>)
    requires Sound(w) && Present(w) && Report(token, outcome) in w.reports && id < |w.rows.attempts|
    requires id == |w.rows.attempts| - 1 && w.rows.attempts[id].phase == Verified
    requires w.rows.attempts[id].token == Some(token) && w.rows.attempts[id].outcome == Some(outcome)
    ensures Run(w, more).rows == EndFor(w.rows, outcome)
  {
    NewestIsLast(w.rows.attempts);
    hide Sound, Newest, Next, Run;
    if outcome == CandidateFailed {
      more := [];
      RunNothing(w);
    } else {
      var s := Tick(|w.past| - 1, |w.past| - 1, Some(outcome), false, 0);
      more := [s];
      RunOne(w, s);
      EndingTick(w, s, id, token, outcome);
    }
  }

  lemma RunNothing(w: World)
    ensures Run(w, []) == w
  {
  }

  lemma EndingTick(w: World, s: Step, id: nat, token: Token, outcome: Outcome)
    requires Present(w) && Newest(w.rows.attempts) == Some(id) && id < |w.rows.attempts| && outcome != CandidateFailed
    requires s == Tick(|w.past| - 1, |w.past| - 1, Some(outcome), false, 0) && Report(token, outcome) in w.reports
    requires w.rows.attempts[id] == w.rows.attempts[id].(phase := Verified, token := Some(token), outcome := Some(outcome))
    ensures Next(w, s).rows == EndFor(w.rows, outcome)
  {
    hide Newest;
    var seen := w.past[s.seen].rows;
    assert seen == w.rows && Found(seen, w.past[s.looked].reports, Some(outcome));
    if w.rows.state == Active {
      assert PlanOf(seen, Some(outcome), false) == EndAs(if outcome == RegressionFixed then ReadyForReview else Inconclusive);
    } else {
      assert PlanOf(seen, Some(outcome), false) == Wait;
    }
    assert Enabled(w, s);
    hide PlanOf, Found;
  }

  /** Recording a stored outcome and ending the run, as the transactions of a worker. */
  lemma ConcludeRuns(w: World, id: nat, token: Token, outcome: Outcome) returns (more: seq<Step>)
    requires Sound(w) && Present(w) && Report(token, outcome) in w.reports && Carries(w.rows, id, Verifying, Some(token))
    ensures Run(w, more).rows == ConcludeTx(w.rows, id, Some(token), outcome)
  {
    var t := Record(id, token, outcome);
    StepSound(w, t);
    OnlyLastMoves(w, id);
    var w' := Next(w, t);
    assert Present(w') && w'.rows == VerifiedTx(w.rows, id, Some(token), outcome) && w'.reports == w.reports;
    hide Sound, Next, Run;
    var ending := EndingEnds(w', id, token, outcome);
    more := [t] + ending;
    RunOne(w, t);
    RunAppend(w, [t], ending);
  }

  lemma OnlyLastMoves(w: World, id: nat)
    requires Sound(w) && id < |w.rows.attempts| && w.rows.attempts[id].phase != Verified
    ensures id == |w.rows.attempts| - 1
  {
    hide PastSound, ReportsSound, EndSound;
  }

  /** An uninterrupted tick is one of the runs: its first write, and the writes that follow it. */
  lemma WholeTickRuns(w: World, s: Step, verdict: Option<Outcome>) returns (more: seq<Step>)
    requires Sound(w) && Enabled(w, s) && s.Tick? && verdict != Some(Interrupted)
    ensures Run(Next(w, s), more).rows == TickTx(w.rows, PlanFor(w, s), s.uid, verdict)
  {
    var plan := PlanFor(w, s);
    var w' := Next(w, s);
    StepSound(w, s);
    FoundReports(w, s);
    assert Present(w') && w'.rows == Act(w.rows, plan, s.uid) && w'.reports == w.reports;
    assert Launches(w, s) ==> s.uid in w'.issued && s.uid in w'.launching;
    hide Sound, Run, Found, PlanOf, Enabled, Planned;
    more := [];
    RunNothing(w');
    match plan
    case Accept(id, token, outcome) =>
      if Carries(w.rows, id, Verifying, token) {
        OnlyLastMoves(w, id);
        more := EndingEnds(w', id, token.value, outcome);
      }
    case Reopen(id, token, outcome) =>
      if Carries(w.rows, id, Blocked, token) { more := ConcludeRuns(w', id, token.value, outcome); }
    case Launch(id) =>
      if Has(w.rows, id, Generated) && w.rows.attempts[id].count < VERIFICATIONS {
        assert Carries(w'.rows, id, Verifying, Some(s.uid)) && Launches(w, s);
        more := VerdictRuns(w', id, s.uid, verdict);
      }
    case _ =>
  }

  lemma VerdictRuns(w: World, id: nat, token: Token, verdict: Option<Outcome>) returns (more: seq<Step>)
    requires Sound(w) && Present(w) && Carries(w.rows, id, Verifying, Some(token)) && token in w.issued && token in w.launching
    requires verdict != Some(Interrupted)
    ensures Run(w, more).rows ==
            if verdict.Some? then ConcludeTx(w.rows, id, Some(token), verdict.value) else BlockTx(w.rows, id, Some(token))
  {
    if verdict.None? {
      var t := Interrupt(id, token);
      more := [t];
      RunOne(w, t);
    } else {
      var t := FileReport(token, verdict.value);
      StepSound(w, t);
      var w' := Next(w, t);
      assert Present(w') && w'.rows == w.rows && Report(token, verdict.value) in w'.reports;
      hide Sound, Next, Run;
      var rest := ConcludeRuns(w', id, token, verdict.value);
      more := [t] + rest;
      RunOne(w, t);
      RunAppend(w, [t], rest);
    }
  }
}
