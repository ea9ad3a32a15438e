/** What the breaker does with what it hears: the exact answers, and how long Retry-After and a probe keep the readers off. */
module ResilienceFeedback {
  import opened Basics
  import opened Resilience
  import opened ResilienceRuns

  // ---------- One acquisition ----------

  /** The circuit keeps readers off at this moment. */
  predicate KeepsOff(b: Breaker, now: Time) {
    && b.row.Some?
    && (b.row.value.state == Open || b.row.value.state == HalfOpen)
    && b.row.value.retryAt.Some?
    && now < b.row.value.retryAt.value
  }

  function InUse(b: Breaker, now: Time): set<LeaseId> { set l | l in b.leases && now < b.leases[l] }

  function Places(b: Breaker, limit: nat): nat {
    if b.row.None? || b.row.value.maxInFlight == 0 then limit else b.row.value.maxInFlight
  }

  lemma LiveAreInUse(b: Breaker, now: Time)
    ensures |Live(b.leases, now)| == |InUse(b, now)|
  {
    assert Live(b.leases, now).Keys == InUse(b, now);
    assert |Live(b.leases, now)| == |Live(b.leases, now).Keys|;
  }

  /** The answer: off while cooling, full while all places are in use, a permit otherwise. A permit lasts ninety seconds; that of
      a circuit that is not closed is a probe of a new generation, and nobody else gets one for ninety seconds. */
  lemma AcquireExactly(b: Breaker, now: Time, probe: Token, lease: LeaseId, limit: nat)
    ensures var (b', permit, refusal) := AcquireTx(b, now, probe, lease, limit);
      var free := |InUse(b, now)| < Places(b, limit);
      && (refusal == Some(DEPENDENCY_OPEN) <==> KeepsOff(b, now))
      && (refusal == Some(DEPENDENCY_CAPACITY) <==> !KeepsOff(b, now) && !free)
      && (permit.Some? <==> !KeepsOff(b, now) && free)
      && (permit.None? ==> b' == b)
      && (permit.Some? ==>
            && b'.row.Some?
            && b'.row.value.maxInFlight == Places(b, limit)
            && b'.leases == (map l | l in InUse(b, now) + {lease} :: if l == lease then now + 90 else b.leases[l])
            && permit.value.lease == lease
            && permit.value.generation == b'.row.value.generation
            && permit.value.probe == b'.row.value.probe
            && (b.row.None? ==> b'.row.value == Circuit(1, 0, 0, Closed, None, None, limit))
            && (b.row.Some? && b.row.value.state == Closed ==>
                  b'.row.value == b.row.value.(revision := b.row.value.revision + 1, maxInFlight := Places(b, limit)))
            && (b.row.Some? && b.row.value.state != Closed ==>
                  && b'.row.value.state == HalfOpen
                  && b'.row.value.probe == Some(probe)
                  && b'.row.value.retryAt == Some(now + 90)
                  && b'.row.value.generation == b.row.value.generation + 1
                  && b'.row.value.failures == b.row.value.failures))
  {
    LiveAreInUse(b, now);
  }

  // ---------- One completion ----------

  /** The permit's lease lives, and no other generation or probe took over since. */
  predicate Listens(b: Breaker, p: Permit, now: Time) {
    && b.row.Some?
    && p.lease in b.leases
    && now < b.leases[p.lease]
    && p.generation == b.row.value.generation
    && p.probe == b.row.value.probe
    && (b.row.value.state == HalfOpen && b.row.value.retryAt.Some? ==> now < b.row.value.retryAt.value)
  }

  /** An outcome that opens the circuit: a failure that is the third, carries Retry-After or ends a probe; or a probe that ends
      without an outcome. */
  predicate Opens(c: Circuit, outcome: Option<Outcome>, retryAfter: Option<int>) {
    || (outcome == Some(Failure) && (c.state == HalfOpen || c.failures >= 2 || retryAfter.Some?))
    || (outcome == None && c.state == HalfOpen)
  }

  /** How long readers are kept off: thirty seconds, or longer if the dependency asks for it. */
  function Cooldown(retryAfter: Option<int>): int {
    if retryAfter.Some? && retryAfter.value > 30 then retryAfter.value else 30
  }

  lemma CompleteExactly(b: Breaker, p: Permit, outcome: Option<Outcome>, retryAfter: Option<int>, now: Time)
    ensures var b' := CompleteTx(b, p, outcome, retryAfter, now);
      && b'.leases == b.leases - {p.lease}
      && b'.row.Some?
      && (b.row.Some? ==>
            var c, c' := b.row.value, b'.row.value;
            && c'.maxInFlight == c.maxInFlight
            && (!Listens(b, p, now) || (outcome == None && c.state != HalfOpen) ==> c' == c.(revision := c.revision + 1))
            && (Listens(b, p, now) && outcome == Some(Success) ==>
                  && c'.state == Closed && c'.failures == 0 && c'.retryAt == None && c'.probe == None
                  && c'.generation == c.generation + (if c.state == HalfOpen then 1 else 0))
            && (Listens(b, p, now) && outcome == Some(Failure) ==> c'.failures == c.failures + 1)
            && (Listens(b, p, now) && outcome == Some(Failure) && !Opens(c, outcome, retryAfter) ==>
                  c'.state == c.state && c'.generation == c.generation && c'.probe == c.probe && c'.retryAt == c.retryAt)
            && (Listens(b, p, now) && Opens(c, outcome, retryAfter) ==>
                  && c'.state == Open && c'.probe == None && c'.generation == c.generation + 1
                  && c'.retryAt == Some(now + Cooldown(retryAfter))))
  {
  }

  /** A permit validates exactly while its completion would be listened to and the circuit is not open. */
  lemma ValidatesExactly(b: Breaker, p: Permit, now: Time)
    ensures Validates(b, p, now) <==> Listens(b, p, now) && b.row.value.state != Open
  {
  }

  /** A reset makes every permit handed out stale, and lets the next reader in at once if there is a place. */
  lemma ResetExactly(w: World, p: Permit, probe: Token, lease: LeaseId, limit: nat)
    requires Sound(w) && w.breaker.row.Some?
    ensures var b := ResetTx(w.breaker);
      && b.row.Some? && b.row.value.state == Closed && b.row.value.failures == 0 && b.row.value.retryAt == None
      && b.leases == w.breaker.leases && b.row.value.maxInFlight == w.breaker.row.value.maxInFlight
      && (p in w.issued ==> !Listens(b, p, w.now) && !Validates(b, p, w.now))
      && (AcquireTx(b, w.now, probe, lease, limit).1.Some? <==> |InUse(w.breaker, w.now)| < Places(w.breaker, limit))
  {
    hide FailuresSince, CircuitSound;
    if p in w.issued { assert PermitSound(w.breaker.row.value, p); }
    AcquireExactly(ResetTx(w.breaker), w.now, probe, lease, limit);
    assert InUse(ResetTx(w.breaker), w.now) == InUse(w.breaker, w.now);
  }

  /** A read limit counts from the next acquisition on, if it is between 1 and 128 and the dependency is known. */
  lemma LimitExactly(b: Breaker, limit: int, now: Time, probe: Token, lease: LeaseId, other: nat)
    ensures var b' := SetLimitTx(b, limit);
      if b.row.Some? && 1 <= limit <= 128 then
        && b'.leases == b.leases && b'.row.Some?
        && b'.row.value == b.row.value.(revision := b.row.value.revision + 1, maxInFlight := limit)
        && (!KeepsOff(b, now) ==> (AcquireTx(b', now, probe, lease, other).1.Some? <==> |InUse(b, now)| < limit))
      else b' == b
  {
    AcquireExactly(SetLimitTx(b, limit), now, probe, lease, other);
    assert InUse(SetLimitTx(b, limit), now) == InUse(b, now);
  }

  // ---------- Off until ----------

  /** The circuit is open since some moment, and everybody is kept off until another. */
  predicate OffUntil(w: World, until: Time) {
    && w.breaker.row.Some?
    && w.breaker.row.value.state == Open
    && w.breaker.row.value.retryAt == Some(until)
  }

  /** The step gives somebody a permit. */
  predicate Admits(w: World, s: Step) {
    s.Acquire? && Enabled(w, s) && AcquireTx(w.breaker, w.now, s.probe, s.lease, s.defaultLimit).1.Some?
  }

  lemma StepStaysOff(w: World, s: Step, until: Time)
    requires Sound(w) && OffUntil(w, until) && s != Reset
    requires w.now < until || !Admits(w, s)
    ensures OffUntil(Next(w, s), until)
  {
    hide FailuresSince, CircuitSound;
    if Enabled(w, s) {
      match s
      case Acquire(probe, lease, limit) => AcquireExactly(w.breaker, w.now, probe, lease, limit);
      case Complete(permit, outcome, retryAfter) =>
        assert PermitSound(w.breaker.row.value, permit);
        CompleteExactly(w.breaker, permit, outcome, retryAfter, w.now);
      case _ =>
    }
  }

  lemma ClockKeeps(w: World, s: Step)
    ensures w.now <= Next(w, s).now
  {
  }

  lemma {:induction false} RunFrom(w: World, steps: seq<Step>)
    requires Sound(w)
    ensures Sound(Run(w, steps)) && w.now <= Run(w, steps).now
  {
    if steps != [] {
      RunFrom(w, steps[..|steps| - 1]);
      StepSound(Run(w, steps[..|steps| - 1]), steps[|steps| - 1]);
      ClockKeeps(Run(w, steps[..|steps| - 1]), steps[|steps| - 1]);
    }
  }

  /** Only after the cooldown can anybody be admitted. */
  lemma {:induction false} StaysOff(w: World, steps: seq<Step>, until: Time)
    requires Sound(w) && OffUntil(w, until) && Reset !in steps
    requires Run(w, steps).now < until || forall i :: 0 <= i < |steps| ==> !Admits(Run(w, steps[..i]), steps[i])
    ensures OffUntil(Run(w, steps), until)
  {
    if steps != [] {
      var n := |steps| - 1;
      var init := steps[..n];
      var before := Run(w, init);
      assert Run(w, steps) == Next(before, steps[n]);
      assert forall i :: 0 <= i <= n ==> init[..i] == steps[..i];
      ClockKeeps(before, steps[n]);
      RunFrom(w, init);
      hide Sound, Next, Admits;
      StaysOff(w, init, until);
      StepStaysOff(before, steps[n], until);
    }
  }

  /** The completion that opens the circuit. */
  predicate OpensNow(w: World, s: Step) {
    && s.Complete?
    && Enabled(w, s)
    && Listens(w.breaker, s.permit, w.now)
    && Opens(w.breaker.row.value, s.outcome, s.retryAfter)
  }

  lemma Opened(w: World, s: Step)
    requires Sound(w) && OpensNow(w, s)
    ensures Sound(Next(w, s)) && OffUntil(Next(w, s), w.now + Cooldown(s.retryAfter))
  {
    CompleteExactly(w.breaker, s.permit, s.outcome, s.retryAfter, w.now);
    StepSound(w, s);
  }

  /** After a failure with Retry-After, or any other that opens the circuit, every reader is refused for thirty seconds and for as
      long as the dependency asked, in every run that does not reset the circuit. */
  lemma RetryAfterRespected(w: World, s: Step, steps: seq<Step>, probe: Token, lease: LeaseId, limit: nat)
    requires Sound(w) && OpensNow(w, s) && Reset !in steps
    requires var w' := Run(Next(w, s), steps);
      w'.now < w.now + 30 || (s.retryAfter.Some? && w'.now < w.now + s.retryAfter.value)
    ensures var w' := Run(Next(w, s), steps);
      AcquireTx(w'.breaker, w'.now, probe, lease, limit) == (w'.breaker, None, Some(DEPENDENCY_OPEN))
  {
    Opened(w, s);
    var until := w.now + Cooldown(s.retryAfter);
    hide Sound, Next, Run;
    StaysOff(Next(w, s), steps, until);
    var w' := Run(Next(w, s), steps);
    AcquireExactly(w'.breaker, w'.now, probe, lease, limit);
  }

  /** From then on the next reader who finds a place is given a probe of a new generation. */
  lemma ThenProbes(w: World, s: Step, steps: seq<Step>, probe: Token, lease: LeaseId, limit: nat)
    requires Sound(w) && OpensNow(w, s) && Reset !in steps
    requires forall i :: 0 <= i < |steps| ==> !Admits(Run(Next(w, s), steps[..i]), steps[i])
    requires var w' := Run(Next(w, s), steps);
      && w.now + 30 <= w'.now
      && (s.retryAfter.Some? ==> w.now + s.retryAfter.value <= w'.now)
      && |InUse(w'.breaker, w'.now)| < Places(w'.breaker, limit)
    ensures var w' := Run(Next(w, s), steps);
      var (b', permit, refusal) := AcquireTx(w'.breaker, w'.now, probe, lease, limit);
      && refusal == None
      && w'.breaker.row.Some?
      && permit == Some(Permit(w'.breaker.row.value.generation + 1, Some(probe), lease))
      && b'.row.Some? && b'.row.value.state == HalfOpen
  {
    hide Sound, Next, Run, Admits;
    Opened(w, s);
    StaysOff(Next(w, s), steps, w.now + Cooldown(s.retryAfter));
    OffThenProbe(Run(Next(w, s), steps), w.now + Cooldown(s.retryAfter), probe, lease, limit);
  }

  lemma OffThenProbe(w: World, until: Time, probe: Token, lease: LeaseId, limit: nat)
    requires OffUntil(w, until) && until <= w.now && |InUse(w.breaker, w.now)| < Places(w.breaker, limit)
    ensures var (b', permit, refusal) := AcquireTx(w.breaker, w.now, probe, lease, limit);
      && refusal == None
      && permit == Some(Permit(w.breaker.row.value.generation + 1, Some(probe), lease))
      && b'.row.Some? && b'.row.value.state == HalfOpen
  {
    AcquireExactly(w.breaker, w.now, probe, lease, limit);
  }

  // ---------- While a probe is out ----------

  predicate Probing(w: World, p: Permit, until: Time) {
    && w.breaker.row.Some?
    && w.breaker.row.value.state == HalfOpen
    && w.breaker.row.value.retryAt == Some(until)
    && p in w.issued
    && p.generation == w.breaker.row.value.generation
    && p.probe == w.breaker.row.value.probe
  }

  lemma StepKeepsProbing(w: World, s: Step, p: Permit, until: Time)
    requires Sound(w) && Probing(w, p, until) && s != Reset && !(s.Complete? && s.permit == p) && w.now < until
    ensures Probing(Next(w, s), p, until)
  {
    hide FailuresSince, CircuitSound;
    if Enabled(w, s) {
      match s
      case Acquire(probe, lease, limit) => AcquireExactly(w.breaker, w.now, probe, lease, limit);
      case Complete(permit, outcome, retryAfter) =>
        assert PermitSound(w.breaker.row.value, permit);
        CompleteExactly(w.breaker, permit, outcome, retryAfter, w.now);
      case _ =>
    }
  }

  lemma {:induction false} StaysProbing(w: World, steps: seq<Step>, p: Permit, until: Time)
    requires Sound(w) && Probing(w, p, until) && Run(w, steps).now < until
    requires Reset !in steps && forall s :: s in steps && s.Complete? ==> s.permit != p
    ensures Probing(Run(w, steps), p, until)
  {
    if steps != [] {
      var n := |steps| - 1;
      var init := steps[..n];
      var before := Run(w, init);
      assert Run(w, steps) == Next(before, steps[n]);
      ClockKeeps(before, steps[n]);
      RunFrom(w, init);
      hide Sound, Next, Probing;
      StaysProbing(w, init, p, until);
      StepKeepsProbing(before, steps[n], p, until);
    }
  }

  /** While a probe is out and unanswered, nobody else is admitted for its ninety seconds. */
  lemma ProbeAlone(w: World, s: Step, steps: seq<Step>, probe: Token, lease: LeaseId, limit: nat)
    requires Sound(w) && Admits(w, s) && w.breaker.row.Some? && w.breaker.row.value.state != Closed
    requires var p := AcquireTx(w.breaker, w.now, s.probe, s.lease, s.defaultLimit).1.value;
      Reset !in steps && forall c :: c in steps && c.Complete? ==> c.permit != p
    requires Run(Next(w, s), steps).now < w.now + 90
    ensures var w' := Run(Next(w, s), steps);
      AcquireTx(w'.breaker, w'.now, probe, lease, limit) == (w'.breaker, None, Some(DEPENDENCY_OPEN))
  {
    AcquireExactly(w.breaker, w.now, s.probe, s.lease, s.defaultLimit);
    StepSound(w, s);
    var p := AcquireTx(w.breaker, w.now, s.probe, s.lease, s.defaultLimit).1.value;
    assert Probing(Next(w, s), p, w.now + 90);
    hide Sound, Next, Run, Admits, Probing;
    StaysProbing(Next(w, s), steps, p, w.now + 90);
    var w' := Run(Next(w, s), steps);
    assert Probing(w', p, w.now + 90);
    ProbingKeepsOff(w', p, w.now + 90);
    AcquireExactly(w'.breaker, w'.now, probe, lease, limit);
  }

  lemma ProbingKeepsOff(w: World, p: Permit, until: Time)
    requires Probing(w, p, until) && w.now < until
    ensures KeepsOff(w.breaker, w.now)
  {
  }
}
