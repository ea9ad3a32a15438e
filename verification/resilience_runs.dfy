/** Breaker epochs, stale permits and the bulkhead, for any number of readers, resets and crashes. */
module ResilienceRuns {
  import opened Basics
  import opened Resilience

  datatype Note = HeardSuccess | HeardFailure | WasReset

  /** `issued` are all permits ever handed out; `log` is the sequence of outcomes the breaker listened to. */
  datatype World = World(breaker: Breaker, now: Time, issued: set<Permit>, used: set<LeaseId>, log: seq<Note>)

  datatype Step =
    | Acquire(probe: Token, lease: LeaseId, defaultLimit: nat)
    | Complete(permit: Permit, outcome: Option<Outcome>, retryAfter: Option<int>)
    | Reset
    | SetLimit(limit: int)
    | Wait(when: Time)

  predicate Enabled(w: World, s: Step) {
    match s
    case Acquire(_, lease, _) => lease !in w.used
    case Complete(permit, _, _) => permit in w.issued
    case Wait(when) => w.now <= when
    case _ => true
  }

  function Noted(w: World, p: Permit, outcome: Option<Outcome>): seq<Note> {
    if outcome.None? || !Heard(w.breaker, p, w.now) then w.log
    else w.log + [if outcome == Some(Success) then HeardSuccess else HeardFailure]
  }

  function Next(w: World, s: Step): World {
    if !Enabled(w, s) then w
    else match s
      case Acquire(probe, lease, limit) =>
        var (b, permit, _) := AcquireTx(w.breaker, w.now, probe, lease, limit);
        w.(breaker := b, used := w.used + {lease}, issued := if permit.Some? then w.issued + {permit.value} else w.issued)
      case Complete(permit, outcome, retryAfter) =>
        w.(breaker := CompleteTx(w.breaker, permit, outcome, retryAfter, w.now), log := Noted(w, permit, outcome))
      case Reset => w.(breaker := ResetTx(w.breaker), log := if w.breaker.row.Some? then w.log + [WasReset] else w.log)
      case SetLimit(limit) => w.(breaker := SetLimitTx(w.breaker, limit))
      case Wait(when) => w.(now := when)
  }

  function Run(w: World, steps: seq<Step>): World {
    if steps == [] then w else Next(Run(w, steps[..|steps| - 1]), steps[|steps| - 1])
  }

  const START := World(Breaker(None, map[]), 0, {}, {}, [])

  /** The failures heard since the last success heard or reset. */
  function FailuresSince(log: seq<Note>): nat {
    if log == [] || log[|log| - 1] != HeardFailure then 0 else 1 + FailuresSince(log[..|log| - 1])
  }

  predicate CircuitSound(c: Circuit) {
    match c.state
    case Closed => c.probe == None && c.retryAt == None && c.failures < FAILURE_THRESHOLD
    case Open => c.probe == None && c.retryAt.Some?
    case HalfOpen => c.probe.Some? && c.retryAt.Some?
  }

  /** How the permits handed out relate to the present generation. */
  predicate PermitSound(c: Circuit, p: Permit) {
    && p.generation <= c.generation
    && (p.generation == c.generation ==> c.state != Open && p.probe == c.probe)
  }

  ghost predicate Sound(w: World) {
    && (w.breaker.row.None? ==> w.issued == {} && w.log == [])
    && (w.breaker.row.Some? ==>
          && CircuitSound(w.breaker.row.value)
          && w.breaker.row.value.failures == FailuresSince(w.log)
          && (forall p :: p in w.issued ==> PermitSound(w.breaker.row.value, p))
          && (w.breaker.row.value.state == HalfOpen ==>
                forall p, q :: p in w.issued && q in w.issued && p.generation == w.breaker.row.value.generation == q.generation
                               ==> p == q))
    && (forall p :: p in w.issued ==> p.lease in w.used)
    && w.breaker.leases.Keys <= w.used
  }

  lemma AcquireSound(w: World, s: Step)
    requires Sound(w) && s.Acquire? && Enabled(w, s)
    ensures Sound(Next(w, s))
  {
    if w.breaker.row.None? {
      assert w.log == [] && FailuresSince(w.log) == 0;
      assert Next(w, s).breaker.row.Some? ==> Next(w, s).breaker.row.value.failures == 0;
    } else {
      assert Next(w, s).breaker.row.value.failures == w.breaker.row.value.failures;
      assert Next(w, s).log == w.log;
    }
  }

  lemma NotedFailures(w: World, p: Permit, outcome: Option<Outcome>)
    ensures FailuresSince(Noted(w, p, outcome)) ==
            (if outcome.None? || !Heard(w.breaker, p, w.now) then FailuresSince(w.log)
             else if outcome == Some(Success) then 0
             else FailuresSince(w.log) + 1)
  {
    hide Heard;
    forall n: Note ensures (w.log + [n])[..|w.log|] == w.log {
    }
  }

  lemma CompleteSound(w: World, s: Step)
    requires Sound(w) && s.Complete? && Enabled(w, s)
    ensures Sound(Next(w, s))
  {
    assert PermitSound(w.breaker.row.value, s.permit);
    NotedFailures(w, s.permit, s.outcome);
    hide FailuresSince;
    assert s.outcome.Some? ==> s.outcome.value.Success? || s.outcome.value.Failure?;
  }

  lemma StepSound(w: World, s: Step)
    requires Sound(w)
    ensures Sound(Next(w, s))
  {
    if Enabled(w, s) {
      match s
      case Acquire(_, _, _) => AcquireSound(w, s);
      case Complete(_, _, _) => CompleteSound(w, s);
      case _ =>
    }
  }

  lemma {:induction false} RunSound(steps: seq<Step>)
    ensures Sound(Run(START, steps))
  {
    if steps != [] {
      RunSound(steps[..|steps| - 1]);
      StepSound(Run(START, steps[..|steps| - 1]), steps[|steps| - 1]);
    }
  }

  // ---------- Epochs ----------

  function Generation(b: Breaker): int { if b.row.Some? then b.row.value.generation else -1 }

  /** The generation never falls, and rises with every change of state or of probe. */
  lemma EpochsRise(w: World, s: Step)
    requires Sound(w)
    ensures var w' := Next(w, s);
      && Generation(w.breaker) <= Generation(w'.breaker)
      && (w.breaker.row.Some? ==>
            && w'.breaker.row.Some?
            && ((w'.breaker.row.value.state, w'.breaker.row.value.probe) != (w.breaker.row.value.state, w.breaker.row.value.probe)
                ==> Generation(w.breaker) < Generation(w'.breaker)))
  {
  }

  lemma {:induction false} EpochsMonotone(steps: seq<Step>, more: seq<Step>)
    ensures Generation(Run(START, steps).breaker) <= Generation(Run(START, steps + more).breaker)
  {
    if more == [] {
      assert steps + more == steps;
    } else {
      var n := |more| - 1;
      EpochsMonotone(steps, more[..n]);
      assert (steps + more)[..|steps + more| - 1] == steps + more[..n];
      RunSound(steps + more[..n]);
      EpochsRise(Run(START, steps + more[..n]), more[n]);
    }
  }

  /** While the circuit is open no permit is current, and while it is half open at most one permit validates. */
  lemma AtMostOneProbe(w: World)
    requires Sound(w) && w.breaker.row.Some?
    ensures w.breaker.row.value.state == Open ==>
              forall p :: p in w.issued ==> !Current(w.breaker.row.value, p) && !Validates(w.breaker, p, w.now)
    ensures w.breaker.row.value.state == HalfOpen ==>
              forall p, q :: p in w.issued && q in w.issued && Validates(w.breaker, p, w.now) && Validates(w.breaker, q, w.now) ==> p == q
  {
    forall p | p in w.issued ensures PermitSound(w.breaker.row.value, p) {
    }
  }

  /** A permit of an earlier epoch is dead for the rest of every run. */
  lemma StaleForever(steps: seq<Step>, more: seq<Step>, p: Permit)
    requires var w := Run(START, steps); p in w.issued && w.breaker.row.Some? && p.generation < w.breaker.row.value.generation
    ensures var w' := Run(START, steps + more); !Heard(w'.breaker, p, w'.now) && !Validates(w'.breaker, p, w'.now)
  {
    EpochsMonotone(steps, more);
  }

  /** A lease that is gone stays gone: a completed permit is never heard again, nor does it validate. */
  lemma {:induction false} CompletedForever(steps: seq<Step>, more: seq<Step>, p: Permit)
    requires var w := Run(START, steps); p in w.issued && p.lease !in w.breaker.leases
    ensures var w' := Run(START, steps + more);
      p in w'.issued && p.lease !in w'.breaker.leases && !Heard(w'.breaker, p, w'.now) && !Validates(w'.breaker, p, w'.now)
  {
    if more == [] {
      assert steps + more == steps;
    } else {
      var n := |more| - 1;
      CompletedForever(steps, more[..n], p);
      assert (steps + more)[..|steps + more| - 1] == steps + more[..n];
      RunSound(steps + more[..n]);
      hide Sound, Next;
      LeaseStaysGone(Run(START, steps + more[..n]), more[n], p);
    }
  }

  lemma LeaseStaysGone(w: World, s: Step, p: Permit)
    requires Sound(w) && p in w.issued && p.lease !in w.breaker.leases
    ensures p in Next(w, s).issued && p.lease !in Next(w, s).breaker.leases
  {
    hide CircuitSound, PermitSound;
  }

  /** A lease that is gone or out of time. */
  predicate RunOut(w: World, p: Permit) {
    p in w.issued && (p.lease in w.breaker.leases ==> w.breaker.leases[p.lease] <= w.now)
  }

  /** Leases are not extended: a permit that expired is never heard again, nor does it validate. */
  lemma {:induction false} ExpiredForever(steps: seq<Step>, more: seq<Step>, p: Permit)
    requires RunOut(Run(START, steps), p)
    ensures var w' := Run(START, steps + more); RunOut(w', p) && !Heard(w'.breaker, p, w'.now) && !Validates(w'.breaker, p, w'.now)
  {
    if more == [] {
      assert steps + more == steps;
    } else {
      var n := |more| - 1;
      ExpiredForever(steps, more[..n], p);
      assert (steps + more)[..|steps + more| - 1] == steps + more[..n];
      RunSound(steps + more[..n]);
      hide Sound, Next;
      StaysRunOut(Run(START, steps + more[..n]), more[n], p);
    }
  }

  lemma StaysRunOut(w: World, s: Step, p: Permit)
    requires Sound(w) && RunOut(w, p)
    ensures RunOut(Next(w, s), p)
  {
    hide CircuitSound, PermitSound;
  }

  /** An unheard completion only gives its lease back; the breaker's state, epoch, count and cooldown do not change. */
  lemma UnheardChangesNothing(b: Breaker, p: Permit, outcome: Option<Outcome>, retryAfter: Option<int>, now: Time)
    requires b.row.Some? && !Heard(b, p, now)
    ensures var b' := CompleteTx(b, p, outcome, retryAfter, now);
      && b'.row == Some(b.row.value.(revision := b.row.value.revision + 1))
      && b'.leases == b.leases - {p.lease}
  {
  }

  // ---------- History and bulkhead ----------

  /** Why a circuit opens: the third failure in a row, a probe that did not succeed, or Retry-After feedback. */
  lemma OpensForAReason(w: World, s: Step)
    requires Sound(w) && w.breaker.row.Some? && w.breaker.row.value.state != Open
    requires Next(w, s).breaker.row.value.state == Open
    ensures && s.Complete?
            && Heard(w.breaker, s.permit, w.now)
            && s.outcome != Some(Success)
            && (|| FailuresSince(Next(w, s).log) >= FAILURE_THRESHOLD
                || w.breaker.row.value.state == HalfOpen
                || (s.outcome == Some(Failure) && s.retryAfter.Some?))
    ensures Next(w, s).breaker.row.value.retryAt.Some?
    ensures Next(w, s).breaker.row.value.retryAt.value >= w.now + COOLDOWN_SECONDS
  {
    hide PermitSound, CircuitSound;
    assert s.Complete? && Heard(w.breaker, s.permit, w.now);
    if s.outcome == Some(Failure) { assert Next(w, s).log[..|w.log|] == w.log; }
  }

  /** A grant never brings the live leases above the limit, and a refusal leaves no trace at all. */
  lemma Bulkhead(b: Breaker, now: Time, probe: Token, lease: LeaseId, limit: nat)
    requires lease !in b.leases
    ensures var (b', permit, refusal) := AcquireTx(b, now, probe, lease, limit);
      && (permit.Some? <==> refusal.None?)
      && (refusal.Some? ==> b' == b)
      && (permit.Some? ==> b'.row.Some? && |Live(b'.leases, now)| <= b'.row.value.maxInFlight && Validates(b', permit.value, now))
  {
    var (b', permit, refusal) := AcquireTx(b, now, probe, lease, limit);
    if permit.Some? {
      var live := Live(b.leases, now);
      assert Live(b'.leases, now) == live[lease := now + LEASE_SECONDS];
      assert Live(b'.leases, now).Keys == live.Keys + {lease};
      assert |Live(b'.leases, now)| == |Live(b'.leases, now).Keys| && |live| == |live.Keys|;
    }
  }
}
