/** The circuit breaker and the bulkhead that all readers of one dependency share. */
module Resilience {
  import opened Basics

  type Token = nat
  type LeaseId = nat

  const LEASE_SECONDS := 90
  const COOLDOWN_SECONDS := 30
  const FAILURE_THRESHOLD := 3
  const READ_ATTEMPTS := 3
  const RETRY_BUDGET_SECONDS := 30

  datatype State = Closed | Open | HalfOpen

  datatype Circuit = Circuit(
    revision: nat,
    generation: nat,
    failures: nat,
    state: State,
    retryAt: Option<Time>,
    probe: Option<Token>,
    maxInFlight: nat)

  /** The circuit row, once somebody asked for the dependency, and the expiry of every read lease. */
  datatype Breaker = Breaker(row: Option<Circuit>, leases: map<LeaseId, Time>)

  datatype Permit = Permit(generation: nat, probe: Option<Token>, lease: LeaseId)

  datatype Refusal = DEPENDENCY_OPEN | DEPENDENCY_CAPACITY

  datatype Outcome = Success | Failure

  function Max(a: int, b: int): int { if a < b then b else a }

  function Locked(b: Breaker): Circuit {
    match b.row
    case None => Circuit(1, 0, 0, Closed, None, None, 0)
    case Some(c) => c.(revision := c.revision + 1)
  }

  function Live(leases: map<LeaseId, Time>, now: Time): map<LeaseId, Time> { map l | l in leases && now < leases[l] :: leases[l] }

  predicate Cooling(c: Circuit, now: Time) { c.state != Closed && c.retryAt.Some? && now < c.retryAt.value }

  /** A refused request rolls back, so it leaves no trace. `probe` and `lease` are fresh. */
  function AcquireTx(b: Breaker, now: Time, probe: Token, lease: LeaseId, limit: nat): (Breaker, Option<Permit>, Option<Refusal>) {
    var c := Locked(b);
    if Cooling(c, now) then (b, None, Some(DEPENDENCY_OPEN))
    else
      var bounded := c.(maxInFlight := if c.maxInFlight == 0 then limit else c.maxInFlight);
      var live := Live(b.leases, now);
      if bounded.maxInFlight <= |live| then (b, None, Some(DEPENDENCY_CAPACITY))
      else
        var c' := if c.state == Closed then bounded
                  else bounded.(state := HalfOpen, probe := Some(probe), generation := c.generation + 1,
                                retryAt := Some(now + LEASE_SECONDS));
        (Breaker(Some(c'), live[lease := now + LEASE_SECONDS]), Some(Permit(c'.generation, c'.probe, lease)), None)
  }

  predicate Current(c: Circuit, p: Permit) { c.generation == p.generation && c.probe == p.probe }

  /** Whether the breaker listens to this completion at all. */
  predicate Heard(b: Breaker, p: Permit, now: Time) {
    && b.row.Some?
    && p.lease in b.leases
    && now < b.leases[p.lease]
    && Current(b.row.value, p)
    && !(b.row.value.state == HalfOpen && b.row.value.retryAt.Some? && b.row.value.retryAt.value <= now)
  }

  function CompleteTx(b: Breaker, p: Permit, outcome: Option<Outcome>, retryAfter: Option<int>, now: Time): Breaker {
    var c := Locked(b);
    var released := Breaker(Some(c), b.leases - {p.lease});
    if !Heard(b, p, now) then released
    else
      var probing := c.state == HalfOpen;
      if outcome == Some(Success) then
        released.(row := Some(c.(state := Closed, failures := 0, retryAt := None, probe := None,
                                 generation := if probing then c.generation + 1 else c.generation)))
      else if outcome == Some(Failure) || probing then
        var failures := if outcome == Some(Failure) then c.failures + 1 else c.failures;
        if probing || failures >= FAILURE_THRESHOLD || retryAfter.Some? then
          var cooldown := Max(COOLDOWN_SECONDS, if retryAfter.Some? then retryAfter.value else 0);
          released.(row := Some(c.(failures := failures, state := Open, probe := None, generation := c.generation + 1,
                                   retryAt := Some(now + cooldown))))
        else released.(row := Some(c.(failures := failures)))
      else released
  }

  /** `validate_permit`. */
  predicate Validates(b: Breaker, p: Permit, now: Time) {
    && p.lease in b.leases
    && now < b.leases[p.lease]
    && b.row.Some?
    && Current(b.row.value, p)
    && b.row.value.state != Open
    && !(b.row.value.state == HalfOpen && b.row.value.retryAt.Some? && b.row.value.retryAt.value <= now)
  }

  function ResetTx(b: Breaker): Breaker {
    if b.row.None? then b
    else
      var c := Locked(b);
      b.(row := Some(c.(generation := c.generation + 1, state := Closed, failures := 0, retryAt := None, probe := None)))
  }

  function SetLimitTx(b: Breaker, limit: int): Breaker {
    if !(1 <= limit <= 128) || b.row.None? then b else b.(row := Some(Locked(b).(maxInFlight := limit)))
  }

  class SharedBreaker {
    var row: Option<Circuit>
    var leases: map<LeaseId, Time>

    function Contents(): Breaker
      reads this
    {
      Breaker(row, leases)
    }

    constructor ()
      ensures Contents() == Breaker(None, map[])
    {
      row, leases := None, map[];
    }

    method Acquire(now: Time, probe: Token, lease: LeaseId, limit: nat) returns (permit: Option<Permit>, refusal: Option<Refusal>)
      modifies this
      ensures (Contents(), permit, refusal) == AcquireTx(old(Contents()), now, probe, lease, limit)
    {
      var c := Locked(Contents());
      if c.state != Closed && c.retryAt.Some? && now < c.retryAt.value { return None, Some(DEPENDENCY_OPEN); }
      if c.maxInFlight == 0 { c := c.(maxInFlight := limit); }
      var live := map l | l in leases && now < leases[l] :: leases[l];
      assert live == Live(leases, now);
      if |live| >= c.maxInFlight { return None, Some(DEPENDENCY_CAPACITY); }
      if c.state != Closed {
        c := c.(state := HalfOpen, probe := Some(probe));
        c := c.(generation := c.generation + 1);
        c := c.(retryAt := Some(now + LEASE_SECONDS));
      }
      leases := live[lease := now + LEASE_SECONDS];
      row := Some(c);
      permit, refusal := Some(Permit(c.generation, c.probe, lease)), None;
    }

    method Complete(p: Permit, outcome: Option<Outcome>, retryAfter: Option<int>, now: Time)
      modifies this
      ensures Contents() == CompleteTx(old(Contents()), p, outcome, retryAfter, now)
    {
      var existed := row.Some?;
      var c := Locked(Contents());
      var expiry := if p.lease in leases then Some(leases[p.lease]) else None;
      row := Some(c);
      leases := leases - {p.lease};
      if !existed || expiry.None? || expiry.value <= now { return; }
      if c.generation != p.generation || c.probe != p.probe { return; }
      var probing := c.state == HalfOpen;
      if probing && c.retryAt.Some? && c.retryAt.value <= now { return; }
      if outcome == Some(Success) {
        c := c.(state := Closed, failures := 0, retryAt := None, probe := None);
        if probing { c := c.(generation := c.generation + 1); }
      } else if outcome == Some(Failure) || probing {
        if outcome == Some(Failure) { c := c.(failures := c.failures + 1); }
        if probing || c.failures >= FAILURE_THRESHOLD || retryAfter.Some? {
          c := c.(state := Open, probe := None, generation := c.generation + 1);
          c := c.(retryAt := Some(now + Max(COOLDOWN_SECONDS, if retryAfter.Some? then retryAfter.value else 0)));
        }
      }
      row := Some(c);
    }

    method ValidatePermit(p: Permit, now: Time) returns (ok: bool)
      ensures ok <==> Validates(Contents(), p, now)
    {
      if p.lease !in leases || leases[p.lease] <= now { return false; }
      if row.None? || row.value.generation != p.generation || row.value.probe != p.probe { return false; }
      if row.value.state == Open { return false; }
      ok := !(row.value.state == HalfOpen && row.value.retryAt.Some? && row.value.retryAt.value <= now);
    }

    method Reset() returns (found: bool)
      modifies this
      ensures Contents() == ResetTx(old(Contents())) && (found <==> old(row).Some?)
    {
      if row.None? { return false; }
      var c := Locked(Contents());
      c := c.(generation := c.generation + 1);
      row := Some(c.(state := Closed, failures := 0, retryAt := None, probe := None));
      found := true;
    }

    method SetReadLimit(limit: int)
      modifies this
      ensures Contents() == SetLimitTx(old(Contents()), limit)
    {
      if limit < 1 || 128 < limit || row.None? { return; }
      row := Some(Locked(Contents()).(maxInFlight := limit));
    }
  }

  // ---------- One read under the policy ----------

  datatype Response = Payload(data: nat) | Transient(retryAfter: Option<int>) | Fatal

  function Attempts(probing: bool): nat { if probing then 1 else 3 }

  predicate Late(elapsed: nat -> int, k: nat) { elapsed(k) >= 30 }

  /** Every way in which a read may end without data, and what is then reported to the breaker. */
  predicate GaveUp(probing: bool, read: nat -> Response, valid: nat -> bool, elapsed: nat -> int,
                   outcome: Option<Outcome>, retryAfter: Option<int>, tries: nat) {
    var refused := tries < Attempts(probing) && !valid(2 * tries) && outcome.None?;
    var overdue := tries < Attempts(probing) && valid(2 * tries) && Late(elapsed, 2 * tries) && outcome == Some(Failure);
    if tries == 0 then refused || overdue
    else match read(tries - 1)
      case Fatal => outcome.None?
      case Payload(_) => outcome.None? && !valid(2 * tries - 1)
      case Transient(after) =>
        || (after.None? && !Late(elapsed, 2 * tries - 1) && (refused || overdue))
        || (outcome == Some(Failure) && retryAfter == after
            && (after.Some? || tries == Attempts(probing) || Late(elapsed, 2 * tries - 1)))
  }

  /** How the attempts of one read went. `read(i)` is what the dependency answers to attempt `i`, `valid(k)` the answer to the
      k-th permit check, `elapsed(k)` the seconds spent at the k-th look at the time budget, planned delay included. */
  predicate Ended(probing: bool, read: nat -> Response, valid: nat -> bool, elapsed: nat -> int,
                  data: Option<nat>, outcome: Option<Outcome>, retryAfter: Option<int>, tries: nat) {
    && tries <= Attempts(probing)
    && (forall i :: 0 <= i < tries ==> valid(2 * i) && !Late(elapsed, 2 * i))
    && (forall i :: 0 <= i < tries - 1 ==> read(i) == Transient(None) && !Late(elapsed, 2 * i + 1))
    && (if data.Some? then tries > 0 && read(tries - 1) == Payload(data.value) && valid(2 * tries - 1) && outcome == Some(Success)
        else outcome != Some(Success) && GaveUp(probing, read, valid, elapsed, outcome, retryAfter, tries))
    && (retryAfter.Some? ==> outcome == Some(Failure) && tries > 0 && read(tries - 1) == Transient(retryAfter))
  }

  method RetryLoop(probing: bool, read: nat -> Response, valid: nat -> bool, elapsed: nat -> int)
    returns (data: Option<nat>, outcome: Option<Outcome>, retryAfter: Option<int>, tries: nat)
    ensures Ended(probing, read, valid, elapsed, data, outcome, retryAfter, tries)
  {
    data, outcome, retryAfter, tries := None, None, None, 0;
    var attempts := if probing then 1 else READ_ATTEMPTS;
    for attempt := 0 to attempts
      invariant tries == attempt && data.None? && retryAfter.None?
      invariant outcome == if attempt == 0 then None else Some(Failure)
      invariant forall i :: 0 <= i < attempt ==> read(i) == Transient(None) && !Late(elapsed, 2 * i + 1)
      invariant forall i :: 0 <= i < attempt ==> valid(2 * i) && !Late(elapsed, 2 * i)
      invariant attempt < attempts || attempt == 0
    {
      outcome := None;
      if !valid(2 * attempt) { return; }
      if elapsed(2 * attempt) >= RETRY_BUDGET_SECONDS {
        outcome := Some(Failure);
        return;
      }
      tries := tries + 1;
      match read(attempt)
      case Fatal => return;
      case Payload(found) =>
        if !valid(2 * attempt + 1) { return; }
        outcome, data := Some(Success), Some(found);
        return;
      case Transient(after) =>
        outcome, retryAfter := Some(Failure), after;
        if after.Some? || attempt + 1 == attempts || elapsed(2 * attempt + 1) >= RETRY_BUDGET_SECONDS { return; }
    }
  }

  /** A permit check passes while the permit validates and the caller is still authorized. */
  function Checks(b: Breaker, permit: Permit, clock: nat -> Time, authorized: nat -> bool): nat -> bool {
    (k: nat) => authorized(k) && Validates(b, permit, clock(k))
  }

  /** One read: acquire a permit, try, and report the outcome whatever it is. `now`, `clock` and `end` are the times of the
      acquisition, of the permit checks and of the completion. */
  method ReadWithPolicy(breaker: SharedBreaker, allowed: bool, now: Time, probe: Token, lease: LeaseId, limit: nat,
                        read: nat -> Response, authorized: nat -> bool, clock: nat -> Time, elapsed: nat -> int, end: Time)
    returns (data: Option<nat>, refusal: Option<Refusal>, outcome: Option<Outcome>, retryAfter: Option<int>, tries: nat)
    modifies breaker
    ensures !allowed ==> breaker.Contents() == old(breaker.Contents()) && data.None? && tries == 0
    ensures allowed ==>
              var (b, permit, refused) := AcquireTx(old(breaker.Contents()), now, probe, lease, limit);
              && refusal == refused
              && (permit.None? ==> breaker.Contents() == b && data.None? && tries == 0)
              && (permit.Some? ==>
                    && breaker.Contents() == CompleteTx(b, permit.value, outcome, retryAfter, end)
                    && Ended(permit.value.probe.Some?, read, Checks(b, permit.value, clock, authorized), elapsed,
                             data, outcome, retryAfter, tries))
  {
    hide AcquireTx, CompleteTx, Ended;
    data, refusal, outcome, retryAfter, tries := None, None, None, None, 0;
    if !allowed { return; }
    var permit;
    permit, refusal := breaker.Acquire(now, probe, lease, limit);
    if permit.None? { return; }
    data, outcome, retryAfter, tries :=
      RetryLoop(permit.value.probe.Some?, read, Checks(breaker.Contents(), permit.value, clock, authorized), elapsed);
    breaker.Complete(permit.value, outcome, retryAfter, end);
  }
}
