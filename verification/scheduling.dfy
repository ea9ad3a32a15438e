/** Tenant admission: shared concurrency, first-come tickets and expiring, fenced worker leases. */
module Scheduling {
  import opened Basics
  import opened Domain

  type Token = nat
  type LeaseId = nat

  const TICKET_SECONDS := 90

  /** A ticket waits while it has no owner; an owned row is a worker's lease. */
  datatype Lease = Lease(id: LeaseId, owner: Option<Token>, enqueuedAt: Time, expiresAt: Time)

  /** `max_active` stays zero until the first admission fixes it. */
  datatype Gate = Gate(revision: nat, maxActive: nat, leases: map<TaskId, Lease>)

  datatype Settings = Settings(maxActive: nat, leaseSeconds: nat)

  datatype Verdict = Granted(token: Token) | Deferred(reason: Wait)
  datatype Wait = CONTROL_ONLY | DUPLICATE_TICK | TENANT_CAPACITY | TENANT_QUEUE

  predicate Before(a: Lease, b: Lease) {
    a.enqueuedAt < b.enqueuedAt || (a.enqueuedAt == b.enqueuedAt && a.id < b.id)
  }

  function Owners(leases: map<TaskId, Lease>, now: Time): set<TaskId> {
    set t | t in leases && leases[t].owner.Some? && now < leases[t].expiresAt
  }

  /** The waiting tickets that the queue serves before that of `task`. */
  function Ahead(leases: map<TaskId, Lease>, task: TaskId, now: Time): set<TaskId>
    requires task in leases
  {
    set t | t in leases && leases[t].owner.None? && now < leases[t].expiresAt && Before(leases[t], leases[task])
  }

  function Limit(g: Gate, settings: Settings): nat { if g.maxActive == 0 then settings.maxActive else g.maxActive }

  /** Expired rows go, and so do the tickets of tasks that were stopped meanwhile. */
  function Purged(leases: map<TaskId, Lease>, halted: set<TaskId>, when: Time): map<TaskId, Lease> {
    map t | t in leases && when < leases[t].expiresAt && !(leases[t].owner.None? && t in halted) :: leases[t]
  }

  function Ticketed(leases: map<TaskId, Lease>, task: TaskId, when: Time, id: LeaseId): map<TaskId, Lease> {
    leases[task := if task in leases then leases[task].(expiresAt := when + TICKET_SECONDS)
                   else Lease(id, None, when, when + TICKET_SECONDS)]
  }

  function AcquireTx(
    g: Gate, halted: set<TaskId>, task: TaskId, when: Time, id: LeaseId, token: Token, settings: Settings): (Gate, Verdict)
  {
    var locked := g.(revision := g.revision + 1);
    if task in halted then (locked, Deferred(CONTROL_ONLY))
    else
      var purged := Purged(g.leases, halted, when);
      if task in purged && purged[task].owner.Some? then (locked.(leases := purged), Deferred(DUPLICATE_TICK))
      else
        var leases := Ticketed(purged, task, when, id);
        var g' := locked.(leases := leases, maxActive := Limit(g, settings));
        var active := |Owners(leases, when)|;
        if g'.maxActive <= active then (g', Deferred(TENANT_CAPACITY))
        else if g'.maxActive - active <= |Ahead(leases, task, when)| then (g', Deferred(TENANT_QUEUE))
        else
          var lease := leases[task].(owner := Some(token), expiresAt := when + settings.leaseSeconds);
          (g'.(leases := leases[task := lease]), Granted(token))
  }

  function ReleaseTx(g: Gate, task: TaskId, token: Token): Gate {
    if task in g.leases && g.leases[task].owner == Some(token) then g.(leases := g.leases - {task}) else g
  }

  function SetLimitTx(g: Gate, limit: nat): Gate { g.(revision := g.revision + 1, maxActive := limit) }

  /** `check_execution_lease`. */
  predicate Holds(g: Gate, task: TaskId, token: Token, now: Time) {
    task in g.leases && g.leases[task].owner == Some(token) && now < g.leases[task].expiresAt
  }

  class Scheduler {
    const settings: Settings
    var revision: nat
    var maxActive: nat
    var leases: map<TaskId, Lease>

    function Contents(): Gate
      reads this
    {
      Gate(revision, maxActive, leases)
    }

    constructor (settings: Settings)
      ensures Contents() == Gate(0, 0, map[]) && this.settings == settings
    {
      this.settings := settings;
      revision, maxActive, leases := 0, 0, map[];
    }

    method Acquire(halted: set<TaskId>, task: TaskId, when: Time, id: LeaseId, token: Token) returns (verdict: Verdict)
      modifies this
      ensures (Contents(), verdict) == AcquireTx(old(Contents()), halted, task, when, id, token, settings)
    {
      revision := revision + 1;
      if task in halted { return Deferred(CONTROL_ONLY); }
      leases := map t | t in leases && when < leases[t].expiresAt :: leases[t];
      leases := map t | t in leases && !(leases[t].owner.None? && t in halted) :: leases[t];
      assert leases == Purged(old(leases), halted, when);
      if task in leases && leases[task].owner.Some? { return Deferred(DUPLICATE_TICK); }
      if task !in leases {
        leases := leases[task := Lease(id, None, when, when + TICKET_SECONDS)];
      } else {
        leases := leases[task := leases[task].(expiresAt := when + TICKET_SECONDS)];
      }
      var active := |Owners(leases, when)|;
      if maxActive == 0 { maxActive := settings.maxActive; }
      if maxActive <= active { return Deferred(TENANT_CAPACITY); }
      var available := maxActive - active;
      if available <= |Ahead(leases, task, when)| { return Deferred(TENANT_QUEUE); }
      leases := leases[task := leases[task].(owner := Some(token), expiresAt := when + settings.leaseSeconds)];
      verdict := Granted(token);
    }

    method Release(task: TaskId, token: Token)
      modifies this
      ensures Contents() == ReleaseTx(old(Contents()), task, token)
    {
      if task in leases && leases[task].owner == Some(token) { leases := leases - {task}; }
    }

    method SetLimit(limit: nat)
      modifies this
      ensures Contents() == SetLimitTx(old(Contents()), limit)
    {
      revision := revision + 1;
      maxActive := limit;
    }

    method CheckExecutionLease(task: TaskId, token: Token, now: Time) returns (ok: bool)
      ensures ok <==> Holds(Contents(), task, token, now)
    {
      ok := task in leases && leases[task].owner == Some(token) && now < leases[task].expiresAt;
    }
  }

  // ---------- The queue ----------

  /** A queue listing: the waiting tickets, each once, in serving order. */
  ghost predicate QueueOrder(queue: seq<TaskId>, leases: map<TaskId, Lease>, now: Time) {
    && (forall t :: t in queue <==> t in leases && leases[t].owner.None? && now < leases[t].expiresAt)
    && (forall i, j :: 0 <= i < j < |queue| ==> Before(leases[queue[i]], leases[queue[j]]))
  }

  /** The number of tickets ahead is the position in the queue: `LIMIT available` selects exactly the smaller ones. */
  lemma AheadIsPosition(queue: seq<TaskId>, leases: map<TaskId, Lease>, now: Time, i: nat)
    requires QueueOrder(queue, leases, now) && i < |queue|
    ensures |Ahead(leases, queue[i], now)| == i
  {
    assert Ahead(leases, queue[i], now) == set t | t in queue[..i] by {
      forall t | t in Ahead(leases, queue[i], now) ensures t in queue[..i] {
        var j :| 0 <= j < |queue| && queue[j] == t;
        assert j < i;
        assert queue[..i][j] == t;
      }
    }
    assert Distinct(queue[..i]);
    DistinctSize(queue[..i], Ahead(leases, queue[i], now));
  }
}
