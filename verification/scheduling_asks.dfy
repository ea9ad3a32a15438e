/** What asking for admission is worth: the exact answer, the renewed ticket, the place kept in the queue, the length of a lease. */
module SchedulingAsks {
  import opened Basics
  import opened Domain
  import opened Scheduling
  import opened SchedulingRuns

  // ---------- One ask ----------

  /** A worker holds the task's lease. */
  predicate BeingWorked(g: Gate, task: TaskId, when: Time) {
    task in g.leases && g.leases[task].owner.Some? && when < g.leases[task].expiresAt
  }

  /** The task's ticket stands in the queue. */
  predicate Queued(g: Gate, halted: set<TaskId>, task: TaskId, when: Time) {
    task in g.leases && g.leases[task].owner.None? && when < g.leases[task].expiresAt && task !in halted
  }

  function Workers(g: Gate, when: Time): set<TaskId> {
    set t | t in g.leases && BeingWorked(g, t, when)
  }

  /** Of the tickets that stand in the queue, those with an older stamp, or with the same stamp and a smaller id. */
  function InFront(g: Gate, halted: set<TaskId>, task: TaskId, when: Time, stamp: Time, id: LeaseId): set<TaskId> {
    set t | t in g.leases && t != task && Queued(g, halted, t, when)
            && (g.leases[t].enqueuedAt < stamp || (g.leases[t].enqueuedAt == stamp && g.leases[t].id < id))
  }

  function StampOf(g: Gate, halted: set<TaskId>, task: TaskId, when: Time): Time {
    if Queued(g, halted, task, when) then g.leases[task].enqueuedAt else when
  }

  function TicketOf(g: Gate, halted: set<TaskId>, task: TaskId, when: Time, id: LeaseId): LeaseId {
    if Queued(g, halted, task, when) then g.leases[task].id else id
  }

  lemma CountsAgree(g: Gate, halted: set<TaskId>, task: TaskId, when: Time, id: LeaseId)
    requires task !in halted && !BeingWorked(g, task, when)
    ensures var leases := Ticketed(Purged(g.leases, halted, when), task, when, id);
      && Owners(leases, when) == Workers(g, when)
      && Ahead(leases, task, when) ==
           InFront(g, halted, task, when, StampOf(g, halted, task, when), TicketOf(g, halted, task, when, id))
      && leases[task] == Lease(TicketOf(g, halted, task, when, id), None, StampOf(g, halted, task, when), when + 90)
  {
  }

  /** The answer to an ask, in terms of the rows alone: which of the four refusals, or a grant. */
  lemma AnswerExactly(g: Gate, halted: set<TaskId>, task: TaskId, when: Time, id: LeaseId, token: Token, settings: Settings)
    ensures var verdict := AcquireTx(g, halted, task, when, id, token, settings).1;
      var limit := if g.maxActive == 0 then settings.maxActive else g.maxActive;
      var workers := |Workers(g, when)|;
      var inFront := |InFront(g, halted, task, when, StampOf(g, halted, task, when), TicketOf(g, halted, task, when, id))|;
      && (verdict == Deferred(CONTROL_ONLY) <==> task in halted)
      && (verdict == Deferred(DUPLICATE_TICK) <==> task !in halted && BeingWorked(g, task, when))
      && (verdict == Deferred(TENANT_CAPACITY) <==> task !in halted && !BeingWorked(g, task, when) && limit <= workers)
      && (verdict == Deferred(TENANT_QUEUE) <==>
            task !in halted && !BeingWorked(g, task, when) && workers < limit <= workers + inFront)
      && (verdict == Granted(token) <==> task !in halted && !BeingWorked(g, task, when) && workers + inFront < limit)
  {
    if task !in halted && !BeingWorked(g, task, when) { CountsAgree(g, halted, task, when, id); }
  }

  /** The rows after an ask: a wait is renewed for ninety seconds under its first stamp and id, a grant lasts as long as the
      settings say, and of the other rows exactly the expired ones and the tickets of halted tasks go. */
  lemma RowsExactly(g: Gate, halted: set<TaskId>, task: TaskId, when: Time, id: LeaseId, token: Token, settings: Settings)
    ensures var (g', verdict) := AcquireTx(g, halted, task, when, id, token, settings);
      var ticket, stamp := TicketOf(g, halted, task, when, id), StampOf(g, halted, task, when);
      && g'.revision == g.revision + 1
      && (verdict == Deferred(CONTROL_ONLY) ==> g'.leases == g.leases)
      && (verdict == Deferred(TENANT_CAPACITY) || verdict == Deferred(TENANT_QUEUE) ==>
            task in g'.leases && g'.leases[task] == Lease(ticket, None, stamp, when + 90))
      && (verdict.Granted? ==>
            task in g'.leases && g'.leases[task] == Lease(ticket, Some(token), stamp, when + settings.leaseSeconds))
      && (verdict != Deferred(CONTROL_ONLY) ==>
            forall t :: t in g.leases.Keys + g'.leases.Keys && (t != task || verdict == Deferred(DUPLICATE_TICK)) ==>
              && (t in g'.leases <==> t in g.leases && when < g.leases[t].expiresAt && !(g.leases[t].owner.None? && t in halted))
              && (t in g'.leases ==> g'.leases[t] == g.leases[t]))
      && g'.maxActive == (if verdict == Deferred(CONTROL_ONLY) || verdict == Deferred(DUPLICATE_TICK) || g.maxActive > 0
                          then g.maxActive else settings.maxActive)
  {
    if task !in halted && !BeingWorked(g, task, when) { CountsAgree(g, halted, task, when, id); }
  }

  /** A granted token passes the lease check for exactly the seconds that the settings give it. */
  lemma GrantLasts(
    g: Gate, halted: set<TaskId>, task: TaskId, when: Time, id: LeaseId, token: Token, settings: Settings, later: Time)
    requires AcquireTx(g, halted, task, when, id, token, settings).1.Granted?
    ensures Holds(AcquireTx(g, halted, task, when, id, token, settings).0, task, token, later) <==> later < when + settings.leaseSeconds
  {
    RowsExactly(g, halted, task, when, id, token, settings);
  }

  // ---------- A task that keeps asking ----------

  predicate Asks(w: World, s: Step, task: TaskId) { s.Acquire? && s.task == task && Enabled(w, s) }

  /** When the task asked last; `start` before its first ask. */
  function LastAsk(w: World, steps: seq<Step>, settings: Settings, task: TaskId, start: Time): Time {
    if steps == [] then start
    else
      var n := |steps| - 1;
      if Asks(Run(w, steps[..n], settings), steps[n], task) then steps[n].when else LastAsk(w, steps[..n], settings, task, start)
  }

  /** The task asks again before ninety seconds have passed since it asked last. */
  predicate KeepsAsking(w: World, steps: seq<Step>, settings: Settings, task: TaskId, start: Time) {
    forall i :: 0 <= i < |steps| ==> Run(w, steps[..i + 1], settings).now < LastAsk(w, steps[..i], settings, task, start) + 90
  }

  /** It is neither halted nor granted in the run. */
  predicate Unserved(w: World, steps: seq<Step>, settings: Settings, task: TaskId) {
    forall i :: 0 <= i < |steps| ==>
      var before := Run(w, steps[..i], settings);
      && task !in before.halted
      && (Asks(before, steps[i], task) ==>
            AcquireTx(before.gate, before.halted, task, steps[i].when, steps[i].id, steps[i].token, settings).1.Deferred?)
  }

  predicate Ticket(w: World, task: TaskId, id: LeaseId, stamp: Time, expires: Time) {
    task in w.gate.leases && w.gate.leases[task] == Lease(id, None, stamp, expires)
  }

  lemma StepKeepsTicket(w: World, s: Step, settings: Settings, task: TaskId, id: LeaseId, stamp: Time, expires: Time)
    requires Ticket(w, task, id, stamp, expires) && Next(w, s, settings).now < expires && task !in w.halted
    requires Asks(w, s, task) ==> AcquireTx(w.gate, w.halted, task, s.when, s.id, s.token, settings).1.Deferred?
    ensures Ticket(Next(w, s, settings), task, id, stamp, if Asks(w, s, task) then s.when + 90 else expires)
  {
    if s.Acquire? && Enabled(w, s) {
      RowsExactly(w.gate, w.halted, s.task, s.when, s.id, s.token, settings);
      if s.task == task { AnswerExactly(w.gate, w.halted, s.task, s.when, s.id, s.token, settings); }
      hide AcquireTx, InFront, Workers;
    }
  }

  /** A waiting task that asks again before each expiry keeps its stamp and its id until it is granted or halted. */
  lemma {:induction false} AskingKeepsTicket(
    w: World, steps: seq<Step>, settings: Settings, task: TaskId, id: LeaseId, stamp: Time, start: Time)
    requires Ticket(w, task, id, stamp, start + 90)
    requires KeepsAsking(w, steps, settings, task, start) && Unserved(w, steps, settings, task)
    ensures Ticket(Run(w, steps, settings), task, id, stamp, LastAsk(w, steps, settings, task, start) + 90)
  {
    if steps != [] {
      var n := |steps| - 1;
      var init := steps[..n];
      assert forall i :: 0 <= i <= n ==> init[..i] == steps[..i];
      AskingKeepsTicket(w, init, settings, task, id, stamp, start);
      assert steps[..n + 1] == steps;
      StepKeepsTicket(Run(w, init, settings), steps[n], settings, task, id, stamp, LastAsk(w, init, settings, task, start) + 90);
    }
  }

  /** Nobody comes in ahead of a ticket by a later stamp. */
  lemma StepPassesNobody(w: World, s: Step, settings: Settings, task: TaskId)
    requires Sound(w) && (s.Acquire? ==> w.now < s.when)
    requires task in w.gate.leases && task in Next(w, s, settings).gate.leases
    requires var l, l' := w.gate.leases[task], Next(w, s, settings).gate.leases[task]; l.id == l'.id && l.enqueuedAt == l'.enqueuedAt
    ensures var w' := Next(w, s, settings); Ahead(w'.gate.leases, task, w'.now) <= Ahead(w.gate.leases, task, w.now)
  {
    assert RowSound(w, w.gate.leases[task]);
    if s.Acquire? && Enabled(w, s) {
      AcquireRows(w, s, settings);
      hide AcquireTx;
    }
  }

  /** First come, first served: as long as it keeps asking, the tickets ahead of a waiting task only become fewer, whoever else
      comes, goes or asks. */
  lemma {:induction false} AskingKeepsPlace(
    w: World, steps: seq<Step>, settings: Settings, task: TaskId, id: LeaseId, stamp: Time, start: Time)
    requires Sound(w) && Ticket(w, task, id, stamp, start + 90) && ClockAdvances(w, steps, settings)
    requires KeepsAsking(w, steps, settings, task, start) && Unserved(w, steps, settings, task)
    ensures var w' := Run(w, steps, settings);
      && Ticket(w', task, id, stamp, LastAsk(w, steps, settings, task, start) + 90)
      && Ahead(w'.gate.leases, task, w'.now) <= Ahead(w.gate.leases, task, w.now)
  {
    hide KeepsAsking, Unserved, ClockAdvances, Sound, LastAsk, Ahead, Enabled, Next;
    AskingKeepsTicket(w, steps, settings, task, id, stamp, start);
    if steps != [] {
      var n := |steps| - 1;
      var init := steps[..n];
      PrefixAsks(w, steps, settings, task, start);
      AskingKeepsPlace(w, init, settings, task, id, stamp, start);
      RunSound(w, init, settings);
      var before := Run(w, init, settings);
      assert Run(w, steps, settings) == Next(before, steps[n], settings);
      hide Run;
      StepPassesNobody(before, steps[n], settings, task);
    }
  }

  lemma PrefixAsks(w: World, steps: seq<Step>, settings: Settings, task: TaskId, start: Time)
    requires steps != [] && ClockAdvances(w, steps, settings)
    requires KeepsAsking(w, steps, settings, task, start) && Unserved(w, steps, settings, task)
    ensures var init := steps[..|steps| - 1];
      && ClockAdvances(w, init, settings)
      && KeepsAsking(w, init, settings, task, start)
      && Unserved(w, init, settings, task)
      && (steps[|steps| - 1].Acquire? ==> Run(w, init, settings).now < steps[|steps| - 1].when)
  {
    hide Run, LastAsk, AcquireTx, Enabled;
    var n := |steps| - 1;
    var init := steps[..n];
    assert forall i :: 0 <= i <= n ==> init[..i] == steps[..i];
  }

  // ---------- A lease ----------

  /** The worker's lease as it was granted. */
  predicate Owned(w: World, task: TaskId, token: Token, expires: Time) {
    task in w.gate.leases && w.gate.leases[task].owner == Some(token) && w.gate.leases[task].expiresAt == expires
  }

  lemma StepKeepsLease(w: World, s: Step, settings: Settings, task: TaskId, token: Token, expires: Time)
    requires Owned(w, task, token, expires) && Next(w, s, settings).now < expires && s != Release(task, token)
    ensures Owned(Next(w, s, settings), task, token, expires)
  {
    if s.Acquire? && Enabled(w, s) {
      RowsExactly(w.gate, w.halted, s.task, s.when, s.id, s.token, settings);
      if s.task == task { AnswerExactly(w.gate, w.halted, s.task, s.when, s.id, s.token, settings); }
      hide AcquireTx, InFront, Workers;
    }
  }

  lemma StepEndsLease(w: World, s: Step, settings: Settings, task: TaskId, token: Token, expires: Time)
    requires Sound(w) && token in w.issued && Owned(w, task, token, expires) && expires <= Next(w, s, settings).now
    ensures !Holds(Next(w, s, settings).gate, task, token, Next(w, s, settings).now)
  {
    if s.Acquire? && Enabled(w, s) {
      AcquireRows(w, s, settings);
      RowsExactly(w.gate, w.halted, s.task, s.when, s.id, s.token, settings);
      hide AcquireTx, InFront, Workers;
    }
  }

  /** Unless its own worker releases it, a lease lasts exactly as long as it was granted for: through halts, limits, other
      admissions and repeated asks, and not a second longer. */
  lemma {:induction false} LeaseLasts(w: World, steps: seq<Step>, settings: Settings, task: TaskId, token: Token, expires: Time)
    requires Sound(w) && token in w.issued && Owned(w, task, token, expires)
    requires Release(task, token) !in steps
    ensures var w' := Run(w, steps, settings);
      && token in w'.issued
      && (w'.now < expires ==> Owned(w', task, token, expires))
      && (Holds(w'.gate, task, token, w'.now) <==> w'.now < expires)
  {
    if steps != [] {
      var n := |steps| - 1;
      var init, last := steps[..n], steps[n];
      LeaseLasts(w, init, settings, task, token, expires);
      RunSound(w, init, settings);
      var before := Run(w, init, settings);
      assert Run(w, steps, settings) == Next(before, last, settings);
      assert token in Next(before, last, settings).issued && before.now <= Next(before, last, settings).now;
      hide Run, Next, Sound;
      if expires <= before.now {
        StillLost(before, last, settings, task, token);
      } else if Next(before, last, settings).now < expires {
        StepKeepsLease(before, last, settings, task, token, expires);
      } else {
        StepEndsLease(before, last, settings, task, token, expires);
      }
    }
  }

  /** The same from the grant on: the worker may write for `leaseSeconds`, and then no more. */
  lemma GrantLastsOverRuns(w: World, s: Step, steps: seq<Step>, settings: Settings)
    requires Sound(w) && s.Acquire? && Enabled(w, s)
    requires AcquireTx(w.gate, w.halted, s.task, s.when, s.id, s.token, settings).1.Granted?
    requires Release(s.task, s.token) !in steps
    ensures var w' := Run(Next(w, s, settings), steps, settings);
      Holds(w'.gate, s.task, s.token, w'.now) <==> w'.now < s.when + settings.leaseSeconds
  {
    RowsExactly(w.gate, w.halted, s.task, s.when, s.id, s.token, settings);
    StepSound(w, s, settings);
    hide AcquireTx, Sound, Run;
    LeaseLasts(Next(w, s, settings), steps, settings, s.task, s.token, s.when + settings.leaseSeconds);
  }
}
