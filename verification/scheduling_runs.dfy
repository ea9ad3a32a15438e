/** Admission over runs of any length: capacity, fencing and the queue's promise, for any number of workers and tasks. */
module SchedulingRuns {
  import opened Basics
  import opened Domain
  import opened Scheduling

  /** `halted` are the tasks that are cancelled, taken over or over; `issued` and `used` are the identities handed out. */
  datatype World = World(gate: Gate, halted: set<TaskId>, now: Time, issued: set<Token>, used: set<LeaseId>)

  datatype Step =
    | Acquire(task: TaskId, when: Time, id: LeaseId, token: Token)
    | Release(task: TaskId, token: Token)
    | SetLimit(limit: nat)
    | Halt(task: TaskId)
    | Unhalt(task: TaskId)
    | Wait(when: Time)

  predicate Enabled(w: World, s: Step) {
    match s
    case Acquire(_, when, id, token) => w.now <= when && id !in w.used && token !in w.issued
    case SetLimit(limit) => 1 <= limit <= 128
    case Wait(when) => w.now <= when
    case _ => true
  }

  function Next(w: World, s: Step, settings: Settings): World {
    if !Enabled(w, s) then w
    else match s
      case Acquire(task, when, id, token) =>
        World(AcquireTx(w.gate, w.halted, task, when, id, token, settings).0, w.halted, when, w.issued + {token}, w.used + {id})
      case Release(task, token) => w.(gate := ReleaseTx(w.gate, task, token))
      case SetLimit(limit) => w.(gate := SetLimitTx(w.gate, limit))
      case Halt(task) => w.(halted := w.halted + {task})
      case Unhalt(task) => w.(halted := w.halted - {task})
      case Wait(when) => w.(now := when)
  }

  function Run(w: World, steps: seq<Step>, settings: Settings): World {
    if steps == [] then w else Next(Run(w, steps[..|steps| - 1], settings), steps[|steps| - 1], settings)
  }

  const START := World(Gate(0, 0, map[]), {}, 0, {}, {})

  predicate RowSound(w: World, l: Lease) {
    l.id in w.used && l.enqueuedAt <= w.now && (l.owner.Some? ==> l.owner.value in w.issued)
  }

  predicate Sound(w: World) {
    && (forall t :: t in w.gate.leases ==> RowSound(w, w.gate.leases[t]))
    && (forall t, u :: t in w.gate.leases && u in w.gate.leases && t != u ==>
          && w.gate.leases[t].id != w.gate.leases[u].id
          && (w.gate.leases[t].owner.Some? ==> w.gate.leases[t].owner != w.gate.leases[u].owner))
  }

  /** What an admission may have done to a row. */
  lemma AcquireRows(w: World, s: Step, settings: Settings)
    requires Sound(w) && Enabled(w, s) && s.Acquire?
    ensures var leases' := Next(w, s, settings).gate.leases;
      forall t :: t in leases' ==>
        if t != s.task then t in w.gate.leases && leases'[t] == w.gate.leases[t]
        else if t in w.gate.leases && w.gate.leases[t].owner.Some? && s.when < w.gate.leases[t].expiresAt then leases'[t] == w.gate.leases[t]
        else
          && (leases'[t].owner == None || leases'[t].owner == Some(s.token) || leases'[t] == w.gate.leases[t])
          && (if t in w.gate.leases && leases'[t].id != s.id then
                leases'[t].id == w.gate.leases[t].id && leases'[t].enqueuedAt == w.gate.leases[t].enqueuedAt
              else leases'[t].id == s.id && leases'[t].enqueuedAt == s.when)
  {
  }

  lemma StepSound(w: World, s: Step, settings: Settings)
    requires Sound(w)
    ensures Sound(Next(w, s, settings))
  {
    if s.Acquire? && Enabled(w, s) {
      AcquireRows(w, s, settings);
      hide AcquireTx;
    }
  }

  lemma {:induction false} RunSound(w: World, steps: seq<Step>, settings: Settings)
    requires Sound(w)
    ensures Sound(Run(w, steps, settings))
  {
    if steps != [] {
      RunSound(w, steps[..|steps| - 1], settings);
      StepSound(Run(w, steps[..|steps| - 1], settings), steps[|steps| - 1], settings);
    }
  }

  lemma ReachableSound(steps: seq<Step>, settings: Settings)
    ensures Sound(Run(START, steps, settings))
  {
    RunSound(START, steps, settings);
  }

  // ---------- Capacity ----------

  /** Each grant leaves at most as many live owners as the limit in force allows. */
  lemma GrantWithinLimit(
    g: Gate, halted: set<TaskId>, task: TaskId, when: Time, id: LeaseId, token: Token, settings: Settings)
    requires AcquireTx(g, halted, task, when, id, token, settings).1.Granted?
    ensures var g' := AcquireTx(g, halted, task, when, id, token, settings).0;
      |Owners(g'.leases, when)| <= Limit(g, settings) == g'.maxActive
  {
    var g' := AcquireTx(g, halted, task, when, id, token, settings).0;
    var leases := Ticketed(Purged(g.leases, halted, when), task, when, id);
    assert Owners(g'.leases, when) <= Owners(leases, when) + {task};
    SubsetSize(Owners(g'.leases, when), Owners(leases, when) + {task});
  }

  /** No other step, and no admission that is refused, adds a live owner. */
  lemma OnlyGrantsAddOwners(w: World, s: Step, settings: Settings)
    requires Sound(w) && Enabled(w, s)
    requires s.Acquire? ==> AcquireTx(w.gate, w.halted, s.task, s.when, s.id, s.token, settings).1.Deferred?
    ensures var w' := Next(w, s, settings); Owners(w'.gate.leases, w'.now) <= Owners(w.gate.leases, w.now)
  {
  }

  // ---------- Fencing ----------

  /** A token that does not hold now never holds again: leases are not extended, and tokens are not reused. */
  lemma {:induction false} LostForever(w: World, steps: seq<Step>, settings: Settings, task: TaskId, token: Token)
    requires Sound(w) && token in w.issued && !Holds(w.gate, task, token, w.now)
    ensures var w' := Run(w, steps, settings); token in w'.issued && !Holds(w'.gate, task, token, w'.now)
  {
    if steps != [] {
      var init := steps[..|steps| - 1];
      LostForever(w, init, settings, task, token);
      RunSound(w, init, settings);
      StillLost(Run(w, init, settings), steps[|steps| - 1], settings, task, token);
    }
  }

  lemma StillLost(w: World, s: Step, settings: Settings, task: TaskId, token: Token)
    requires Sound(w) && token in w.issued && !Holds(w.gate, task, token, w.now)
    ensures var w' := Next(w, s, settings); token in w'.issued && !Holds(w'.gate, task, token, w'.now)
  {
    if s.Acquire? && Enabled(w, s) {
      AcquireRows(w, s, settings);
      hide AcquireTx;
    }
  }

  /** A grant supersedes every other token of the task, for the rest of every run. */
  lemma Superseded(w: World, s: Step, steps: seq<Step>, settings: Settings, old': Token)
    requires Sound(w) && Enabled(w, s) && s.Acquire? && old' in w.issued
    requires AcquireTx(w.gate, w.halted, s.task, s.when, s.id, s.token, settings).1.Granted?
    ensures var w' := Run(Next(w, s, settings), steps, settings); !Holds(w'.gate, s.task, old', w'.now)
  {
    var w1 := Next(w, s, settings);
    StepSound(w, s, settings);
    LostForever(w1, steps, settings, s.task, old');
  }

  /** `release` with a token that does not own the row removes nothing; otherwise it removes that row alone. */
  lemma ReleaseOwnOnly(w: World, task: TaskId, token: Token, other: TaskId, current: Token)
    requires Sound(w) && Holds(w.gate, other, current, w.now)
    ensures Holds(ReleaseTx(w.gate, task, token), other, current, w.now) <==> !(task == other && token == current)
  {
  }

  // ---------- The queue's promise ----------

  /** Were its task to ask now, the ticket would be served: fewer tickets ahead than free places. */
  predicate Eligible(w: World, task: TaskId, settings: Settings) {
    && task in w.gate.leases
    && w.gate.leases[task].owner.None?
    && w.now < w.gate.leases[task].expiresAt
    && task !in w.halted
    && |Ahead(w.gate.leases, task, w.now)| + |Owners(w.gate.leases, w.now)| < Limit(w.gate, settings)
  }

  /** What may legitimately end a ticket's wait. */
  predicate WaitOver(w: World, w': World, task: TaskId, settings: Settings)
    requires task in w.gate.leases
  {
    || (task in w'.gate.leases && w'.gate.leases[task].owner.Some?)
    || w.gate.leases[task].expiresAt <= w'.now
    || task in w'.halted
    || Limit(w'.gate, settings) < Limit(w.gate, settings)
  }

  lemma Sizes(leases: map<TaskId, Lease>, leases': map<TaskId, Lease>, task: TaskId, now: Time, now': Time)
    requires task in leases && task in leases' && leases'[task].id == leases[task].id
    requires leases'[task].enqueuedAt == leases[task].enqueuedAt
    requires now <= now'
    requires forall t :: t in leases' ==> t in leases && leases'[t].owner == leases[t].owner
                                          && (now' < leases'[t].expiresAt ==> now < leases[t].expiresAt)
                                          && leases'[t].enqueuedAt == leases[t].enqueuedAt && leases'[t].id == leases[t].id
    ensures |Ahead(leases', task, now')| <= |Ahead(leases, task, now)|
    ensures |Owners(leases', now')| <= |Owners(leases, now)|
  {
    SubsetSize(Ahead(leases', task, now'), Ahead(leases, task, now));
    SubsetSize(Owners(leases', now'), Owners(leases, now));
  }

  /** Asking for an eligible ticket gets a grant. */
  lemma EligibleIsServed(w: World, s: Step, settings: Settings)
    requires Sound(w) && Enabled(w, s) && s.Acquire? && Eligible(w, s.task, settings) && s.when < w.gate.leases[s.task].expiresAt
    ensures AcquireTx(w.gate, w.halted, s.task, s.when, s.id, s.token, settings).1 == Granted(s.token)
  {
    var purged := Purged(w.gate.leases, w.halted, s.when);
    Sizes(w.gate.leases, purged, s.task, w.now, s.when);
    TicketSizes(purged, s.task, s.when, s.id);
  }

  lemma TicketSizes(purged: map<TaskId, Lease>, task: TaskId, when: Time, id: LeaseId)
    requires task in purged && purged[task].owner.None? && when < purged[task].expiresAt
    ensures Ahead(Ticketed(purged, task, when, id), task, when) == Ahead(purged, task, when)
    ensures Owners(Ticketed(purged, task, when, id), when) == Owners(purged, when)
  {
  }

  /** The ticket of another task that does not overtake leaves the places ahead as they were. */
  lemma TiedBehind(purged: map<TaskId, Lease>, other: TaskId, task: TaskId, when: Time, id: LeaseId)
    requires task in purged && other != task && purged[task].enqueuedAt <= when && id != purged[task].id
    requires other !in purged ==> !(when == purged[task].enqueuedAt && id < purged[task].id)
    requires other in purged ==> purged[other].owner.None? && when < purged[other].expiresAt
    ensures Ahead(Ticketed(purged, other, when, id), task, when) == Ahead(purged, task, when)
    ensures Owners(Ticketed(purged, other, when, id), when) == Owners(purged, when)
  {
  }

  /** Granting another ticket uses up a place, but a ticket ahead stops being ahead, and a ticket behind had room to spare. */
  lemma GrantKeepsRoom(
    leases: map<TaskId, Lease>, other: TaskId, task: TaskId, when: Time, limit: nat, token: Token, expires: Time)
    requires task in leases && other in leases && other != task && leases[task].id != leases[other].id
    requires leases[task].owner.None? && leases[other].owner.None?
    requires when < leases[task].expiresAt && when < leases[other].expiresAt
    requires |Ahead(leases, task, when)| + |Owners(leases, when)| < limit
    requires |Ahead(leases, other, when)| + |Owners(leases, when)| < limit
    ensures var leases' := leases[other := leases[other].(owner := Some(token), expiresAt := expires)];
      |Ahead(leases', task, when)| + |Owners(leases', when)| < limit
  {
    var leases' := leases[other := leases[other].(owner := Some(token), expiresAt := expires)];
    SubsetSize(Owners(leases', when), Owners(leases, when) + {other});
    assert Ahead(leases', task, when) == Ahead(leases, task, when) - {other};
    if Before(leases[other], leases[task]) {
      assert other in Ahead(leases, task, when);
    } else {
      assert Ahead(leases, task, when) + {task} <= Ahead(leases, other, when);
      SubsetSize(Ahead(leases, task, when) + {task}, Ahead(leases, other, when));
      assert task !in Ahead(leases, task, when);
    }
  }

  /** The steps an admission takes before it decides, seen from another waiting ticket. */
  lemma PurgeKeepsEligible(w: World, s: Step, settings: Settings, task: TaskId)
    requires Sound(w) && Enabled(w, s) && s.Acquire? && Eligible(w, task, settings) && s.when < w.gate.leases[task].expiresAt
    ensures var purged := Purged(w.gate.leases, w.halted, s.when);
      && task in purged
      && |Ahead(purged, task, s.when)| + |Owners(purged, s.when)| < Limit(w.gate, settings)
      && |Ahead(w.gate.leases, task, s.when)| + |Owners(w.gate.leases, s.when)| < Limit(w.gate, settings)
  {
    Sizes(w.gate.leases, Purged(w.gate.leases, w.halted, s.when), task, w.now, s.when);
    Sizes(w.gate.leases, w.gate.leases, task, w.now, s.when);
  }

  /** Another task's admission, from the moment its ticket stands in the queue. */
  lemma DecisionKeepsEligible(
    leases: map<TaskId, Lease>, g: Gate, halted: set<TaskId>, s: Step, settings: Settings, task: TaskId)
    requires s.Acquire? && s.task != task && s.task !in halted
    requires var purged := Purged(g.leases, halted, s.when);
      !(s.task in purged && purged[s.task].owner.Some?) && leases == Ticketed(purged, s.task, s.when, s.id)
    requires task in leases && leases[task].owner.None? && s.when < leases[task].expiresAt && leases[task].id != leases[s.task].id
    requires |Ahead(leases, task, s.when)| + |Owners(leases, s.when)| < Limit(g, settings)
    ensures var g' := AcquireTx(g, halted, s.task, s.when, s.id, s.token, settings).0;
      && Limit(g', settings) == Limit(g, settings)
      && task in g'.leases
      && g'.leases[task] == leases[task]
      && |Ahead(g'.leases, task, s.when)| + |Owners(g'.leases, s.when)| < Limit(g, settings)
  {
    if AcquireTx(g, halted, s.task, s.when, s.id, s.token, settings).1.Granted? {
      GrantKeepsRoom(leases, s.task, task, s.when, Limit(g, settings), s.token, s.when + settings.leaseSeconds);
    }
  }

  lemma AcquireKeepsEligible(w: World, s: Step, settings: Settings, task: TaskId)
    requires Sound(w) && Enabled(w, s) && s.Acquire? && s.task != task && Eligible(w, task, settings)
    requires w.gate.leases[task].enqueuedAt < s.when < w.gate.leases[task].expiresAt
    ensures Eligible(Next(w, s, settings), task, settings)
  {
    var purged := Purged(w.gate.leases, w.halted, s.when);
    PurgeKeepsEligible(w, s, settings, task);
    if s.task !in w.halted && !(s.task in purged && purged[s.task].owner.Some?) {
      assert RowSound(w, w.gate.leases[task]);
      TiedBehind(purged, s.task, task, s.when, s.id);
      DecisionKeepsEligible(Ticketed(purged, s.task, s.when, s.id), w.gate, w.halted, s, settings, task);
    }
  }

  // ---------- Equal clock readings ----------

  /** A newcomer with an equal stamp and a smaller random id enters ahead of the ticket. */
  predicate Overtakes(w: World, s: Step, task: TaskId)
    requires s.Acquire? && task in w.gate.leases
  {
    && s.task !in w.halted
    && s.task !in Purged(w.gate.leases, w.halted, s.when)
    && s.when == w.gate.leases[task].enqueuedAt
    && s.id < w.gate.leases[task].id
  }

  lemma OvertakingSizes(purged: map<TaskId, Lease>, other: TaskId, task: TaskId, when: Time, id: LeaseId)
    requires task in purged && other !in purged && other != task
    requires purged[task].enqueuedAt == when && id < purged[task].id
    ensures Ahead(Ticketed(purged, other, when, id), task, when) == Ahead(purged, task, when) + {other}
    ensures Owners(Ticketed(purged, other, when, id), when) == Owners(purged, when)
    ensures |Ahead(purged, task, when) + {other}| == |Ahead(purged, task, when)| + 1
  {
    assert other !in Ahead(purged, task, when);
  }

  /**
   * With a clock that may stand still the promise fails, and exactly then: a newcomer overtakes on a tied stamp while
   * the ticket had no place to spare.
   */
  lemma EligibilityLostExactly(w: World, s: Step, settings: Settings, task: TaskId)
    requires Sound(w) && Enabled(w, s) && s.Acquire? && s.task != task && Eligible(w, task, settings)
    requires s.when < w.gate.leases[task].expiresAt && settings.leaseSeconds > 0
    ensures var purged := Purged(w.gate.leases, w.halted, s.when);
      !Eligible(Next(w, s, settings), task, settings) <==>
      && Overtakes(w, s, task)
      && |Ahead(purged, task, s.when)| + 1 + |Owners(purged, s.when)| == Limit(w.gate, settings)
  {
    var purged := Purged(w.gate.leases, w.halted, s.when);
    PurgeKeepsEligible(w, s, settings, task);
    assert RowSound(w, w.gate.leases[task]);
    if s.task !in w.halted && !(s.task in purged && purged[s.task].owner.Some?) {
      var leases := Ticketed(purged, s.task, s.when, s.id);
      if Overtakes(w, s, task) {
        OvertakingSizes(purged, s.task, task, s.when, s.id);
        if |Ahead(leases, task, s.when)| + |Owners(leases, s.when)| < Limit(w.gate, settings) {
          DecisionKeepsEligible(leases, w.gate, w.halted, s, settings, task);
        } else {
          FullStaysFull(leases, w.gate, w.halted, s, settings, task);
        }
      } else {
        TiedBehind(purged, s.task, task, s.when, s.id);
        DecisionKeepsEligible(leases, w.gate, w.halted, s, settings, task);
      }
    }
  }

  const ONE_PLACE := Settings(1, 360)

  /** Task 2 takes the only place, task 0 queues behind it, and task 2 leaves. */
  function Queueing(): seq<Step> { [Acquire(2, 4, 1, 0), Acquire(0, 5, 7, 1), Release(2, 0)] }

  lemma FirstOwner()
    ensures Next(START, Acquire(2, 4, 1, 0), ONE_PLACE) == World(Gate(1, 1, map[2 := Lease(1, Some(0), 4, 364)]), {}, 4, {0}, {1})
  {
    var leases := Ticketed(Purged(map[], {}, 4), 2, 4, 1);
    assert Purged(map[], {}, 4) == map[] && leases == map[2 := Lease(1, None, 4, 94)];
    assert Owners(leases, 4) == {} && Ahead(leases, 2, 4) == {};
  }

  lemma SecondQueues(w: World)
    requires w == World(Gate(1, 1, map[2 := Lease(1, Some(0), 4, 364)]), {}, 4, {0}, {1})
    ensures Next(w, Acquire(0, 5, 7, 1), ONE_PLACE) ==
            World(Gate(2, 1, map[2 := Lease(1, Some(0), 4, 364), 0 := Lease(7, None, 5, 95)]), {}, 5, {0, 1}, {1, 7})
  {
    var purged := Purged(w.gate.leases, {}, 5);
    assert purged == w.gate.leases;
    assert Owners(Ticketed(purged, 0, 5, 7), 5) == {2};
  }

  lemma QueueingState()
    ensures Run(START, Queueing(), ONE_PLACE) == World(Gate(2, 1, map[0 := Lease(7, None, 5, 95)]), {}, 5, {0, 1}, {1, 7})
  {
    var steps := Queueing();
    FirstOwner();
    var w1 := Next(START, steps[0], ONE_PLACE);
    SecondQueues(w1);
    var w2 := Next(w1, steps[1], ONE_PLACE);
    assert steps[..2][..1] == steps[..1] && steps[..1][..0] == [];
    assert Run(START, steps[..1], ONE_PLACE) == Next(Run(START, steps[..1][..0], ONE_PLACE), steps[0], ONE_PLACE);
    assert Run(START, steps[..2], ONE_PLACE) == Next(Run(START, steps[..1], ONE_PLACE), steps[1], ONE_PLACE);
    assert ReleaseTx(w2.gate, 2, 0).leases == map[0 := Lease(7, None, 5, 95)];
  }

  /** A run that reaches it: one place, one waiting ticket, and a newcomer that draws the same second and a smaller id. */
  lemma TieExample()
    ensures var w := Run(START, Queueing(), ONE_PLACE);
      var s := Acquire(1, 5, 3, 2);
      && Enabled(w, s) && Eligible(w, 0, ONE_PLACE)
      && !Eligible(Next(w, s, ONE_PLACE), 0, ONE_PLACE)
      && !WaitOver(w, Next(w, s, ONE_PLACE), 0, ONE_PLACE)
  {
    QueueingState();
    ReachableSound(Queueing(), ONE_PLACE);
    var w := Run(START, Queueing(), ONE_PLACE);
    hide Run, Queueing;
    TiedNewcomer(w);
  }

  lemma TiedNewcomer(w: World)
    requires Sound(w) && w == World(Gate(2, 1, map[0 := Lease(7, None, 5, 95)]), {}, 5, {0, 1}, {1, 7})
    ensures var s := Acquire(1, 5, 3, 2);
      && Enabled(w, s) && Eligible(w, 0, ONE_PLACE)
      && !Eligible(Next(w, s, ONE_PLACE), 0, ONE_PLACE)
      && !WaitOver(w, Next(w, s, ONE_PLACE), 0, ONE_PLACE)
  {
    var purged := Purged(w.gate.leases, w.halted, 5);
    assert Ahead(w.gate.leases, 0, 5) == {} && Owners(w.gate.leases, 5) == {};
    assert purged == w.gate.leases;
    EligibilityLostExactly(w, Acquire(1, 5, 3, 2), ONE_PLACE, 0);
    assert Next(w, Acquire(1, 5, 3, 2), ONE_PLACE).gate.leases[0] == Lease(7, None, 5, 95);
  }

  /** Granting the overtaker gives back its place in the queue and takes one in the room. */
  lemma FullStaysFull(leases: map<TaskId, Lease>, g: Gate, halted: set<TaskId>, s: Step, settings: Settings, task: TaskId)
    requires s.Acquire? && s.task != task && s.task !in halted
    requires var purged := Purged(g.leases, halted, s.when);
      s.task !in purged && leases == Ticketed(purged, s.task, s.when, s.id)
    requires task in leases && leases[task].owner.None?
    requires s.task in Ahead(leases, task, s.when)
    requires |Ahead(leases, task, s.when)| + |Owners(leases, s.when)| >= Limit(g, settings)
    requires settings.leaseSeconds > 0
    ensures var g' := AcquireTx(g, halted, s.task, s.when, s.id, s.token, settings).0;
      && Limit(g', settings) == Limit(g, settings)
      && task in g'.leases
      && |Ahead(g'.leases, task, s.when)| + |Owners(g'.leases, s.when)| >= Limit(g, settings)
  {
    if AcquireTx(g, halted, s.task, s.when, s.id, s.token, settings).1.Granted? {
      var g' := AcquireTx(g, halted, s.task, s.when, s.id, s.token, settings).0;
      assert Ahead(g'.leases, task, s.when) == Ahead(leases, task, s.when) - {s.task};
      assert Owners(g'.leases, s.when) == Owners(leases, s.when) + {s.task};
    }
  }

  /**
   * No lost eligibility: while the clock moves on between admissions, an eligible ticket stays eligible through every
   * step of everybody, until it is granted, expires, its task is stopped or the limit is lowered.
   */
  lemma StepKeepsEligible(w: World, s: Step, settings: Settings, task: TaskId)
    requires Sound(w) && Eligible(w, task, settings)
    requires s.Acquire? ==> w.now < s.when
    ensures var w' := Next(w, s, settings); Eligible(w', task, settings) || WaitOver(w, w', task, settings)
  {
    var w' := Next(w, s, settings);
    if Enabled(w, s) && !WaitOver(w, w', task, settings) {
      match s
      case Acquire(other, when, id, token) =>
        if other == task {
          EligibleIsServed(w, s, settings);
        } else {
          AcquireKeepsEligible(w, s, settings, task);
        }
      case Release(other, token) => Sizes(w.gate.leases, w'.gate.leases, task, w.now, w.now);
      case SetLimit(limit) =>
      case Halt(_) =>
      case Unhalt(_) =>
      case Wait(when) => Sizes(w.gate.leases, w.gate.leases, task, w.now, when);
    }
  }

  /** Every admission happens strictly later than the step before it. */
  predicate ClockAdvances(w: World, steps: seq<Step>, settings: Settings) {
    forall i :: 0 <= i < |steps| && steps[i].Acquire? ==> Run(w, steps[..i], settings).now < steps[i].when
  }

  /** Nothing that may end the wait of the ticket happened in the run. */
  predicate StillWaits(w: World, steps: seq<Step>, settings: Settings, task: TaskId) {
    forall i :: 0 <= i < |steps| ==>
                  task in Run(w, steps[..i], settings).gate.leases
                  ==> !WaitOver(Run(w, steps[..i], settings), Run(w, steps[..i + 1], settings), task, settings)
  }

  lemma {:induction false} RunKeepsEligible(w: World, steps: seq<Step>, settings: Settings, task: TaskId)
    requires Sound(w) && Eligible(w, task, settings)
    requires ClockAdvances(w, steps, settings) && StillWaits(w, steps, settings, task)
    ensures Eligible(Run(w, steps, settings), task, settings)
  {
    if steps != [] {
      var n := |steps| - 1;
      var init := steps[..n];
      assert forall i :: 0 <= i <= n ==> init[..i] == steps[..i];
      RunKeepsEligible(w, init, settings, task);
      RunSound(w, init, settings);
      assert steps[..n + 1] == steps;
      assert !WaitOver(Run(w, steps[..n], settings), Run(w, steps[..n + 1], settings), task, settings);
      StepKeepsEligible(Run(w, init, settings), steps[n], settings, task);
    }
  }
}
