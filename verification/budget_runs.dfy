/** Conservation of the budget in both ledgers, over any sequence of reservations, bindings, claims and settlements. */
module BudgetRuns {
  import opened Basics
  import opened Budget

  // ---------- Sums over the reservation table ----------

  datatype Measure = Held | Paid | Overrun

  datatype Scope = All | OfTask(task: TaskId) | OfDay(day: Day)

  predicate InScope(r: Reservation, s: Scope) {
    match s
    case All => true
    case OfTask(task) => r.task == task
    case OfDay(day) => r.day == day
  }

  function Amount(r: Reservation, m: Measure): int {
    match m
    case Held => if r.actual.None? then r.maximum else 0
    case Paid => if r.actual.Some? then r.actual.value else 0
    case Overrun => if r.actual.Some? && r.actual.value > r.maximum then r.actual.value - r.maximum else 0
  }

  function Share(r: Reservation, s: Scope, m: Measure): int { if InScope(r, s) then Amount(r, m) else 0 }

  function Sum(rs: seq<Reservation>, s: Scope, m: Measure): int {
    if rs == [] then 0 else Sum(rs[..|rs| - 1], s, m) + Share(rs[|rs| - 1], s, m)
  }

  lemma SumAppend(rs: seq<Reservation>, r: Reservation, s: Scope, m: Measure)
    ensures Sum(rs + [r], s, m) == Sum(rs, s, m) + Share(r, s, m)
  {
    assert (rs + [r])[..|rs|] == rs;
  }

  lemma {:induction false} SumUpdate(rs: seq<Reservation>, i: nat, r: Reservation, s: Scope, m: Measure)
    requires i < |rs|
    ensures Sum(rs[i := r], s, m) == Sum(rs, s, m) - Share(rs[i], s, m) + Share(r, s, m)
  {
    var n := |rs| - 1;
    if i == n {
      assert rs[i := r][..n] == rs[..n];
    } else {
      assert rs[i := r][..n] == rs[..n][i := r];
      SumUpdate(rs[..n], i, r, s, m);
    }
  }

  lemma {:induction false} OverrunsNonnegative(rs: seq<Reservation>, s: Scope)
    ensures Sum(rs, s, Overrun) >= 0
    ensures (forall r :: r in rs && r.actual.Some? ==> r.actual.value <= r.maximum) ==> Sum(rs, s, Overrun) == 0
  {
    if rs != [] {
      OverrunsNonnegative(rs[..|rs| - 1], s);
      assert rs[|rs| - 1] in rs && forall r :: r in rs[..|rs| - 1] ==> r in rs;
    }
  }

  function SumOver(rs: seq<Reservation>, scopes: seq<Scope>, m: Measure): int {
    if scopes == [] then 0 else SumOver(rs, scopes[..|scopes| - 1], m) + Sum(rs, scopes[|scopes| - 1], m)
  }

  /** How often a row is counted when every scope is summed up. */
  function Counted(r: Reservation, scopes: seq<Scope>): nat {
    if scopes == [] then 0
    else Counted(r, scopes[..|scopes| - 1]) + if InScope(r, scopes[|scopes| - 1]) then 1 else 0
  }

  function ShareOver(r: Reservation, scopes: seq<Scope>, m: Measure): int {
    if scopes == [] then 0 else ShareOver(r, scopes[..|scopes| - 1], m) + Share(r, scopes[|scopes| - 1], m)
  }

  lemma {:induction false} CountedOnce(r: Reservation, scopes: seq<Scope>, m: Measure)
    requires Counted(r, scopes) <= 1
    ensures ShareOver(r, scopes, m) == if Counted(r, scopes) == 1 then Amount(r, m) else 0
  {
    if scopes != [] { CountedOnce(r, scopes[..|scopes| - 1], m); }
  }

  lemma {:induction false} SumOverAppend(rs: seq<Reservation>, r: Reservation, scopes: seq<Scope>, m: Measure)
    ensures SumOver(rs + [r], scopes, m) == SumOver(rs, scopes, m) + ShareOver(r, scopes, m)
  {
    if scopes != [] {
      SumOverAppend(rs, r, scopes[..|scopes| - 1], m);
      SumAppend(rs, r, scopes[|scopes| - 1], m);
    }
  }

  lemma {:induction false} SumOverEmpty(scopes: seq<Scope>, m: Measure)
    ensures SumOver([], scopes, m) == 0
  {
    if scopes != [] { SumOverEmpty(scopes[..|scopes| - 1], m); }
  }

  /** Scopes that count every row once add up to the whole table. */
  lemma {:induction false} Partition(rs: seq<Reservation>, scopes: seq<Scope>, m: Measure)
    requires forall r :: r in rs ==> Counted(r, scopes) == 1
    ensures SumOver(rs, scopes, m) == Sum(rs, All, m)
  {
    if rs == [] {
      SumOverEmpty(scopes, m);
    } else {
      var init, last := rs[..|rs| - 1], rs[|rs| - 1];
      assert rs == init + [last];
      Partition(init, scopes, m);
      SumOverAppend(init, last, scopes, m);
      CountedOnce(last, scopes, m);
    }
  }

  // ---------- The invariant ----------

  predicate TaskBalanced(b: Books, t: TaskId)
    requires t < |b.tasks|
  {
    var a := b.tasks[t];
    && a.reserved == Sum(b.reservations, OfTask(t), Held)
    && a.spent == Sum(b.reservations, OfTask(t), Paid)
    && a.spent + a.reserved <= a.budget + Sum(b.reservations, OfTask(t), Overrun)
  }

  predicate DayBalanced(b: Books, d: nat)
    requires d < |b.days|
  {
    var a := b.days[d];
    && a.reserved == Sum(b.reservations, OfDay(a.day), Held)
    && a.spent == Sum(b.reservations, OfDay(a.day), Paid)
    && a.spent + a.reserved <= b.daily + Sum(b.reservations, OfDay(a.day), Overrun)
  }

  predicate RowBooked(b: Books, r: Reservation) {
    && r.maximum > 0
    && r.task < |b.tasks|
    && FindDay(b.days, r.day).Some?
  }

  predicate DaysDistinct(days: seq<DayAccount>) {
    forall i, j :: 0 <= i < j < |days| ==> days[i].day != days[j].day
  }

  predicate CallsDistinct(rs: seq<Reservation>) {
    forall i, j :: 0 <= i < j < |rs| ==> !(rs[i].task == rs[j].task && rs[i].key == rs[j].key)
  }

  predicate Sound(b: Books) {
    && (forall t :: 0 <= t < |b.tasks| ==> TaskBalanced(b, t))
    && (forall d :: 0 <= d < |b.days| ==> DayBalanced(b, d))
    && (forall i :: 0 <= i < |b.reservations| ==> RowBooked(b, b.reservations[i]))
    && DaysDistinct(b.days)
    && CallsDistinct(b.reservations)
  }

  datatype Step =
    | Open(budget: nat)
    | Reserve(task: TaskId, key: string, maximum: int, day: Day, executable: bool)
    | Settle(id: ReservationId, actual: int, decision: Option<ModelDecision>)
    | Bind(id: ReservationId, request: Digest)
    | Claim(id: ReservationId, executable: bool)

  function Next(b: Books, s: Step): Books {
    match s
    case Open(budget) => b.(tasks := b.tasks + [Account(budget, 0, 0)])
    case Reserve(task, key, maximum, day, executable) => ReserveTx(b, task, key, maximum, day, executable).0
    case Settle(id, actual, decision) => SettleTx(b, id, actual, decision).0
    case Bind(id, request) => BindTx(b, id, request).0
    case Claim(id, executable) => ClaimTx(b, id, executable).0
  }

  function Run(b: Books, steps: seq<Step>): Books {
    if steps == [] then b else Next(Run(b, steps[..|steps| - 1]), steps[|steps| - 1])
  }

  /** Nothing is booked to a task or a day nobody reserved for. */
  lemma {:induction false} NothingBooked(rs: seq<Reservation>, s: Scope, m: Measure)
    requires forall r :: r in rs ==> !InScope(r, s)
    ensures Sum(rs, s, m) == 0
  {
    if rs != [] {
      assert rs[|rs| - 1] in rs;
      NothingBooked(rs[..|rs| - 1], s, m);
    }
  }

  lemma OpenSound(b: Books, budget: nat)
    requires Sound(b)
    ensures Sound(Next(b, Open(budget)))
  {
    var b' := Next(b, Open(budget));
    forall m: Measure ensures Sum(b.reservations, OfTask(|b.tasks|), m) == 0 {
      NothingBooked(b.reservations, OfTask(|b.tasks|), m);
    }
    forall t | 0 <= t < |b'.tasks| ensures TaskBalanced(b', t) {
      if t < |b.tasks| { assert TaskBalanced(b, t); }
    }
    forall d | 0 <= d < |b'.days| ensures DayBalanced(b', d) { assert DayBalanced(b, d); }
  }

  /** Inserting a day's row changes no balance. */
  lemma WithDaySound(b: Books, day: Day)
    requires Sound(b)
    ensures Sound(b.(days := WithDay(b.days, day)))
    ensures FindDay(WithDay(b.days, day), day).Some?
  {
    var days := WithDay(b.days, day);
    if FindDay(b.days, day).None? {
      var b' := b.(days := days);
      forall i | 0 <= i < |b.reservations| ensures b.reservations[i].day != day && RowBooked(b', b.reservations[i]) {
        assert RowBooked(b, b.reservations[i]);
        StillFound(b.days, day, b.reservations[i].day);
      }
      forall m: Measure ensures Sum(b.reservations, OfDay(day), m) == 0 {
        NothingBooked(b.reservations, OfDay(day), m);
      }
      forall d | 0 <= d < |days| ensures DayBalanced(b', d) {
        if d < |b.days| { assert DayBalanced(b, d); }
      }
      forall t | 0 <= t < |b.tasks| ensures TaskBalanced(b', t) { assert TaskBalanced(b, t); }
    }
  }

  lemma StillFound(days: seq<DayAccount>, day: Day, other: Day)
    requires FindDay(days, other).Some?
    ensures FindDay(days + [DayAccount(day, 0, 0)], other).Some?
  {
    var all := days + [DayAccount(day, 0, 0)];
    assert all[FindDay(days, other).value].day == other;
  }

  /** Changing only the amounts of one row keeps the days findable. */
  lemma SameDays(days: seq<DayAccount>, days': seq<DayAccount>, day: Day)
    requires |days| == |days'| && forall i :: 0 <= i < |days| ==> days[i].day == days'[i].day
    ensures FindDay(days, day).Some? <==> FindDay(days', day).Some?
  {
    if FindDay(days, day).Some? { assert days'[FindDay(days, day).value].day == day; }
    if FindDay(days', day).Some? { assert days[FindDay(days', day).value].day == day; }
  }

  lemma ReserveSound(b: Books, task: TaskId, key: string, maximum: int, day: Day, executable: bool)
    requires Sound(b)
    ensures Sound(ReserveTx(b, task, key, maximum, day, executable).0)
  {
    var b' := ReserveTx(b, task, key, maximum, day, executable).0;
    if b' != b {
      WithDaySound(b, day);
      HoldSound(b.(days := WithDay(b.days, day)), task, key, maximum, day);
    }
  }

  /** Holding an amount that both accounts can bear. */
  lemma HoldSound(c: Books, task: TaskId, key: string, maximum: int, day: Day)
    requires Sound(c) && task < |c.tasks| && FindDay(c.days, day).Some? && maximum > 0
    requires FindCall(c.reservations, task, key).None?
    requires c.tasks[task].spent + c.tasks[task].reserved + maximum <= c.tasks[task].budget
    requires var a := c.days[FindDay(c.days, day).value]; a.spent + a.reserved + maximum <= c.daily
    ensures var d := FindDay(c.days, day).value;
      Sound(c.(days := c.days[d := c.days[d].(reserved := c.days[d].reserved + maximum)],
               tasks := c.tasks[task := c.tasks[task].(reserved := c.tasks[task].reserved + maximum)],
               reservations := c.reservations + [Reservation(task, key, maximum, None, false, None, None, day)]))
  {
    hide FindCall;
    var r := Reservation(task, key, maximum, None, false, None, None, day);
    var d0 := FindDay(c.days, day).value;
    var b' := c.(days := c.days[d0 := c.days[d0].(reserved := c.days[d0].reserved + maximum)],
                 tasks := c.tasks[task := c.tasks[task].(reserved := c.tasks[task].reserved + maximum)],
                 reservations := c.reservations + [r]);
    hide FindDay;
    forall t | 0 <= t < |b'.tasks| ensures TaskBalanced(b', t) { HoldTask(c, b', r, t); }
    forall d | 0 <= d < |b'.days| ensures DayBalanced(b', d) { HoldDay(c, b', r, d); }
    forall i | 0 <= i < |b'.reservations| ensures RowBooked(b', b'.reservations[i]) {
      SameDays(c.days, b'.days, b'.reservations[i].day);
      if i < |c.reservations| { assert RowBooked(c, c.reservations[i]); }
    }
  }

  lemma HoldTask(c: Books, b': Books, r: Reservation, t: TaskId)
    requires t < |c.tasks| == |b'.tasks| && TaskBalanced(c, t) && r.actual.None?
    requires b'.reservations == c.reservations + [r]
    requires b'.tasks[t] == if t == r.task then c.tasks[t].(reserved := c.tasks[t].reserved + r.maximum) else c.tasks[t]
    requires t == r.task ==> c.tasks[t].spent + c.tasks[t].reserved + r.maximum <= c.tasks[t].budget
    ensures TaskBalanced(b', t)
  {
    SumAppend(c.reservations, r, OfTask(t), Held);
    SumAppend(c.reservations, r, OfTask(t), Paid);
    SumAppend(c.reservations, r, OfTask(t), Overrun);
    OverrunsNonnegative(c.reservations, OfTask(t));
  }

  lemma HoldDay(c: Books, b': Books, r: Reservation, d: nat)
    requires d < |c.days| == |b'.days| && DayBalanced(c, d) && r.actual.None? && b'.daily == c.daily
    requires b'.reservations == c.reservations + [r]
    requires b'.days[d] == if c.days[d].day == r.day then c.days[d].(reserved := c.days[d].reserved + r.maximum) else c.days[d]
    requires c.days[d].day == r.day ==> c.days[d].spent + c.days[d].reserved + r.maximum <= c.daily
    ensures DayBalanced(b', d)
  {
    SumAppend(c.reservations, r, OfDay(c.days[d].day), Held);
    SumAppend(c.reservations, r, OfDay(c.days[d].day), Paid);
    SumAppend(c.reservations, r, OfDay(c.days[d].day), Overrun);
    OverrunsNonnegative(c.reservations, OfDay(c.days[d].day));
  }

  lemma SettleSound(b: Books, id: ReservationId, actual: int, decision: Option<ModelDecision>)
    requires Sound(b)
    ensures Sound(SettleTx(b, id, actual, decision).0)
  {
    var b' := SettleTx(b, id, actual, decision).0;
    if b' != b {
      var r := b.reservations[id];
      var r' := r.(actual := Some(actual), decision := decision);
      assert RowBooked(b, r) && b'.reservations == b.reservations[id := r'];
      forall t | 0 <= t < |b'.tasks| ensures TaskBalanced(b', t) {
        assert TaskBalanced(b, t);
        SumUpdate(b.reservations, id, r', OfTask(t), Held);
        SumUpdate(b.reservations, id, r', OfTask(t), Paid);
        SumUpdate(b.reservations, id, r', OfTask(t), Overrun);
      }
      forall d | 0 <= d < |b'.days| ensures DayBalanced(b', d) {
        assert DayBalanced(b, d);
        SumUpdate(b.reservations, id, r', OfDay(b.days[d].day), Held);
        SumUpdate(b.reservations, id, r', OfDay(b.days[d].day), Paid);
        SumUpdate(b.reservations, id, r', OfDay(b.days[d].day), Overrun);
      }
      forall i | 0 <= i < |b'.reservations| ensures RowBooked(b', b'.reservations[i]) {
        SameDays(b.days, b'.days, b'.reservations[i].day);
        assert RowBooked(b, b.reservations[i]);
      }
    }
  }

  /** Binding and claiming touch no amount. */
  lemma MarkSound(b: Books, id: ReservationId, r: Reservation)
    requires Sound(b) && id < |b.reservations|
    requires r == b.reservations[id].(dispatched := r.dispatched, request := r.request)
    ensures Sound(b.(reservations := b.reservations[id := r]))
  {
    var b' := b.(reservations := b.reservations[id := r]);
    forall s: Scope, m: Measure ensures Sum(b'.reservations, s, m) == Sum(b.reservations, s, m) {
      SumUpdate(b.reservations, id, r, s, m);
    }
    forall t | 0 <= t < |b'.tasks| ensures TaskBalanced(b', t) { assert TaskBalanced(b, t); }
    forall d | 0 <= d < |b'.days| ensures DayBalanced(b', d) { assert DayBalanced(b, d); }
    forall i | 0 <= i < |b'.reservations| ensures RowBooked(b', b'.reservations[i]) { assert RowBooked(b, b.reservations[i]); }
  }

  lemma StepSound(b: Books, s: Step)
    requires Sound(b)
    ensures Sound(Next(b, s))
  {
    hide Sound;
    match s
    case Open(budget) => OpenSound(b, budget);
    case Reserve(task, key, maximum, day, executable) => ReserveSound(b, task, key, maximum, day, executable);
    case Settle(id, actual, decision) => SettleSound(b, id, actual, decision);
    case Bind(id, request) => if Next(b, s) != b { MarkSound(b, id, Next(b, s).reservations[id]); }
    case Claim(id, executable) => if Next(b, s) != b { MarkSound(b, id, Next(b, s).reservations[id]); }
  }

  lemma {:induction false} RunSound(daily: nat, steps: seq<Step>)
    ensures Sound(Run(Books(daily, [], [], []), steps))
    ensures Run(Books(daily, [], [], []), steps).daily == daily
  {
    if steps != [] {
      RunSound(daily, steps[..|steps| - 1]);
      StepSound(Run(Books(daily, [], [], []), steps[..|steps| - 1]), steps[|steps| - 1]);
    }
  }

  // ---------- Conservation ----------

  function TaskScopes(n: nat): seq<Scope> { seq(n, t requires 0 <= t < n => OfTask(t)) }

  function DayScopes(days: seq<DayAccount>): seq<Scope> { seq(|days|, d requires 0 <= d < |days| => OfDay(days[d].day)) }

  function TasksTotal(tasks: seq<Account>): (int, int) {
    if tasks == [] then (0, 0)
    else
      var (spent, reserved) := TasksTotal(tasks[..|tasks| - 1]);
      (spent + tasks[|tasks| - 1].spent, reserved + tasks[|tasks| - 1].reserved)
  }

  function DaysTotal(days: seq<DayAccount>): (int, int) {
    if days == [] then (0, 0)
    else
      var (spent, reserved) := DaysTotal(days[..|days| - 1]);
      (spent + days[|days| - 1].spent, reserved + days[|days| - 1].reserved)
  }

  lemma {:induction false} CountedTask(r: Reservation, n: nat)
    ensures Counted(r, TaskScopes(n)) == if r.task < n then 1 else 0
  {
    if n > 0 {
      CountedTask(r, n - 1);
      assert TaskScopes(n)[..n - 1] == TaskScopes(n - 1);
    }
  }

  lemma {:induction false} CountedDay(r: Reservation, days: seq<DayAccount>)
    requires DaysDistinct(days)
    ensures Counted(r, DayScopes(days)) == if FindDay(days, r.day).Some? then 1 else 0
  {
    if days != [] {
      var n := |days| - 1;
      CountedDay(r, days[..n]);
      assert DayScopes(days)[..n] == DayScopes(days[..n]);
      if days[n].day == r.day {
        assert forall i :: 0 <= i < n ==> days[..n][i].day != r.day;
      }
    }
  }

  lemma {:induction false} TasksTotalIsSum(b: Books, n: nat)
    requires Sound(b) && n <= |b.tasks|
    ensures TasksTotal(b.tasks[..n]) ==
            (SumOver(b.reservations, TaskScopes(n), Paid), SumOver(b.reservations, TaskScopes(n), Held))
  {
    if n > 0 {
      TasksTotalIsSum(b, n - 1);
      assert b.tasks[..n][..n - 1] == b.tasks[..n - 1] && TaskScopes(n)[..n - 1] == TaskScopes(n - 1);
      assert TaskBalanced(b, n - 1);
    }
  }

  lemma {:induction false} DaysTotalIsSum(b: Books, n: nat)
    requires Sound(b) && n <= |b.days|
    ensures DaysTotal(b.days[..n]) ==
            (SumOver(b.reservations, DayScopes(b.days[..n]), Paid), SumOver(b.reservations, DayScopes(b.days[..n]), Held))
  {
    if n > 0 {
      DaysTotalIsSum(b, n - 1);
      assert b.days[..n][..n - 1] == b.days[..n - 1];
      assert DayScopes(b.days[..n])[..n - 1] == DayScopes(b.days[..n - 1]);
      assert DayBalanced(b, n - 1);
    }
  }

  /** The two ledgers agree: what all tasks spent and hold is what all days spent and hold. */
  lemma LedgersAgree(b: Books)
    requires Sound(b)
    ensures TasksTotal(b.tasks) == DaysTotal(b.days)
    ensures TasksTotal(b.tasks) == (Sum(b.reservations, All, Paid), Sum(b.reservations, All, Held))
  {
    assert b.tasks[..|b.tasks|] == b.tasks && b.days[..|b.days|] == b.days;
    TasksTotalIsSum(b, |b.tasks|);
    DaysTotalIsSum(b, |b.days|);
    forall r | r in b.reservations
      ensures Counted(r, TaskScopes(|b.tasks|)) == 1 && Counted(r, DayScopes(b.days)) == 1
    {
      var i :| 0 <= i < |b.reservations| && b.reservations[i] == r;
      assert RowBooked(b, b.reservations[i]);
      CountedTask(r, |b.tasks|);
      CountedDay(r, b.days);
    }
    Partition(b.reservations, TaskScopes(|b.tasks|), Paid);
    Partition(b.reservations, TaskScopes(|b.tasks|), Held);
    Partition(b.reservations, DayScopes(b.days), Paid);
    Partition(b.reservations, DayScopes(b.days), Held);
  }

  /** While no call costs more than it reserved, no task and no day ever exceeds its budget. */
  lemma BudgetsRespected(daily: nat, steps: seq<Step>)
    requires var b := Run(Books(daily, [], [], []), steps);
      forall r :: r in b.reservations && r.actual.Some? ==> r.actual.value <= r.maximum
    ensures var b := Run(Books(daily, [], [], []), steps);
      && (forall t :: 0 <= t < |b.tasks| ==> b.tasks[t].spent + b.tasks[t].reserved <= b.tasks[t].budget)
      && (forall d :: 0 <= d < |b.days| ==> b.days[d].spent + b.days[d].reserved <= daily)
  {
    RunSound(daily, steps);
    var b := Run(Books(daily, [], [], []), steps);
    forall t | 0 <= t < |b.tasks| ensures b.tasks[t].spent + b.tasks[t].reserved <= b.tasks[t].budget {
      assert TaskBalanced(b, t);
      OverrunsNonnegative(b.reservations, OfTask(t));
    }
    forall d | 0 <= d < |b.days| ensures b.days[d].spent + b.days[d].reserved <= daily {
      assert DayBalanced(b, d);
      OverrunsNonnegative(b.reservations, OfDay(b.days[d].day));
    }
  }
}
