/** What each ledger transaction does to the accounts, exactly: who is charged, how much, and when it is refused. */
module BudgetCharges {
  import opened Basics
  import opened Budget
  import opened BudgetRuns

  // ---------- The amounts of a day ----------

  function DaySpent(b: Books, day: Day): int {
    var d := FindDay(b.days, day); if d.Some? then b.days[d.value].spent else 0
  }

  function DayHeld(b: Books, day: Day): int {
    var d := FindDay(b.days, day); if d.Some? then b.days[d.value].reserved else 0
  }

  lemma {:induction false} SamePlace(days: seq<DayAccount>, days': seq<DayAccount>, day: Day)
    requires |days| == |days'| && forall i :: 0 <= i < |days| ==> days[i].day == days'[i].day
    ensures FindDay(days, day) == FindDay(days', day)
  {
    if days != [] { SamePlace(days[..|days| - 1], days'[..|days| - 1], day); }
  }

  lemma PlaceAppended(days: seq<DayAccount>, row: DayAccount, day: Day)
    ensures FindDay(days + [row], day) == if row.day == day then Some(|days|) else FindDay(days, day)
  {
    assert (days + [row])[..|days|] == days;
  }

  /** The day's account changes by these amounts, and no other day's. */
  ghost predicate DayMoves(b: Books, b': Books, day: Day, spent: int, held: int) {
    forall d: Day ::
      && DaySpent(b', d) == DaySpent(b, d) + (if d == day then spent else 0)
      && DayHeld(b', d) == DayHeld(b, d) + (if d == day then held else 0)
  }

  /** The task's account changes by these amounts, and no other task's. */
  predicate TaskMoves(b: Books, b': Books, task: TaskId, spent: int, held: int) {
    && |b'.tasks| == |b.tasks|
    && forall t :: 0 <= t < |b.tasks| ==>
         b'.tasks[t] == Account(b.tasks[t].budget,
                                b.tasks[t].spent + (if t == task then spent else 0),
                                b.tasks[t].reserved + (if t == task then held else 0))
  }

  /** Changing the amounts of the row found for a day changes that day's amounts alone. */
  lemma RowMoves(b: Books, b': Books, day: Day, spent: int, held: int)
    requires var d := FindDay(b.days, day);
      d.Some? && b'.days == b.days[d.value := DayAccount(day, b.days[d.value].spent + spent, b.days[d.value].reserved + held)]
    ensures DayMoves(b, b', day, spent, held)
  {
    forall d: Day ensures
      && DaySpent(b', d) == DaySpent(b, d) + (if d == day then spent else 0)
      && DayHeld(b', d) == DayHeld(b, d) + (if d == day then held else 0)
    {
      SamePlace(b.days, b'.days, d);
      SamePlace(b.days, b'.days, day);
    }
  }

  /** A day's missing row counts as an empty account. */
  lemma WithDayMoves(b: Books, day: Day)
    ensures var b' := b.(days := WithDay(b.days, day));
      DayMoves(b, b', day, 0, 0) && FindDay(b'.days, day).Some?
  {
    var b' := b.(days := WithDay(b.days, day));
    forall d: Day ensures DaySpent(b', d) == DaySpent(b, d) && DayHeld(b', d) == DayHeld(b, d) {
      if FindDay(b.days, day).None? { PlaceAppended(b.days, DayAccount(day, 0, 0), d); }
    }
    if FindDay(b.days, day).None? { PlaceAppended(b.days, DayAccount(day, 0, 0), day); }
  }

  // ---------- Reserving ----------

  predicate Known(b: Books, task: TaskId, key: string) {
    exists k :: 0 <= k < |b.reservations| && b.reservations[k].task == task && b.reservations[k].key == key
  }

  predicate FitsDay(b: Books, day: Day, maximum: int) { DaySpent(b, day) + DayHeld(b, day) + maximum <= b.daily }

  predicate FitsTask(b: Books, task: TaskId, maximum: int)
    requires task < |b.tasks|
  {
    b.tasks[task].spent + b.tasks[task].reserved + maximum <= b.tasks[task].budget
  }

  /** The answers to a reservation, in the order in which they are looked for. */
  lemma ReserveAnswers(b: Books, task: TaskId, key: string, maximum: int, day: Day, executable: bool)
    ensures var (b', reply) := ReserveTx(b, task, key, maximum, day, executable);
      var open := maximum > 0 && task < |b.tasks| && executable;
      && (reply == Refused(INVALID_BUDGET) <==> maximum <= 0)
      && (reply == Refused(NOT_FOUND) <==> maximum > 0 && task >= |b.tasks|)
      && (reply == Refused(NOT_EXECUTABLE) <==> maximum > 0 && task < |b.tasks| && !executable)
      && (open && Known(b, task, key) ==>
            && b' == b
            && (reply.Row? || reply == Refused(BUDGET_CONFLICT))
            && (reply.Row? ==> reply.id < |b.reservations| && b.reservations[reply.id].task == task
                               && b.reservations[reply.id].key == key && b.reservations[reply.id].maximum == maximum)
            && (reply.Refused? ==> exists k :: 0 <= k < |b.reservations| && b.reservations[k].task == task
                                               && b.reservations[k].key == key && b.reservations[k].maximum != maximum))
      && (open && !Known(b, task, key) ==>
            && (reply == Refused(DAILY_BUDGET_EXHAUSTED) <==> !FitsDay(b, day, maximum))
            && (reply == Refused(BUDGET_EXHAUSTED) <==> FitsDay(b, day, maximum) && !FitsTask(b, task, maximum))
            && (reply == Row(|b.reservations|) <==> FitsDay(b, day, maximum) && FitsTask(b, task, maximum)))
      && (reply.Refused? ==> b' == b)
  {
    WithDayMoves(b, day);
    var c := b.(days := WithDay(b.days, day));
    assert DaySpent(c, day) == DaySpent(b, day) && DayHeld(c, day) == DayHeld(b, day);
    hide FindDay, WithDay;
  }

  lemma NewRow(b: Books, task: TaskId, key: string, maximum: int, day: Day, executable: bool)
    requires maximum > 0 && task < |b.tasks| && executable && !Known(b, task, key)
    requires FitsDay(b, day, maximum) && FitsTask(b, task, maximum)
    ensures var b' := ReserveTx(b, task, key, maximum, day, executable).0;
      var days := WithDay(b.days, day);
      var d := FindDay(days, day);
      && d.Some?
      && b'.daily == b.daily
      && b'.days == days[d.value := days[d.value].(reserved := days[d.value].reserved + maximum)]
      && b'.tasks == b.tasks[task := b.tasks[task].(reserved := b.tasks[task].reserved + maximum)]
      && b'.reservations == b.reservations + [Reservation(task, key, maximum, None, false, None, None, day)]
  {
    WithDayMoves(b, day);
    var c := b.(days := WithDay(b.days, day));
    assert DaySpent(c, day) == DaySpent(b, day) && DayHeld(c, day) == DayHeld(b, day);
    hide FindDay, WithDay, DayMoves;
  }

  /** A new reservation holds its maximum in both ledgers. */
  lemma ReserveHolds(b: Books, task: TaskId, key: string, maximum: int, day: Day, executable: bool)
    requires maximum > 0 && task < |b.tasks| && executable && !Known(b, task, key)
    requires FitsDay(b, day, maximum) && FitsTask(b, task, maximum)
    ensures var b' := ReserveTx(b, task, key, maximum, day, executable).0;
      && b'.daily == b.daily
      && b'.reservations == b.reservations + [Reservation(task, key, maximum, None, false, None, None, day)]
      && TaskMoves(b, b', task, 0, maximum)
      && DayMoves(b, b', day, 0, maximum)
  {
    hide ReserveTx, FindDay, WithDay, Known, FitsDay, FitsTask, DaySpent, DayHeld;
    NewRow(b, task, key, maximum, day, executable);
    var c := b.(days := WithDay(b.days, day));
    WithDayMoves(b, day);
    RowMoves(c, ReserveTx(b, task, key, maximum, day, executable).0, day, 0, maximum);
  }

  // ---------- Settling ----------

  /** The answers to a settlement: it is taken once, and repeated only with the same amount. */
  lemma SettleAnswers(b: Books, id: ReservationId, actual: int, decision: Option<ModelDecision>)
    ensures var (b', reply) := SettleTx(b, id, actual, decision);
      && (reply == Refused(INVALID_COST) <==> actual < 0)
      && (reply == Refused(NOT_FOUND) <==> actual >= 0 && id >= |b.reservations|)
      && (actual >= 0 && id < |b.reservations| ==>
            && (reply == Refused(SETTLEMENT_CONFLICT) <==>
                  b.reservations[id].actual.Some? && b.reservations[id].actual.value != actual)
            && (reply == Row(id) <==> b.reservations[id].actual.None? || b.reservations[id].actual.value == actual)
            && (b.reservations[id].actual.Some? ==> b' == b))
      && (reply.Refused? ==> b' == b)
  {
  }

  /** The first settlement gives the held maximum back to both ledgers and charges them the amount. */
  lemma SettleCharges(b: Books, id: ReservationId, actual: int, decision: Option<ModelDecision>)
    requires Sound(b) && actual >= 0 && id < |b.reservations| && b.reservations[id].actual.None?
    ensures var (b', reply) := SettleTx(b, id, actual, decision);
      var r := b.reservations[id];
      && reply == Row(id)
      && b'.daily == b.daily
      && b'.reservations == b.reservations[id := r.(actual := Some(actual), decision := decision)]
      && TaskMoves(b, b', r.task, actual, -r.maximum)
      && DayMoves(b, b', r.day, actual, -r.maximum)
  {
    var b', r := SettleTx(b, id, actual, decision).0, b.reservations[id];
    assert RowBooked(b, r);
    RowMoves(b, b', r.day, actual, -r.maximum);
  }

  // ---------- Binding and claiming ----------

  /** A request is bound once, before the dispatch; afterwards only the same request passes. */
  lemma BindAnswers(b: Books, id: ReservationId, request: Digest)
    ensures var (b', reply) := BindTx(b, id, request);
      && (reply == Refused(NOT_FOUND) <==> id >= |b.reservations|)
      && (id < |b.reservations| ==>
            var r := b.reservations[id];
            && (reply == Row(id) <==> r.request == Some(request) || (r.request == None && !r.dispatched))
            && (reply == Refused(INFERENCE_CONFLICT) <==> !(r.request == Some(request) || (r.request == None && !r.dispatched)))
            && (reply == Row(id) ==> b' == b.(reservations := b.reservations[id := r.(request := Some(request))])))
      && (reply.Refused? ==> b' == b)
  {
  }

  /** A call is claimed once, and never after it was settled. */
  lemma ClaimAnswers(b: Books, id: ReservationId, executable: bool)
    ensures var (b', reply) := ClaimTx(b, id, executable);
      && (reply == Refused(NOT_FOUND) <==> id >= |b.reservations|)
      && (reply == Refused(NOT_EXECUTABLE) <==> id < |b.reservations| && !executable)
      && (id < |b.reservations| && executable ==>
            var r := b.reservations[id];
            && (reply == Row(id) <==> !r.dispatched && r.actual.None?)
            && (reply == Refused(INFERENCE_ALREADY_DISPATCHED) <==> r.dispatched || r.actual.Some?)
            && (reply == Row(id) ==> b' == b.(reservations := b.reservations[id := r.(dispatched := true)])))
      && (reply.Refused? ==> b' == b)
  {
  }
}
