/** The two budget ledgers, per task and per day, over one table of model-call reservations. */
module Budget {
  import opened Basics

  type TaskId = nat
  type Day = nat
  type ReservationId = nat
  type Digest = nat
  type ModelDecision = nat

  datatype Account = Account(budget: nat, spent: int, reserved: int)

  datatype DayAccount = DayAccount(day: Day, spent: int, reserved: int)

  datatype Reservation = Reservation(
    task: TaskId,
    key: string,
    maximum: int,
    actual: Option<int>,
    dispatched: bool,
    request: Option<Digest>,
    decision: Option<ModelDecision>,
    day: Day)

  /** Rows are only ever appended, so a row's position is its identity. `daily` is the configured budget of every day. */
  datatype Books = Books(daily: nat, tasks: seq<Account>, days: seq<DayAccount>, reservations: seq<Reservation>)

  datatype Code =
    | INVALID_BUDGET
    | INVALID_COST
    | NOT_EXECUTABLE
    | NOT_FOUND
    | BUDGET_CONFLICT
    | DAILY_BUDGET_EXHAUSTED
    | BUDGET_EXHAUSTED
    | SETTLEMENT_CONFLICT
    | INFERENCE_CONFLICT
    | INFERENCE_ALREADY_DISPATCHED

  datatype Reply = Row(id: ReservationId) | Refused(code: Code)

  predicate Matches(r: Reservation, task: TaskId, key: string) { r.task == task && r.key == key }

  /** The reservation of a call, if there is one. */
  function FindCall(rs: seq<Reservation>, task: TaskId, key: string): (i: Option<ReservationId>)
    ensures i.Some? ==> i.value < |rs| && Matches(rs[i.value], task, key)
    ensures i.None? ==> forall k :: 0 <= k < |rs| ==> !Matches(rs[k], task, key)
  {
    if rs == [] then None
    else if Matches(rs[|rs| - 1], task, key) then Some(|rs| - 1)
    else FindCall(rs[..|rs| - 1], task, key)
  }

  function FindDay(days: seq<DayAccount>, day: Day): (i: Option<nat>)
    ensures i.Some? ==> i.value < |days| && days[i.value].day == day
    ensures i.None? ==> forall k :: 0 <= k < |days| ==> days[k].day != day
  {
    if days == [] then None
    else if days[|days| - 1].day == day then Some(|days| - 1)
    else FindDay(days[..|days| - 1], day)
  }

  /** The day's row, inserted if it is missing. */
  function WithDay(days: seq<DayAccount>, day: Day): seq<DayAccount> {
    if FindDay(days, day).Some? then days else days + [DayAccount(day, 0, 0)]
  }

  function ReserveTx(b: Books, task: TaskId, key: string, maximum: int, day: Day, executable: bool): (Books, Reply) {
    if maximum <= 0 then (b, Refused(INVALID_BUDGET))
    else if task >= |b.tasks| then (b, Refused(NOT_FOUND))
    else if !executable then (b, Refused(NOT_EXECUTABLE))
    else
      var known := FindCall(b.reservations, task, key);
      if known.Some? then
        (b, if b.reservations[known.value].maximum == maximum then Row(known.value) else Refused(BUDGET_CONFLICT))
      else
        var days := WithDay(b.days, day);
        var d := FindDay(days, day);
        if d.None? || days[d.value].spent + days[d.value].reserved + maximum > b.daily then (b, Refused(DAILY_BUDGET_EXHAUSTED))
        else if b.tasks[task].spent + b.tasks[task].reserved + maximum > b.tasks[task].budget then (b, Refused(BUDGET_EXHAUSTED))
        else
          (b.(days := days[d.value := days[d.value].(reserved := days[d.value].reserved + maximum)],
              tasks := b.tasks[task := b.tasks[task].(reserved := b.tasks[task].reserved + maximum)],
              reservations := b.reservations + [Reservation(task, key, maximum, None, false, None, None, day)]),
           Row(|b.reservations|))
  }

  function SettleTx(b: Books, id: ReservationId, actual: int, decision: Option<ModelDecision>): (Books, Reply) {
    if actual < 0 then (b, Refused(INVALID_COST))
    else if id >= |b.reservations| then (b, Refused(NOT_FOUND))
    else
      var r := b.reservations[id];
      if r.actual.Some? then (b, if r.actual == Some(actual) then Row(id) else Refused(SETTLEMENT_CONFLICT))
      else
        var settled := b.(reservations := b.reservations[id := r.(actual := Some(actual), decision := decision)]);
        var charged :=
          if r.task < |b.tasks| then
            var t := b.tasks[r.task];
            settled.(tasks := b.tasks[r.task := t.(reserved := t.reserved - r.maximum, spent := t.spent + actual)])
          else settled;
        var d := FindDay(b.days, r.day);
        var booked :=
          if d.Some? then
            var row := b.days[d.value];
            charged.(days := b.days[d.value := row.(reserved := row.reserved - r.maximum, spent := row.spent + actual)])
          else charged;
        (booked, Row(id))
  }

  function BindTx(b: Books, id: ReservationId, request: Digest): (Books, Reply) {
    if id >= |b.reservations| then (b, Refused(NOT_FOUND))
    else
      var r := b.reservations[id];
      var r' := if r.request.None? && !r.dispatched then r.(request := Some(request)) else r;
      if r'.request == Some(request) then (b.(reservations := b.reservations[id := r']), Row(id))
      else (b, Refused(INFERENCE_CONFLICT))
  }

  function ClaimTx(b: Books, id: ReservationId, executable: bool): (Books, Reply) {
    if id >= |b.reservations| then (b, Refused(NOT_FOUND))
    else if !executable then (b, Refused(NOT_EXECUTABLE))
    else
      var r := b.reservations[id];
      if r.dispatched || r.actual.Some? then (b, Refused(INFERENCE_ALREADY_DISPATCHED))
      else (b.(reservations := b.reservations[id := r.(dispatched := true)]), Row(id))
  }

  class BudgetLedger {
    const daily: nat
    var tasks: seq<Account>
    var days: seq<DayAccount>
    var reservations: seq<Reservation>

    function Contents(): Books
      reads this
    {
      Books(daily, tasks, days, reservations)
    }

    constructor (daily: nat)
      ensures Contents() == Books(daily, [], [], [])
    {
      this.daily := daily;
      tasks, days, reservations := [], [], [];
    }

    /** Refusal by the second ledger gives back what the first one took. */
    method Reserve(task: TaskId, key: string, maximum: int, day: Day, executable: bool) returns (reply: Reply)
      modifies this
      ensures (Contents(), reply) == ReserveTx(old(Contents()), task, key, maximum, day, executable)
    {
      if maximum <= 0 { return Refused(INVALID_BUDGET); }
      if task >= |tasks| { return Refused(NOT_FOUND); }
      if !executable { return Refused(NOT_EXECUTABLE); }
      var known := FindCall(reservations, task, key);
      if known.Some? {
        return if reservations[known.value].maximum == maximum then Row(known.value) else Refused(BUDGET_CONFLICT);
      }
      var before := days;
      days := WithDay(days, day);
      var d := FindDay(days, day);
      if d.None? || days[d.value].spent + days[d.value].reserved + maximum > daily {
        days := before;
        return Refused(DAILY_BUDGET_EXHAUSTED);
      }
      days := days[d.value := days[d.value].(reserved := days[d.value].reserved + maximum)];
      if tasks[task].spent + tasks[task].reserved + maximum > tasks[task].budget {
        days := before;
        return Refused(BUDGET_EXHAUSTED);
      }
      tasks := tasks[task := tasks[task].(reserved := tasks[task].reserved + maximum)];
      reservations := reservations + [Reservation(task, key, maximum, None, false, None, None, day)];
      reply := Row(|reservations| - 1);
    }

    method Settle(id: ReservationId, actual: int, decision: Option<ModelDecision>) returns (reply: Reply)
      modifies this
      ensures (Contents(), reply) == SettleTx(old(Contents()), id, actual, decision)
    {
      if actual < 0 { return Refused(INVALID_COST); }
      if id >= |reservations| { return Refused(NOT_FOUND); }
      var r := reservations[id];
      if r.actual.Some? { return if r.actual == Some(actual) then Row(id) else Refused(SETTLEMENT_CONFLICT); }
      reservations := reservations[id := r.(actual := Some(actual), decision := decision)];
      if r.task < |tasks| {
        var t := tasks[r.task];
        tasks := tasks[r.task := t.(reserved := t.reserved - r.maximum, spent := t.spent + actual)];
      }
      var d := FindDay(days, r.day);
      if d.Some? {
        var row := days[d.value];
        days := days[d.value := row.(reserved := row.reserved - r.maximum, spent := row.spent + actual)];
      }
      reply := Row(id);
    }

    method Bind(id: ReservationId, request: Digest) returns (reply: Reply)
      modifies this
      ensures (Contents(), reply) == BindTx(old(Contents()), id, request)
    {
      if id >= |reservations| { return Refused(NOT_FOUND); }
      var before := reservations;
      if reservations[id].request.None? && !reservations[id].dispatched {
        reservations := reservations[id := reservations[id].(request := Some(request))];
      }
      if reservations[id].request != Some(request) {
        reservations := before;
        return Refused(INFERENCE_CONFLICT);
      }
      assert before[id := reservations[id]] == reservations;
      reply := Row(id);
    }

    method ClaimInference(id: ReservationId, executable: bool) returns (reply: Reply)
      modifies this
      ensures (Contents(), reply) == ClaimTx(old(Contents()), id, executable)
    {
      if id >= |reservations| { return Refused(NOT_FOUND); }
      if !executable { return Refused(NOT_EXECUTABLE); }
      var r := reservations[id];
      if r.dispatched || r.actual.Some? { return Refused(INFERENCE_ALREADY_DISPATCHED); }
      reservations := reservations[id := r.(dispatched := true)];
      reply := Row(id);
    }
  }
}
