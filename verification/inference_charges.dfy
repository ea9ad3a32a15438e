/** Who pays for a model call: an unanswered one is charged in full, an answered one by its usage, in one call and over all runs. */
module InferenceCharges {
  import opened Basics
  import opened Budget
  import opened BudgetRuns
  import opened BudgetCharges
  import opened Inference
  import opened Gateway

  /** What an answer costs its caller, and what may be saved of it. */
  predicate ChargedAs(response: Response, maximum: int, actual: int, decision: Option<ModelDecision>) {
    match response
    case NoAnswer => actual == maximum && decision == None
    case Unusable(cost) => actual == cost && decision == None
    case Decided(cost, value) => actual == cost && decision == Some(value)
  }

  // ---------- One uninterrupted call ----------

  /** The reservation of a call: the known one, or the next. */
  predicate IsRowOf(b: Books, task: TaskId, key: string, id: ReservationId) {
    if id < |b.reservations| then b.reservations[id].task == task && b.reservations[id].key == key
    else id == |b.reservations| && !Known(b, task, key)
  }

  /** Nothing stands in the way of reserving and binding. */
  predicate MayCall(b: Books, task: TaskId, key: string, request: Digest, maximum: int, day: Day, id: ReservationId) {
    && maximum > 0
    && task < |b.tasks|
    && IsRowOf(b, task, key, id)
    && if id < |b.reservations| then
         var r := b.reservations[id];
         && r.maximum == maximum && !r.dispatched && r.actual.None? && r.decision.None?
         && (r.request == None || r.request == Some(request))
       else FitsDay(b, day, maximum) && FitsTask(b, task, maximum)
  }

  function DayOf(b: Books, id: ReservationId, day: Day): Day { if id < |b.reservations| then b.reservations[id].day else day }

  /** What the call already held before it started. */
  function HeldBefore(b: Books, id: ReservationId, maximum: int): int { if id < |b.reservations| then maximum else 0 }

  lemma RowIsFound(b: Books, task: TaskId, key: string, id: ReservationId)
    requires CallsDistinct(b.reservations) && IsRowOf(b, task, key, id)
    ensures FindCall(b.reservations, task, key) == if id < |b.reservations| then Some(id) else None
  {
    var known := FindCall(b.reservations, task, key);
    if id < |b.reservations| { assert Matches(b.reservations[id], task, key); }
    if known.Some? { assert Matches(b.reservations[known.value], task, key); }
  }

  /** The reservation of the call, held and bound. */
  lemma CallHeld(b: Books, task: TaskId, key: string, request: Digest, maximum: int, day: Day, id: ReservationId)
    requires Sound(b) && MayCall(b, task, key, request, maximum, day, id)
    ensures var (b1, reserved) := ReserveTx(b, task, key, maximum, day, true);
      var (b2, bound) := BindTx(b1, id, request);
      var held := maximum - HeldBefore(b, id, maximum);
      && reserved == Row(id) && bound == Row(id) && Sound(b2)
      && id < |b2.reservations| && |b.reservations| <= |b2.reservations| && b2.daily == b.daily
      && TaskMoves(b, b2, task, 0, held) && DayMoves(b, b2, DayOf(b, id, day), 0, held)
      && b2.reservations[id] == Reservation(task, key, maximum, None, false, Some(request), None, DayOf(b, id, day))
      && (forall k :: 0 <= k < |b.reservations| && k != id ==> b2.reservations[k] == b.reservations[k])
  {
    hide Sound;
    var b1 := ReserveTx(b, task, key, maximum, day, true).0;
    assert CallsDistinct(b.reservations) by { SoundCalls(b); }
    RowIsFound(b, task, key, id);
    ReserveAnswers(b, task, key, maximum, day, true);
    if id == |b.reservations| { ReserveHolds(b, task, key, maximum, day, true); } else {
      assert Matches(b.reservations[id], task, key) && Known(b, task, key);
      assert b1 == b;
    }
    ReserveSound(b, task, key, maximum, day, true);
    BudgetRuns.StepSound(b1, Bind(id, request));
    BindAnswers(b1, id, request);
    hide ReserveTx, BindTx, FindDay;
  }

  lemma SoundCalls(b: Books)
    requires Sound(b)
    ensures CallsDistinct(b.reservations)
  {
  }

  /** A known reservation that stands in the way. */
  lemma KnownInTheWay(
    b: Books, task: TaskId, key: string, request: Digest, maximum: int, day: Day,
    mayReserve: bool, valid: bool, mayClaim: bool, response: Response, id: ReservationId)
    requires CallsDistinct(b.reservations) && id < |b.reservations| && IsRowOf(b, task, key, id)
    requires !(mayReserve && MayCall(b, task, key, request, maximum, day, id))
    ensures !GenerateTx(b, task, key, request, maximum, day, mayReserve, valid, mayClaim, response).2
  {
    RowIsFound(b, task, key, id);
    ReserveAnswers(b, task, key, maximum, day, mayReserve);
    assert Known(b, task, key);
    BindAnswers(b, id, request);
    ClaimAnswers(BindTx(b, id, request).0, id, mayClaim);
    assert ReserveTx(b, task, key, maximum, day, mayReserve).0 == b;
    assert ReserveTx(b, task, key, maximum, day, mayReserve).1.Row? ==> ReserveTx(b, task, key, maximum, day, mayReserve).1 == Row(id);
    hide ReserveTx, BindTx, ClaimTx, FindCall;
  }

  /** The call is posted exactly if its reservation fits, or waits undispatched, binds this request, and both permissions are
      given. */
  lemma PostedExactly(
    b: Books, task: TaskId, key: string, request: Digest, maximum: int, day: Day,
    mayReserve: bool, valid: bool, mayClaim: bool, response: Response, id: ReservationId)
    requires Sound(b) && IsRowOf(b, task, key, id)
    ensures GenerateTx(b, task, key, request, maximum, day, mayReserve, valid, mayClaim, response).2 <==>
            mayReserve && mayClaim && MayCall(b, task, key, request, maximum, day, id)
  {
    SoundCalls(b);
    hide Sound, FindCall;
    if MayCall(b, task, key, request, maximum, day, id) && mayReserve {
      CallHeld(b, task, key, request, maximum, day, id);
      ClaimAnswers(BindTx(ReserveTx(b, task, key, maximum, day, true).0, id, request).0, id, mayClaim);
      hide ReserveTx, BindTx, ClaimTx, MayCall;
    } else if id < |b.reservations| {
      KnownInTheWay(b, task, key, request, maximum, day, mayReserve, valid, mayClaim, response, id);
    } else {
      ReserveAnswers(b, task, key, maximum, day, mayReserve);
      hide ReserveTx, BindTx, ClaimTx;
    }
  }

  /** A posted call is settled before it returns: without usage its whole maximum is charged to the task and to the day, with usage
      its cost; what was held is given back, the decision is saved if it is usable, and nothing else changes. */
  lemma CallCharges(
    b: Books, task: TaskId, key: string, request: Digest, maximum: int, day: Day,
    mayReserve: bool, valid: bool, mayClaim: bool, response: Response, id: ReservationId)
    requires Sound(b) && IsRowOf(b, task, key, id)
    requires GenerateTx(b, task, key, request, maximum, day, mayReserve, valid, mayClaim, response).2
    ensures var (b', decision, _) := GenerateTx(b, task, key, request, maximum, day, mayReserve, valid, mayClaim, response);
      var charge := if response.NoAnswer? then maximum else response.cost;
      && decision == (if response.Decided? then Some(response.decision) else None)
      && id < |b'.reservations| && |b.reservations| <= |b'.reservations|
      && b'.reservations[id] ==
           Reservation(task, key, maximum, Some(charge), true, Some(request), decision, DayOf(b, id, day))
      && (forall k :: 0 <= k < |b.reservations| && k != id ==> b'.reservations[k] == b.reservations[k])
      && TaskMoves(b, b', task, charge, -HeldBefore(b, id, maximum))
      && DayMoves(b, b', DayOf(b, id, day), charge, -HeldBefore(b, id, maximum))
  {
    hide GenerateTx, PayTx, ReserveTx, BindTx, Sound, MayCall, IsRowOf, TaskMoves, DayMoves;
    PostedExactly(b, task, key, request, maximum, day, mayReserve, valid, mayClaim, response, id);
    CallHeld(b, task, key, request, maximum, day, id);
    var b2 := BindTx(ReserveTx(b, task, key, maximum, day, true).0, id, request).0;
    PaidFromBound(b, task, key, request, maximum, day, valid, mayClaim, response, id);
    var b' := GenerateTx(b, task, key, request, maximum, day, mayReserve, valid, mayClaim, response).0;
    Positive(b, task, key, request, maximum, day, id);
    PayCharges(b2, id, maximum, mayClaim, response);
    var charge := if response.NoAnswer? then maximum else response.cost;
    TasksMove(b, b2, b', task, maximum - HeldBefore(b, id, maximum), charge, -maximum);
    DaysMove(b, b2, b', DayOf(b, id, day), maximum - HeldBefore(b, id, maximum), charge, -maximum);
  }

  lemma Positive(b: Books, task: TaskId, key: string, request: Digest, maximum: int, day: Day, id: ReservationId)
    requires MayCall(b, task, key, request, maximum, day, id)
    ensures maximum > 0 && id <= |b.reservations|
  {
  }

  lemma PaidFromBound(
    b: Books, task: TaskId, key: string, request: Digest, maximum: int, day: Day,
    valid: bool, mayClaim: bool, response: Response, id: ReservationId)
    requires var (b1, reserved) := ReserveTx(b, task, key, maximum, day, true);
      var (b2, bound) := BindTx(b1, id, request);
      && reserved == Row(id) && bound == Row(id) && id < |b2.reservations|
      && b2.reservations[id].decision.None? && b2.reservations[id].actual.None?
    ensures GenerateTx(b, task, key, request, maximum, day, true, valid, mayClaim, response) ==
            PayTx(BindTx(ReserveTx(b, task, key, maximum, day, true).0, id, request).0, id, maximum, mayClaim, response)
  {
    hide ReserveTx, BindTx, PayTx;
  }

  lemma TasksMove(b: Books, b2: Books, b': Books, task: TaskId, held: int, spent: int, freed: int)
    requires TaskMoves(b, b2, task, 0, held) && TaskMoves(b2, b', task, spent, freed)
    ensures TaskMoves(b, b', task, spent, held + freed)
  {
  }

  lemma DaysMove(b: Books, b2: Books, b': Books, day: Day, held: int, spent: int, freed: int)
    requires DayMoves(b, b2, day, 0, held) && DayMoves(b2, b', day, spent, freed)
    ensures DayMoves(b, b', day, spent, held + freed)
  {
    forall d: Day ensures
      && DaySpent(b', d) == DaySpent(b, d) + (if d == day then spent else 0)
      && DayHeld(b', d) == DayHeld(b, d) + (if d == day then held + freed else 0)
    {
      assert DaySpent(b2, d) == DaySpent(b, d) + 0;
      assert DaySpent(b', d) == DaySpent(b2, d) + (if d == day then spent else 0);
    }
  }

  /** From the claim on. */
  lemma PayCharges(b: Books, id: ReservationId, maximum: int, mayClaim: bool, response: Response)
    requires Sound(b) && id < |b.reservations| && b.reservations[id].maximum == maximum > 0 && PayTx(b, id, maximum, mayClaim, response).2
    ensures var (b', decision, _) := PayTx(b, id, maximum, mayClaim, response);
      var r := b.reservations[id];
      var charge := if response.NoAnswer? then maximum else response.cost;
      && decision == (if response.Decided? then Some(response.decision) else None)
      && b'.reservations == b.reservations[id := r.(dispatched := true, actual := Some(charge), decision := decision)]
      && TaskMoves(b, b', r.task, charge, -maximum)
      && DayMoves(b, b', r.day, charge, -maximum)
  {
    hide Sound;
    ClaimAnswers(b, id, mayClaim);
    var b3 := ClaimTx(b, id, mayClaim).0;
    BudgetRuns.StepSound(b, Claim(id, mayClaim));
    var charge := if response.NoAnswer? then maximum else response.cost;
    var saved := if response.Decided? then Some(response.decision) else None;
    SettleCharges(b3, id, charge, saved);
    hide ClaimTx, SettleTx;
    assert b3.tasks == b.tasks && b3.days == b.days;
    assert forall d: Day :: DaySpent(b3, d) == DaySpent(b, d) && DayHeld(b3, d) == DayHeld(b, d);
  }

  /** A call that was not posted spends nothing, and returns nothing but the decision that was saved for it. */
  lemma UnpostedSpendsNothing(
    b: Books, task: TaskId, key: string, request: Digest, maximum: int, day: Day,
    mayReserve: bool, valid: bool, mayClaim: bool, response: Response, id: ReservationId)
    requires Sound(b) && IsRowOf(b, task, key, id)
    requires !GenerateTx(b, task, key, request, maximum, day, mayReserve, valid, mayClaim, response).2
    ensures var (b', decision, _) := GenerateTx(b, task, key, request, maximum, day, mayReserve, valid, mayClaim, response);
      && |b'.tasks| == |b.tasks|
      && (forall t :: 0 <= t < |b.tasks| ==> b'.tasks[t].spent == b.tasks[t].spent)
      && (forall d: Day :: DaySpent(b', d) == DaySpent(b, d))
      && (decision.Some? <==>
            && valid && mayReserve && maximum > 0 && task < |b.tasks|
            && id < |b.reservations|
            && b.reservations[id].maximum == maximum
            && b.reservations[id].decision.Some?
            && (b.reservations[id].request == Some(request) || (b.reservations[id].request == None && !b.reservations[id].dispatched)))
      && (decision.Some? ==> decision == b.reservations[id].decision)
  {
    SoundCalls(b);
    hide Sound, FindCall;
    PostedExactly(b, task, key, request, maximum, day, mayReserve, valid, mayClaim, response, id);
    RowIsFound(b, task, key, id);
    var (b1, reserved) := ReserveTx(b, task, key, maximum, day, mayReserve);
    var (b', decision, _) := GenerateTx(b, task, key, request, maximum, day, mayReserve, valid, mayClaim, response);
    ReserveAnswers(b, task, key, maximum, day, mayReserve);
    if mayReserve && MayCall(b, task, key, request, maximum, day, id) {
      CallHeld(b, task, key, request, maximum, day, id);
      var b2 := BindTx(b1, id, request).0;
      ClaimAnswers(b2, id, mayClaim);
      hide ReserveTx, BindTx, ClaimTx;
      assert b' == b2 && decision == None;
      assert forall d: Day :: DaySpent(b2, d) == DaySpent(b, d);
    } else if id < |b.reservations| {
      KnownUnposted(b, task, key, request, maximum, day, mayReserve, valid, mayClaim, response, id);
    } else {
      hide ReserveTx, BindTx, ClaimTx;
      assert b' == b && decision == None;
    }
  }

  lemma KnownUnposted(
    b: Books, task: TaskId, key: string, request: Digest, maximum: int, day: Day,
    mayReserve: bool, valid: bool, mayClaim: bool, response: Response, id: ReservationId)
    requires CallsDistinct(b.reservations) && id < |b.reservations| && IsRowOf(b, task, key, id)
    requires !GenerateTx(b, task, key, request, maximum, day, mayReserve, valid, mayClaim, response).2
    ensures var (b', decision, _) := GenerateTx(b, task, key, request, maximum, day, mayReserve, valid, mayClaim, response);
      && b'.tasks == b.tasks && b'.days == b.days
      && (decision.Some? <==>
            && valid && mayReserve && maximum > 0 && task < |b.tasks|
            && b.reservations[id].maximum == maximum
            && b.reservations[id].decision.Some?
            && (b.reservations[id].request == Some(request) || (b.reservations[id].request == None && !b.reservations[id].dispatched)))
      && (decision.Some? ==> decision == b.reservations[id].decision)
  {
    RowIsFound(b, task, key, id);
    ReserveAnswers(b, task, key, maximum, day, mayReserve);
    assert Known(b, task, key);
    BindAnswers(b, id, request);
    ClaimAnswers(BindTx(b, id, request).0, id, mayClaim);
    assert ReserveTx(b, task, key, maximum, day, mayReserve).0 == b;
    assert ReserveTx(b, task, key, maximum, day, mayReserve).1.Row? ==> ReserveTx(b, task, key, maximum, day, mayReserve).1 == Row(id);
    hide ReserveTx, BindTx, ClaimTx, FindCall;
  }

  // ---------- All runs ----------

  predicate AnswerOf(w: World, k: nat, id: ReservationId, maximum: int, actual: int, decision: Option<ModelDecision>) {
    k < |w.posts| && w.posts[k].id == id && ChargedAs(w.posts[k].response, maximum, actual, decision)
  }

  /** A settled row was charged as the answer to its request says. */
  ghost predicate RowCharged(w: World, id: ReservationId)
    requires id < |w.books.reservations|
  {
    var r := w.books.reservations[id];
    r.actual.Some? ==> exists k: nat :: AnswerOf(w, k, id, r.maximum, r.actual.value, r.decision)
  }

  /** A worker that is about to settle an answer has it from its own request. */
  ghost predicate WorkerCharges(w: World, i: nat)
    requires i < |w.workers|
  {
    var me := w.workers[i];
    me.stage.Answered? ==> exists k: nat :: AnswerOf(w, k, me.stage.id, me.maximum, me.stage.actual, me.stage.decision)
  }

  ghost predicate Charged(w: World) {
    && (forall id :: 0 <= id < |w.books.reservations| ==> RowCharged(w, id))
    && (forall i :: 0 <= i < |w.workers| ==> WorkerCharges(w, i))
  }

  /** No settled row and no answered worker is new. */
  predicate SamePaid(w: World, w': World) {
    && w.posts <= w'.posts
    && (forall id :: 0 <= id < |w'.books.reservations| && w'.books.reservations[id].actual.Some? ==>
          && id < |w.books.reservations|
          && w'.books.reservations[id].actual == w.books.reservations[id].actual
          && w'.books.reservations[id].decision == w.books.reservations[id].decision
          && w'.books.reservations[id].maximum == w.books.reservations[id].maximum)
    && (forall i :: 0 <= i < |w'.workers| && w'.workers[i].stage.Answered? ==> i < |w.workers| && w'.workers[i] == w.workers[i])
  }

  lemma SamePaidCharged(w: World, w': World)
    requires Charged(w) && SamePaid(w, w')
    ensures Charged(w')
  {
    forall id | 0 <= id < |w'.books.reservations| ensures RowCharged(w', id) {
      var r := w'.books.reservations[id];
      if r.actual.Some? {
        assert RowCharged(w, id);
        var k: nat :| AnswerOf(w, k, id, r.maximum, r.actual.value, r.decision);
        assert AnswerOf(w', k, id, r.maximum, r.actual.value, r.decision);
      }
    }
    forall i | 0 <= i < |w'.workers| ensures WorkerCharges(w', i) {
      var me := w'.workers[i];
      if me.stage.Answered? {
        assert WorkerCharges(w, i);
        var k: nat :| AnswerOf(w, k, me.stage.id, me.maximum, me.stage.actual, me.stage.decision);
        assert AnswerOf(w', k, me.stage.id, me.maximum, me.stage.actual, me.stage.decision);
      }
    }
  }

  lemma ReserveSamePaid(w: World, s: Inference.Step)
    requires s.DoReserve?
    ensures SamePaid(w, Inference.Next(w, s))
  {
    if Stands(w, s.worker) {
      var me := w.workers[s.worker];
      ReserveEvolves(w.books, me.task, me.key, me.maximum, s.day, s.executable);
      hide ReserveTx;
    }
  }

  lemma MarkSamePaid(w: World, s: Inference.Step)
    requires s.DoBind? || s.DoClaim?
    ensures SamePaid(w, Inference.Next(w, s))
  {
  }

  lemma OtherSamePaid(w: World, s: Inference.Step)
    requires s.OpenTask? || s.Spawn? || s.Crash?
    ensures SamePaid(w, Inference.Next(w, s))
  {
  }

  lemma PostCharged(w: World, s: Inference.Step)
    requires Charged(w) && s.DoPost?
    ensures Charged(Inference.Next(w, s))
  {
    var w' := Inference.Next(w, s);
    if Stands(w, s.worker) && w.workers[s.worker].stage.Claimed? {
      var me := w'.workers[s.worker];
      assert SamePaid(w, w'.(workers := w.workers));
      SamePaidCharged(w, w'.(workers := w.workers));
      assert AnswerOf(w', |w.posts|, me.stage.id, me.maximum, me.stage.actual, me.stage.decision);
      forall id | 0 <= id < |w'.books.reservations| ensures RowCharged(w', id) {
        assert RowCharged(w'.(workers := w.workers), id);
        var r := w'.books.reservations[id];
        if r.actual.Some? {
          var k: nat :| AnswerOf(w'.(workers := w.workers), k, id, r.maximum, r.actual.value, r.decision);
          assert AnswerOf(w', k, id, r.maximum, r.actual.value, r.decision);
        }
      }
      forall i | 0 <= i < |w'.workers| ensures WorkerCharges(w', i) {
        if i != s.worker { StillCharges(w, w', i); }
      }
    }
  }

  lemma StillCharges(w: World, w': World, i: nat)
    requires i < |w.workers| && i < |w'.workers| && WorkerCharges(w, i) && w'.workers[i] == w.workers[i] && w.posts <= w'.posts
    ensures WorkerCharges(w', i)
  {
    var me := w.workers[i];
    if me.stage.Answered? {
      var k: nat :| AnswerOf(w, k, me.stage.id, me.maximum, me.stage.actual, me.stage.decision);
      assert AnswerOf(w', k, me.stage.id, me.maximum, me.stage.actual, me.stage.decision);
    }
  }

  lemma SettleCharged(w: World, s: Inference.Step)
    requires Protocol(w) && Charged(w) && s.DoSettle?
    ensures Charged(Inference.Next(w, s))
  {
    var w' := Inference.Next(w, s);
    if Stands(w, s.worker) && w.workers[s.worker].stage.Answered? {
      var me := w.workers[s.worker];
      assert WorkerSound(w.books, me) && WorkerCharges(w, s.worker);
      SettleRows(w.books, me.stage.id, me.stage.actual, me.stage.decision);
      hide SettleTx, Protocol;
      var k: nat :| AnswerOf(w, k, me.stage.id, me.maximum, me.stage.actual, me.stage.decision);
      forall id | 0 <= id < |w'.books.reservations| ensures RowCharged(w', id) {
        assert RowCharged(w, id);
        var r := w'.books.reservations[id];
        if id == me.stage.id && r.actual.Some? && w.books.reservations[id].actual.None? {
          assert AnswerOf(w', k, id, r.maximum, r.actual.value, r.decision);
        } else if r.actual.Some? {
          var j: nat :| AnswerOf(w, j, id, r.maximum, r.actual.value, r.decision);
          assert AnswerOf(w', j, id, r.maximum, r.actual.value, r.decision);
        }
      }
      forall i | 0 <= i < |w'.workers| ensures WorkerCharges(w', i) {
        if i != s.worker { StillCharges(w, w', i); }
      }
    }
  }

  lemma StepCharged(w: World, s: Inference.Step)
    requires Protocol(w) && Charged(w)
    ensures Charged(Inference.Next(w, s))
  {
    hide Protocol, Charged, SamePaid, Inference.Next;
    match s
    case DoReserve(_, _, _) => ReserveSamePaid(w, s); SamePaidCharged(w, Inference.Next(w, s));
    case DoBind(_, _) => MarkSamePaid(w, s); SamePaidCharged(w, Inference.Next(w, s));
    case DoClaim(_, _) => MarkSamePaid(w, s); SamePaidCharged(w, Inference.Next(w, s));
    case DoPost(_, _) => PostCharged(w, s);
    case DoSettle(_) => SettleCharged(w, s);
    case _ => OtherSamePaid(w, s); SamePaidCharged(w, Inference.Next(w, s));
  }

  lemma {:induction false} RunCharged(daily: nat, steps: seq<Inference.Step>)
    ensures Charged(Inference.Run(Start(daily), steps))
  {
    if steps != [] {
      var init := steps[..|steps| - 1];
      RunCharged(daily, init);
      RunKeeps(daily, init);
      hide Protocol, Charged, Sound, Inference.Next;
      StepCharged(Inference.Run(Start(daily), init), steps[|steps| - 1]);
    }
  }

  /** Over all interleavings and crashes: every settled reservation has exactly one request, and was charged as its answer says;
      an unanswered one in full and without a decision. A reservation without a request is not charged. */
  lemma ChargedByTheAnswer(daily: nat, steps: seq<Inference.Step>, id: ReservationId)
    requires id < |Inference.Run(Start(daily), steps).books.reservations|
    ensures var w := Inference.Run(Start(daily), steps);
      var r := w.books.reservations[id];
      && (r.actual.Some? ==> exists p :: p in w.posts && p.id == id && ChargedAs(p.response, r.maximum, r.actual.value, r.decision))
      && (r.actual.None? ==> r.decision.None?)
      && (forall p :: p in w.posts && p.id == id ==>
            r.dispatched && (r.actual.Some? ==> ChargedAs(p.response, r.maximum, r.actual.value, r.decision)))
  {
    RunCharged(daily, steps);
    RunKeeps(daily, steps);
    var w := Inference.Run(Start(daily), steps);
    var r := w.books.reservations[id];
    assert RowSound(r) && RowCharged(w, id);
    hide Inference.Run, Sound;
    if r.actual.Some? {
      var k: nat :| AnswerOf(w, k, id, r.maximum, r.actual.value, r.decision);
      assert w.posts[k] in w.posts;
      forall p | p in w.posts && p.id == id ensures p == w.posts[k] {
        var j :| 0 <= j < |w.posts| && w.posts[j] == p;
        assert j == k;
      }
    }
    forall p | p in w.posts && p.id == id ensures r.dispatched {
      var j :| 0 <= j < |w.posts| && w.posts[j] == p;
      assert PostSound(w.books, w.posts[j]);
    }
  }
}
