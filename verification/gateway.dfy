/** One uninterrupted paid call: reserve, bind, reuse or claim, post, settle. */
module Gateway {
  import opened Basics
  import opened Budget
  import opened Inference

  /** The five moves of the only worker. */
  function Moves(day: Day, mayReserve: bool, valid: bool, mayClaim: bool, response: Response): seq<Inference.Step> {
    [DoReserve(0, day, mayReserve), DoBind(0, valid), DoClaim(0, mayClaim), DoPost(0, response), DoSettle(0)]
  }

  function Alone(books: Books, task: TaskId, key: string, request: Digest, maximum: int): World {
    World(books, [Worker(task, key, request, maximum, Starting)], [])
  }

  lemma RunFive(w: World, steps: seq<Inference.Step>)
    requires |steps| == 5
    ensures Inference.Run(w, steps) ==
            Inference.Next(Inference.Next(Inference.Next(Inference.Next(Inference.Next(w, steps[0]), steps[1]), steps[2]), steps[3]), steps[4])
  {
    hide Inference.Next;
    var four, three, two, one := steps[..4], steps[..3], steps[..2], steps[..1];
    assert four[..3] == three && three[..2] == two && two[..1] == one && one[..0] == [];
    assert Inference.Run(w, one) == Inference.Next(Inference.Run(w, one[..0]), one[0]);
    assert Inference.Run(w, two) == Inference.Next(Inference.Run(w, two[..1]), two[1]);
    assert Inference.Run(w, three) == Inference.Next(Inference.Run(w, three[..2]), three[2]);
    assert Inference.Run(w, four) == Inference.Next(Inference.Run(w, four[..3]), four[3]);
  }

  /** The ledger after the call, the decision it returns, and whether the provider was called. */
  function GenerateTx(
    books: Books, task: TaskId, key: string, request: Digest, maximum: int, day: Day,
    mayReserve: bool, valid: bool, mayClaim: bool, response: Response): (Books, Option<ModelDecision>, bool)
  {
    var (b1, reserved) := ReserveTx(books, task, key, maximum, day, mayReserve);
    if reserved.Refused? then (b1, None, false)
    else
      var id := reserved.id;
      var (b2, bound) := BindTx(b1, id, request);
      if bound.Refused? || id >= |b2.reservations| then (b2, None, false)
      else if b2.reservations[id].decision.Some? then (b2, if valid then b2.reservations[id].decision else None, false)
      else if b2.reservations[id].actual.Some? then (b2, None, false)
      else PayTx(b2, id, maximum, mayClaim, response)
  }

  function PayTx(b: Books, id: ReservationId, maximum: int, mayClaim: bool, response: Response): (Books, Option<ModelDecision>, bool) {
    var (b3, claimed) := ClaimTx(b, id, mayClaim);
    if claimed.Refused? then (b3, None, false)
    else
      var (b4, settled) := SettleTx(b3, id, Cost(response, maximum), Usable(response));
      (b4, if settled.Row? then Usable(response) else None, true)
  }

  /** An uninterrupted call is one of the runs of the protocol. */
  lemma GenerateIsARun(
    books: Books, task: TaskId, key: string, request: Digest, maximum: int, day: Day,
    mayReserve: bool, valid: bool, mayClaim: bool, response: Response)
    ensures var (books', decision, posted) := GenerateTx(books, task, key, request, maximum, day, mayReserve, valid, mayClaim, response);
      var w' := Inference.Run(Alone(books, task, key, request, maximum), Moves(day, mayReserve, valid, mayClaim, response));
      && w'.books == books'
      && |w'.workers| == 1
      && (decision.Some? <==> w'.workers[0].stage.Returned?)
      && (decision.Some? ==> w'.workers[0].stage.value == decision.value)
      && |w'.posts| == (if posted then 1 else 0)
      && (posted ==> w'.posts[0].request == request && w'.posts[0].response == response)
  {
    hide ReserveTx, BindTx, ClaimTx, SettleTx, Cost, Usable;
    var moves := Moves(day, mayReserve, valid, mayClaim, response);
    var w := Alone(books, task, key, request, maximum);
    RunFive(w, moves);
    hide Inference.Run;
    var w1 := Inference.Next(w, moves[0]);
    var w2 := Inference.Next(w1, moves[1]);
    var (b1, reserved) := ReserveTx(books, task, key, maximum, day, mayReserve);
    assert w1.books == b1 && w1.workers[0].stage == (if reserved.Row? then Reserved(reserved.id) else Raised);
    if reserved.Row? {
      var (b2, bound) := BindTx(b1, reserved.id, request);
      assert w2.books == b2;
      assert w2.workers[0].stage ==
             if bound.Row? && reserved.id < |b2.reservations| then AfterBind(b2.reservations[reserved.id], reserved.id, valid) else Raised;
    }
    hide PayTx, Inference.Next;
    PayIsARun(w2, moves, maximum, mayClaim, response);
  }

  lemma PayIsARun(w: World, moves: seq<Inference.Step>, maximum: int, mayClaim: bool, response: Response)
    requires |w.workers| == 1 && |moves| == 5 && w.posts == [] && w.workers[0].maximum == maximum
    requires moves[2..] == [DoClaim(0, mayClaim), DoPost(0, response), DoSettle(0)]
    ensures var w' := Inference.Next(Inference.Next(Inference.Next(w, moves[2]), moves[3]), moves[4]);
      if w.workers[0].stage.Bound? then
        var (books', decision, posted) := PayTx(w.books, w.workers[0].stage.id, maximum, mayClaim, response);
        && w'.books == books'
        && |w'.workers| == 1
        && (decision.Some? <==> w'.workers[0].stage.Returned?)
        && (decision.Some? ==> w'.workers[0].stage.value == decision.value)
        && |w'.posts| == (if posted then 1 else 0)
        && (posted ==> w'.posts[0].request == w.workers[0].request && w'.posts[0].response == response)
      else if w.workers[0].stage.Raised? || w.workers[0].stage.Returned? then w' == w
      else true
  {
    hide ClaimTx, SettleTx, Cost, Usable;
    assert moves[2] == moves[2..][0] && moves[3] == moves[2..][1] && moves[4] == moves[2..][2];
    var w3 := Inference.Next(w, moves[2]);
    var w4 := Inference.Next(w3, moves[3]);
    if w.workers[0].stage.Bound? {
      var id := w.workers[0].stage.id;
      var (b3, claimed) := ClaimTx(w.books, id, mayClaim);
      assert w3.books == b3 && w3.workers[0].stage == (if claimed.Row? then Claimed(id) else Raised);
      if claimed.Row? {
        assert w4.books == b3 && w4.posts == [Sent(w3.workers[0], response)];
        assert w4.workers[0].stage == Answered(id, Cost(response, maximum), Usable(response));
      }
    }
  }

  class PaidGateway {
    const ledger: BudgetLedger

    constructor (ledger: BudgetLedger)
      ensures this.ledger == ledger
    {
      this.ledger := ledger;
    }

    /** A saved decision is reused; otherwise the claim is the licence to call, and whatever happens then is settled. */
    method Generate(task: TaskId, key: string, request: Digest, maximum: int, day: Day,
                    mayReserve: bool, valid: bool, mayClaim: bool, response: Response)
      returns (decision: Option<ModelDecision>, posted: bool)
      modifies ledger
      ensures (ledger.Contents(), decision, posted) ==
              GenerateTx(old(ledger.Contents()), task, key, request, maximum, day, mayReserve, valid, mayClaim, response)
    {
      hide ReserveTx, BindTx, ClaimTx, SettleTx;
      decision, posted := None, false;
      var reserved := ledger.Reserve(task, key, maximum, day, mayReserve);
      if reserved.Refused? { return; }
      var bound := ledger.Bind(reserved.id, request);
      if bound.Refused? || reserved.id >= |ledger.reservations| { return; }
      var row := ledger.reservations[reserved.id];
      if row.decision.Some? { return if valid then row.decision else None, false; }
      if row.actual.Some? { return; }
      var claimed := ledger.ClaimInference(reserved.id, mayClaim);
      if claimed.Refused? { return; }
      posted := true;
      var actual := maximum;
      match response {
        case NoAnswer =>
        case Unusable(cost) => actual := cost;
        case Decided(cost, answer) => actual, decision := cost, Some(answer);
      }
      var settled := ledger.Settle(reserved.id, actual, decision);
      if settled.Refused? { decision := None; }
    }
  }
}
