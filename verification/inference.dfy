/** Paid inference: any number of workers run the gateway's call protocol for the same calls, and any of them may crash. */
module Inference {
  import opened Basics
  import opened Budget
  import opened BudgetRuns

  /** Where a worker stands between two transactions of `_generate`. */
  datatype Stage =
    | Starting
    | Reserved(id: ReservationId)
    | Bound(id: ReservationId)
    | Claimed(id: ReservationId)
    | Answered(id: ReservationId, actual: int, decision: Option<ModelDecision>)
    | Returned(id: ReservationId, value: ModelDecision)
    | Raised

  /** A worker and the call it was asked to make; `request` is the digest of the payload it built. */
  datatype Worker = Worker(task: TaskId, key: string, request: Digest, maximum: int, stage: Stage)

  /** What the provider's answer amounts to: none that can be charged, one that is charged but unusable, or a decision. */
  datatype Response = NoAnswer | Unusable(cost: nat) | Decided(cost: nat, decision: ModelDecision)

  /** What is settled: without usage the whole reservation is charged. */
  function Cost(response: Response, maximum: int): int {
    match response case NoAnswer => maximum case Unusable(cost) => cost case Decided(cost, _) => cost
  }

  function Usable(response: Response): Option<ModelDecision> {
    match response case Decided(_, decision) => Some(decision) case _ => None
  }

  /** A request that reached the network: the call its sender was asked to make, the reservation it was paid from, and the answer. */
  datatype Post = Post(task: TaskId, key: string, id: ReservationId, request: Digest, response: Response)

  /** `posts` are the requests that reached the network, in order. */
  datatype World = World(books: Books, workers: seq<Worker>, posts: seq<Post>)

  datatype Step =
    | OpenTask(budget: nat)
    | Spawn(task: TaskId, key: string, request: Digest, maximum: int)
    | DoReserve(worker: nat, day: Day, executable: bool)
    | DoBind(worker: nat, valid: bool)
    | DoClaim(worker: nat, executable: bool)
    | DoPost(worker: nat, response: Response)
    | DoSettle(worker: nat)
    | Crash(worker: nat)

  function At(w: World, i: nat, stage: Stage): World
    requires i < |w.workers|
  {
    w.(workers := w.workers[i := w.workers[i].(stage := stage)])
  }

  /** What the caller does with the reservation it gets back from binding. */
  function AfterBind(r: Reservation, id: ReservationId, valid: bool): Stage {
    if r.decision.Some? then (if valid then Returned(id, r.decision.value) else Raised)
    else if r.actual.Some? then Raised
    else Bound(id)
  }

  function Sent(me: Worker, response: Response): Post
    requires me.stage.Claimed?
  {
    Post(me.task, me.key, me.stage.id, me.request, response)
  }

  predicate Stands(w: World, i: nat) { i < |w.workers| }

  /** One transaction or one network call of one worker; a step that is not due changes nothing. */
  function Next(w: World, s: Step): World {
    match s
    case OpenTask(budget) => w.(books := BudgetRuns.Next(w.books, Open(budget)))
    case Spawn(task, key, request, maximum) =>
      w.(workers := w.workers + [Worker(task, key, request, maximum, Starting)])
    case DoReserve(i, day, executable) =>
      if !Stands(w, i) || w.workers[i].stage != Starting then w
      else
        var me := w.workers[i];
        var (books, reply) := ReserveTx(w.books, me.task, me.key, me.maximum, day, executable);
        At(w.(books := books), i, if reply.Row? then Reserved(reply.id) else Raised)
    case DoBind(i, valid) =>
      if !Stands(w, i) || !w.workers[i].stage.Reserved? then w
      else
        var id := w.workers[i].stage.id;
        var (books, reply) := BindTx(w.books, id, w.workers[i].request);
        At(w.(books := books), i,
           if reply.Row? && id < |books.reservations| then AfterBind(books.reservations[id], id, valid) else Raised)
    case DoClaim(i, executable) =>
      if !Stands(w, i) || !w.workers[i].stage.Bound? then w
      else
        var (books, reply) := ClaimTx(w.books, w.workers[i].stage.id, executable);
        At(w.(books := books), i, if reply.Row? then Claimed(w.workers[i].stage.id) else Raised)
    case DoPost(i, response) =>
      if !Stands(w, i) || !w.workers[i].stage.Claimed? then w
      else
        At(w.(posts := w.posts + [Sent(w.workers[i], response)]), i,
           Answered(w.workers[i].stage.id, Cost(response, w.workers[i].maximum), Usable(response)))
    case DoSettle(i) =>
      if !Stands(w, i) || !w.workers[i].stage.Answered? then w
      else
        var stage := w.workers[i].stage;
        var (books, reply) := SettleTx(w.books, stage.id, stage.actual, stage.decision);
        At(w.(books := books), i,
           if reply.Row? && stage.decision.Some? then Returned(stage.id, stage.decision.value) else Raised)
    case Crash(i) => if !Stands(w, i) then w else At(w, i, Raised)
  }

  function Run(w: World, steps: seq<Step>): World {
    if steps == [] then w else Next(Run(w, steps[..|steps| - 1]), steps[|steps| - 1])
  }

  function Start(daily: nat): World { World(Books(daily, [], [], []), [], []) }

  // ---------- The invariant ----------

  predicate RowSound(r: Reservation) {
    && (r.dispatched ==> r.request.Some?)
    && (r.actual.Some? ==> r.dispatched)
    && (r.decision.Some? ==> r.actual.Some?)
  }

  /** The worker between its claim and its settlement owns the row: nobody else may post or settle it. */
  predicate Owns(stage: Stage, id: ReservationId) { (stage.Claimed? || stage.Answered?) && stage.id == id }

  /** The row of the call the worker was asked to make, over the amount it asked for. */
  predicate RowOf(r: Reservation, me: Worker) { Matches(r, me.task, me.key) && r.maximum == me.maximum }

  predicate WorkerSound(books: Books, me: Worker) {
    match me.stage
    case Starting => true
    case Raised => true
    case Reserved(id) => id < |books.reservations| && RowOf(books.reservations[id], me)
    case Bound(id) =>
      && id < |books.reservations|
      && RowOf(books.reservations[id], me)
      && books.reservations[id].request == Some(me.request)
    case Claimed(id) =>
      && id < |books.reservations|
      && RowOf(books.reservations[id], me)
      && books.reservations[id].request == Some(me.request)
      && books.reservations[id].dispatched
      && books.reservations[id].actual.None?
    case Answered(id, _, _) =>
      && id < |books.reservations|
      && RowOf(books.reservations[id], me)
      && books.reservations[id].dispatched
      && books.reservations[id].actual.None?
    case Returned(id, value) =>
      && id < |books.reservations|
      && RowOf(books.reservations[id], me)
      && books.reservations[id].decision == Some(value)
  }

  predicate PostSound(books: Books, p: Post) {
    && p.id < |books.reservations|
    && Matches(books.reservations[p.id], p.task, p.key)
    && books.reservations[p.id].dispatched
    && books.reservations[p.id].request == Some(p.request)
  }

  ghost predicate OneOwner(workers: seq<Worker>) {
    forall i, j, id :: 0 <= i < j < |workers| && Owns(workers[i].stage, id) ==> !Owns(workers[j].stage, id)
  }

  /** A claimed call was not posted yet. */
  predicate NotYetPosted(workers: seq<Worker>, posts: seq<Post>) {
    forall i, k :: 0 <= i < |workers| && workers[i].stage.Claimed? && 0 <= k < |posts| ==> posts[k].id != workers[i].stage.id
  }

  predicate PostsDistinct(posts: seq<Post>) {
    forall j, k :: 0 <= j < k < |posts| ==> posts[j].id != posts[k].id
  }

  ghost predicate Protocol(w: World) {
    && (forall k :: 0 <= k < |w.books.reservations| ==> RowSound(w.books.reservations[k]))
    && (forall i :: 0 <= i < |w.workers| ==> WorkerSound(w.books, w.workers[i]))
    && (forall k :: 0 <= k < |w.posts| ==> PostSound(w.books, w.posts[k]))
    && OneOwner(w.workers)
    && NotYetPosted(w.workers, w.posts)
    && PostsDistinct(w.posts)
  }

  /** How any transaction may change a row somebody else looks at. */
  predicate RowEvolves(r: Reservation, r': Reservation) {
    && r'.task == r.task
    && r'.key == r.key
    && r'.maximum == r.maximum
    && (r.request.Some? ==> r'.request == r.request)
    && (r.dispatched ==> r'.dispatched)
    && (r.decision.Some? ==> r'.decision == r.decision)
  }

  predicate TableEvolves(b: Books, b': Books) {
    && |b.reservations| <= |b'.reservations|
    && forall k :: 0 <= k < |b.reservations| ==> RowEvolves(b.reservations[k], b'.reservations[k])
  }

  lemma ReserveEvolves(b: Books, task: TaskId, key: string, maximum: int, day: Day, executable: bool)
    ensures var (b', reply) := ReserveTx(b, task, key, maximum, day, executable);
      && TableEvolves(b, b')
      && b.reservations <= b'.reservations
      && (forall k :: |b.reservations| <= k < |b'.reservations| ==> RowSound(b'.reservations[k]) && b'.reservations[k].actual.None?)
      && (reply.Row? ==>
            reply.id < |b'.reservations| && Matches(b'.reservations[reply.id], task, key) && b'.reservations[reply.id].maximum == maximum)
  {
    hide FindDay, WithDay;
  }

  lemma BindEvolves(b: Books, id: ReservationId, request: Digest)
    requires RowSoundAll(b)
    ensures var (b', reply) := BindTx(b, id, request);
      && TableEvolves(b, b')
      && RowSoundAll(b')
      && |b'.reservations| == |b.reservations|
      && (forall k :: 0 <= k < |b.reservations| ==> b'.reservations[k] == b.reservations[k].(request := b'.reservations[k].request))
      && (reply.Row? ==> id < |b'.reservations| && b'.reservations[id].request == Some(request))
  {
  }

  predicate RowSoundAll(b: Books) { forall k :: 0 <= k < |b.reservations| ==> RowSound(b.reservations[k]) }

  /** Workers keep their standing when the table evolves, unless somebody settles the row they own. */
  lemma WorkersKeep(b: Books, b': Books, me: Worker)
    requires WorkerSound(b, me) && TableEvolves(b, b')
    requires (me.stage.Claimed? || me.stage.Answered?) ==> b'.reservations[me.stage.id].actual == b.reservations[me.stage.id].actual
    ensures WorkerSound(b', me)
  {
  }

  lemma PostsKeep(b: Books, b': Books, p: Post)
    requires PostSound(b, p) && TableEvolves(b, b')
    ensures PostSound(b', p)
  {
  }

  /** Moving worker `i` to a stage that owns nothing new keeps the ownership rules. */
  lemma DisownKeeps(w: World, i: nat, stage: Stage)
    requires i < |w.workers| && OneOwner(w.workers) && NotYetPosted(w.workers, w.posts)
    requires !stage.Claimed? && (stage.Answered? ==> Owns(w.workers[i].stage, stage.id))
    ensures OneOwner(At(w, i, stage).workers) && NotYetPosted(At(w, i, stage).workers, w.posts)
  {
    var workers := At(w, i, stage).workers;
    forall j, k, id | 0 <= j < k < |workers| && Owns(workers[j].stage, id) ensures !Owns(workers[k].stage, id) {
      assert Owns(w.workers[j].stage, id);
    }
  }

  /** A transaction that settles nothing, after which the acting worker owns nothing. */
  lemma MoveKeeps(w: World, b': Books, i: nat, stage: Stage)
    requires Protocol(w) && i < |w.workers| && TableEvolves(w.books, b') && RowSoundAll(b')
    requires forall k :: 0 <= k < |w.books.reservations| ==> b'.reservations[k].actual == w.books.reservations[k].actual
    requires !stage.Claimed? && !stage.Answered?
    requires WorkerSound(b', w.workers[i].(stage := stage))
    ensures Protocol(At(w.(books := b'), i, stage))
  {
    var w' := At(w.(books := b'), i, stage);
    DisownKeeps(w, i, stage);
    forall j | 0 <= j < |w'.workers| ensures WorkerSound(b', w'.workers[j]) {
      if j != i { WorkersKeep(w.books, b', w.workers[j]); }
    }
    forall k | 0 <= k < |w'.posts| ensures PostSound(b', w'.posts[k]) { PostsKeep(w.books, b', w.posts[k]); }
  }

  lemma ReserveKeeps(w: World, s: Step)
    requires Protocol(w) && s.DoReserve?
    ensures Protocol(Next(w, s))
  {
    hide Protocol;
    if Stands(w, s.worker) && w.workers[s.worker].stage == Starting {
      var me := w.workers[s.worker];
      var (b', reply) := ReserveTx(w.books, me.task, me.key, me.maximum, s.day, s.executable);
      ReserveEvolves(w.books, me.task, me.key, me.maximum, s.day, s.executable);
      hide ReserveTx;
      ExtendRows(w, b');
      MoveKeeps(w, b', s.worker, if reply.Row? then Reserved(reply.id) else Raised);
    }
  }

  lemma ExtendRows(w: World, b': Books)
    requires Protocol(w) && w.books.reservations <= b'.reservations
    requires forall k :: |w.books.reservations| <= k < |b'.reservations| ==> RowSound(b'.reservations[k])
    ensures RowSoundAll(b')
  {
  }

  lemma BindKeeps(w: World, s: Step)
    requires Protocol(w) && s.DoBind?
    ensures Protocol(Next(w, s))
  {
    if Stands(w, s.worker) && w.workers[s.worker].stage.Reserved? {
      var me := w.workers[s.worker];
      var id := me.stage.id;
      var (b', reply) := BindTx(w.books, id, me.request);
      assert WorkerSound(w.books, me);
      BindEvolves(w.books, id, me.request);
      hide BindTx, Protocol;
      MoveKeeps(w, b', s.worker, if reply.Row? then AfterBind(b'.reservations[id], id, s.valid) else Raised);
    }
  }

  lemma ClaimKeeps(w: World, s: Step)
    requires Protocol(w) && s.DoClaim?
    ensures Protocol(Next(w, s))
  {
    if Stands(w, s.worker) && w.workers[s.worker].stage.Bound? {
      var me, i := w.workers[s.worker], s.worker;
      var id := me.stage.id;
      assert WorkerSound(w.books, me);
      var (b', reply) := ClaimTx(w.books, id, s.executable);
      if reply.Row? {
        var r := w.books.reservations[id];
        assert RowSound(r) && !r.dispatched && r.actual.None?;
        assert TableEvolves(w.books, b') && RowSoundAll(b');
        var w' := Next(w, s);
        forall j | 0 <= j < |w'.workers| ensures WorkerSound(b', w'.workers[j]) && (j != i ==> !Owns(w'.workers[j].stage, id)) {
          assert WorkerSound(w.books, w.workers[j]);
          if j != i { WorkersKeep(w.books, b', w.workers[j]); }
        }
        forall k | 0 <= k < |w.posts| ensures PostSound(b', w.posts[k]) && w.posts[k].id != id {
          assert PostSound(w.books, w.posts[k]);
          PostsKeep(w.books, b', w.posts[k]);
        }
        ClaimOwners(w, i, id);
      } else {
        hide Protocol;
        MoveKeeps(w, w.books, i, Raised) by { assert Protocol(w) && TableEvolves(w.books, w.books); }
      }
    }
  }

  /** The claimed row was free, so nobody else owns it and nobody posted it. */
  lemma ClaimOwners(w: World, i: nat, id: ReservationId)
    requires i < |w.workers| && OneOwner(w.workers) && NotYetPosted(w.workers, w.posts)
    requires !(w.workers[i].stage.Claimed? || w.workers[i].stage.Answered?)
    requires forall j :: 0 <= j < |w.workers| && j != i ==> !Owns(w.workers[j].stage, id)
    requires forall k :: 0 <= k < |w.posts| ==> w.posts[k].id != id
    ensures OneOwner(At(w, i, Claimed(id)).workers) && NotYetPosted(At(w, i, Claimed(id)).workers, w.posts)
  {
  }

  lemma PostKeeps(w: World, s: Step)
    requires Protocol(w) && s.DoPost?
    ensures Protocol(Next(w, s))
  {
    if Stands(w, s.worker) && w.workers[s.worker].stage.Claimed? {
      var me, i := w.workers[s.worker], s.worker;
      var id := me.stage.id;
      assert WorkerSound(w.books, me) && Owns(me.stage, id);
      var w' := Next(w, s);
      assert PostSound(w.books, Sent(me, s.response));
      DisownKeeps(w, i, w'.workers[i].stage);
      forall j, k | 0 <= j < |w'.workers| && w'.workers[j].stage.Claimed? && 0 <= k < |w'.posts|
        ensures w'.posts[k].id != w'.workers[j].stage.id
      {
        assert j != i && Owns(w.workers[j].stage, w.workers[j].stage.id);
      }
      forall j | 0 <= j < |w'.workers| ensures WorkerSound(w.books, w'.workers[j]) {
        assert WorkerSound(w.books, w.workers[j]);
      }
    }
  }

  lemma SettleKeeps(w: World, s: Step)
    requires Protocol(w) && s.DoSettle?
    ensures Protocol(Next(w, s))
  {
    if Stands(w, s.worker) && w.workers[s.worker].stage.Answered? {
      var me, i := w.workers[s.worker], s.worker;
      var id := me.stage.id;
      assert WorkerSound(w.books, me) && Owns(me.stage, id);
      var (b', reply) := SettleTx(w.books, id, me.stage.actual, me.stage.decision);
      SettleRows(w.books, id, me.stage.actual, me.stage.decision);
      hide SettleTx;
      assert RowSound(w.books.reservations[id]);
      assert TableEvolves(w.books, b') && RowSoundAll(b');
      var w' := Next(w, s);
      DisownKeeps(w, i, w'.workers[i].stage);
      forall j | 0 <= j < |w'.workers| ensures WorkerSound(b', w'.workers[j]) {
        assert WorkerSound(w.books, w.workers[j]);
        if j != i {
          assert !Owns(w.workers[j].stage, id);
          WorkersKeep(w.books, b', w.workers[j]);
        }
      }
      forall k | 0 <= k < |w.posts| ensures PostSound(b', w.posts[k]) { PostsKeep(w.books, b', w.posts[k]); }
    }
  }

  lemma SettleRows(b: Books, id: ReservationId, actual: int, decision: Option<ModelDecision>)
    requires id < |b.reservations| && b.reservations[id].actual.None?
    ensures var (b', reply) := SettleTx(b, id, actual, decision);
      && b'.reservations == (if reply.Row? then b.reservations[id := b.reservations[id].(actual := Some(actual), decision := decision)]
                             else b.reservations)
  {
  }

  lemma StepKeeps(w: World, s: Step)
    requires Protocol(w)
    ensures Protocol(Next(w, s))
  {
    match s
    case DoReserve(_, _, _) => ReserveKeeps(w, s);
    case DoBind(_, _) => BindKeeps(w, s);
    case DoClaim(_, _) => ClaimKeeps(w, s);
    case DoPost(_, _) => PostKeeps(w, s);
    case DoSettle(_) => SettleKeeps(w, s);
    case Crash(i) =>
      if Stands(w, i) {
        assert TableEvolves(w.books, w.books) && RowSoundAll(w.books);
        MoveKeeps(w, w.books, i, Raised);
      }
    case OpenTask(_) =>
      forall j | 0 <= j < |w.workers| ensures WorkerSound(Next(w, s).books, w.workers[j]) {
        assert WorkerSound(w.books, w.workers[j]);
      }
      forall k | 0 <= k < |w.posts| ensures PostSound(Next(w, s).books, w.posts[k]) { assert PostSound(w.books, w.posts[k]); }
    case Spawn(_, _, _, _) =>
  }

  /** The paid step is always one of the ledger's own steps, so the books stay balanced as well. */
  lemma StepBooks(w: World, s: Step)
    requires BudgetRuns.Sound(w.books)
    ensures BudgetRuns.Sound(Next(w, s).books)
  {
    hide BudgetRuns.Sound;
    match s
    case OpenTask(budget) => OpenSound(w.books, budget);
    case DoReserve(i, day, executable) =>
      if Stands(w, i) { ReserveSound(w.books, w.workers[i].task, w.workers[i].key, w.workers[i].maximum, day, executable); }
    case DoBind(i, _) =>
      if Stands(w, i) && w.workers[i].stage.Reserved? {
        BudgetRuns.StepSound(w.books, Bind(w.workers[i].stage.id, w.workers[i].request));
      }
    case DoClaim(i, executable) =>
      if Stands(w, i) && w.workers[i].stage.Bound? {
        BudgetRuns.StepSound(w.books, Claim(w.workers[i].stage.id, executable));
      }
    case DoSettle(i) =>
      if Stands(w, i) && w.workers[i].stage.Answered? {
        SettleSound(w.books, w.workers[i].stage.id, w.workers[i].stage.actual, w.workers[i].stage.decision);
      }
    case _ =>
  }

  lemma {:induction false} RunKeeps(daily: nat, steps: seq<Step>)
    ensures Protocol(Run(Start(daily), steps)) && BudgetRuns.Sound(Run(Start(daily), steps).books)
  {
    if steps != [] {
      RunKeeps(daily, steps[..|steps| - 1]);
      hide Protocol, BudgetRuns.Sound;
      StepKeeps(Run(Start(daily), steps[..|steps| - 1]), steps[|steps| - 1]);
      StepBooks(Run(Start(daily), steps[..|steps| - 1]), steps[|steps| - 1]);
    }
  }

  // ---------- The results ----------

  /** A call is posted at most once, whatever the workers do and wherever they crash: no two posts were sent by workers that
      were asked to make the same call. */
  lemma AtMostOnePost(daily: nat, steps: seq<Step>, j: nat, k: nat)
    requires var w := Run(Start(daily), steps);
      j < |w.posts| && k < |w.posts| && w.posts[j].task == w.posts[k].task && w.posts[j].key == w.posts[k].key
    ensures j == k
  {
    RunKeeps(daily, steps);
    var w := Run(Start(daily), steps);
    assert PostSound(w.books, w.posts[j]) && PostSound(w.books, w.posts[k]);
    OneRowPerCall(w.books.reservations, w.posts[j].id, w.posts[k].id, w.posts[j].task, w.posts[j].key);
  }

  lemma OneRowPerCall(rs: seq<Reservation>, a: ReservationId, b: ReservationId, task: TaskId, key: string)
    requires CallsDistinct(rs) && a < |rs| && b < |rs| && Matches(rs[a], task, key) && Matches(rs[b], task, key)
    ensures a == b
  {
  }

  /** Every post was sent for the call its reservation was made for, with the bound request; a saved decision was paid for
      and settled. */
  lemma PostsAreBound(daily: nat, steps: seq<Step>)
    ensures var w := Run(Start(daily), steps);
      && (forall p :: p in w.posts ==>
            && p.id < |w.books.reservations|
            && Matches(w.books.reservations[p.id], p.task, p.key)
            && w.books.reservations[p.id].request == Some(p.request))
      && (forall r :: r in w.books.reservations && r.decision.Some? ==> r.dispatched && r.actual.Some? && r.request.Some?)
  {
    RunKeeps(daily, steps);
    var w := Run(Start(daily), steps);
    forall p | p in w.posts ensures PostSound(w.books, p) {
    }
    forall r | r in w.books.reservations ensures RowSound(r) {
    }
  }

  /** All workers that return a decision for a call return the same one, and it is the one saved in the call's only row. */
  lemma OneDecision(daily: nat, steps: seq<Step>, i: nat, j: nat)
    requires var w := Run(Start(daily), steps);
      && i < |w.workers| && j < |w.workers|
      && w.workers[i].stage.Returned? && w.workers[j].stage.Returned?
      && w.workers[i].task == w.workers[j].task && w.workers[i].key == w.workers[j].key
    ensures var w := Run(Start(daily), steps);
      && w.workers[i].stage.value == w.workers[j].stage.value
      && exists r :: r in w.books.reservations && Matches(r, w.workers[i].task, w.workers[i].key)
                     && r.decision == Some(w.workers[i].stage.value)
  {
    RunKeeps(daily, steps);
    var w := Run(Start(daily), steps);
    var me, other := w.workers[i], w.workers[j];
    assert WorkerSound(w.books, me) && WorkerSound(w.books, other);
    OneRowPerCall(w.books.reservations, me.stage.id, other.stage.id, me.task, me.key);
    assert w.books.reservations[me.stage.id] in w.books.reservations;
  }
}
