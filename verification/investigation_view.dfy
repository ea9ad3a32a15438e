/** The second implementation of the stop logic, runs of many workers, and why the two always agree. */
module InvestigationView {
  import opened Basics
  import opened Investigation
  import opened InvestigationLinks

  datatype ItemState = NoDocuments | SameEvidence | Decided | ResponseUnknown | InFlight | Ready

  datatype Item = Item(ordinal: nat, query: string, shows: ItemState)

  datatype View = View(items: seq<Item>, stop: Option<Reason>)

  /** What one row shows, and the stop reason it may set; `known` are the folded queries of the rows before it. */
  function ShowRow(c: Contract, t: Tables, row: Round, digests: seq<nat>, known: seq<string>): (ItemState, Option<Reason>) {
    var saved := Saved(t, row.ordinal);
    if row.evidence.documents == 0 then (NoDocuments, Some(NoEvidence))
    else if row.evidence.digest in digests then (SameEvidence, Some(NoProgress))
    else if saved.Some? then
      (Decided,
       if saved.value.stop then Some(ModelStop)
       else if c.normal(saved.value.next) in known + [c.normal(row.query)] then Some(RepeatedQuery)
       else if row.ordinal == c.limit then Some(RoundLimit)
       else None)
    else if row.ordinal in t.calls && t.calls[row.ordinal].Settled? then (ResponseUnknown, None)
    else if row.ordinal in t.calls && t.calls[row.ordinal].Dispatched? then (InFlight, None)
    else (Ready, None)
  }

  function Folded(c: Contract, rounds: seq<Round>): (s: seq<string>)
    ensures |s| == |rounds| && forall k :: 0 <= k < |rounds| ==> s[k] == c.normal(rounds[k].query)
  {
    seq(|rounds|, k requires 0 <= k < |rounds| => c.normal(rounds[k].query))
  }

  /** The view of the first `n` rows; a later row's stop reason replaces an earlier one's. */
  function ViewOf(c: Contract, t: Tables, n: nat): (view: View)
    requires n <= |t.rounds|
    ensures |view.items| == n
  {
    if n == 0 then View([], None)
    else
      var before, row := ViewOf(c, t, n - 1), t.rounds[n - 1];
      var (shows, stop) := ShowRow(c, t, row, DigestsOf(t.rounds[..n - 1]), Folded(c, t.rounds[..n - 1]));
      View(before.items + [Item(row.ordinal, row.query, shows)], if stop.Some? then stop else before.stop)
  }

  method Details(c: Contract, t: Tables) returns (view: View)
    ensures view == ViewOf(c, t, |t.rounds|)
  {
    var items: seq<Item>, known: seq<string>, digests: seq<nat> := [], [], [];
    var stop: Option<Reason> := None;
    for i := 0 to |t.rounds|
      invariant View(items, stop) == ViewOf(c, t, i)
      invariant digests == DigestsOf(t.rounds[..i]) && known == Folded(c, t.rounds[..i])
    {
      var row := t.rounds[i];
      var saved := Saved(t, row.ordinal);
      var shows: ItemState;
      if row.evidence.documents == 0 {
        shows, stop := NoDocuments, Some(NoEvidence);
      } else if row.evidence.digest in digests {
        shows, stop := SameEvidence, Some(NoProgress);
      } else if saved.Some? {
        shows := Decided;
        if saved.value.stop {
          stop := Some(ModelStop);
        } else if c.normal(saved.value.next) in known + [c.normal(row.query)] {
          stop := Some(RepeatedQuery);
        } else if row.ordinal == c.limit {
          stop := Some(RoundLimit);
        }
      } else if row.ordinal in t.calls && t.calls[row.ordinal].Settled? {
        shows := ResponseUnknown;
      } else if row.ordinal in t.calls && t.calls[row.ordinal].Dispatched? {
        shows := InFlight;
      } else {
        shows := Ready;
      }
      known, digests := known + [c.normal(row.query)], digests + [row.evidence.digest];
      items := items + [Item(row.ordinal, row.query, shows)];
    }
    view := View(items, stop);
  }

  // ---------- Runs ----------

  /** `past` holds every earlier state of the tables: any of them may be what a worker replayed. */
  datatype World = World(tables: Tables, past: seq<Tables>)

  /** Freezing the evidence of the round a replay asked for, and the moves of a model call. */
  datatype Step =
    | FreezeRound(seen: nat, evidence: Evidence)
    | ReserveCall(seen: nat)
    | DispatchCall(ordinal: nat)
    | SettleCall(ordinal: nat, decision: Option<Decision>)

  function Seen(c: Contract, w: World, seen: nat): Finding {
    if seen < |w.past| then ReplayAll(c, w.past[seen]) else Stops(RoundLimit)
  }

  function Write(c: Contract, w: World, s: Step): Tables {
    var t := w.tables;
    match s
    case FreezeRound(seen, evidence) =>
      var finding := Seen(c, w, seen);
      if !finding.NeedsRound? || (evidence.documents == 0 && finding.ordinal == 1) then t
      else Insert(t, Round(finding.ordinal, finding.query, evidence))
    case ReserveCall(seen) =>
      var finding := Seen(c, w, seen);
      if !finding.NeedsDecision? || finding.ordinal in t.calls then t else t.(calls := t.calls[finding.ordinal := Reserved])
    case DispatchCall(ordinal) =>
      if ordinal in t.calls && t.calls[ordinal].Reserved? then t.(calls := t.calls[ordinal := Dispatched]) else t
    case SettleCall(ordinal, decision) =>
      if ordinal in t.calls && t.calls[ordinal].Dispatched? then t.(calls := t.calls[ordinal := Settled(decision)]) else t
  }

  function Next(c: Contract, w: World, s: Step): World { World(Write(c, w, s), w.past + [Write(c, w, s)]) }

  function Run(c: Contract, w: World, steps: seq<Step>): World {
    if steps == [] then w else Next(c, Run(c, w, steps[..|steps| - 1]), steps[|steps| - 1])
  }

  function Start(): World { World(Tables([], map[]), [Tables([], map[])]) }

  // ---------- The invariant ----------

  ghost predicate Sound(c: Contract, w: World) {
    Linked(c, w.tables) && forall k :: 0 <= k < |w.past| ==> Linked(c, w.past[k]) && Evolves(w.past[k], w.tables)
  }

  /** A replay that asks for a round or a decision has arrived there. */
  lemma FindingArrives(c: Contract, t: Tables)
    requires Linked(c, t)
    ensures !ReplayAll(c, t).Drifts?
    ensures ReplayAll(c, t).NeedsRound? ==>
              var finding := ReplayAll(c, t);
              && finding.ordinal == |t.rounds| + 1 <= c.limit
              && Arrives(c, t, finding.ordinal, finding.query, DigestsOf(t.rounds), QueriesOf(t.rounds))
    ensures ReplayAll(c, t).NeedsDecision? ==> ReplayAll(c, t).ordinal == |t.rounds| > 0 && Saved(t, |t.rounds|).None?
  {
    var n := |t.rounds|;
    if n == 0 {
      ArrivesFirst(c, t);
      FindOrdered(t, 1);
      ReplayTurn(c, t, 1, c.goal, [], []);
      assert DigestsOf(t.rounds) == [] && QueriesOf(t.rounds) == [];
    } else {
      hide Arrives, Replay, ReplayAll, Repeats;
      LastTurn(c, t);
    }
  }

  /** The replay in terms of the last frozen round. */
  lemma LastTurn(c: Contract, t: Tables)
    requires Linked(c, t) && t.rounds != []
    ensures var n, row := |t.rounds|, t.rounds[|t.rounds| - 1];
      var digests, queries := DigestsOf(t.rounds[..n - 1]), QueriesOf(t.rounds[..n - 1]);
      && ReplayAll(c, t) ==
         (if row.evidence.documents == 0 then Stops(NoEvidence)
          else if row.evidence.digest in digests then Stops(NoProgress)
          else if Saved(t, n).None? then NeedsDecision(n)
          else if Saved(t, n).value.stop then Stops(ModelStop)
          else if Repeats(c, queries + [row.query], Saved(t, n).value.next) then Stops(RepeatedQuery)
          else if n == c.limit then Stops(RoundLimit)
          else NeedsRound(n + 1, Saved(t, n).value.next))
      && (ReplayAll(c, t).NeedsRound? ==> Arrives(c, t, n + 1, Saved(t, n).value.next, DigestsOf(t.rounds), QueriesOf(t.rounds)))
  {
    hide Replay, ReplayAll, Arrives, Repeats, RoundAt, Leads, Linked;
    var n, row := |t.rounds|, t.rounds[|t.rounds| - 1];
    var digests, queries := DigestsOf(t.rounds[..n - 1]), QueriesOf(t.rounds[..n - 1]);
    LinkedAt(c, t, n - 1);
    ReplayTurn(c, t, n, row.query, digests, queries);
    if row.evidence.documents > 0 && row.evidence.digest !in digests && Saved(t, n).Some? && !Saved(t, n).value.stop
       && !Repeats(c, queries + [row.query], Saved(t, n).value.next) {
      var next := Saved(t, n).value.next;
      LeadsOn(c, t, n, row.query, digests, queries);
      ArrivesNext(c, t, n, row.query, digests, queries, next);
      Snoc(t.rounds, n - 1);
      assert t.rounds[..n] == t.rounds;
      ArrivesReplays(c, t, n + 1, next, DigestsOf(t.rounds), QueriesOf(t.rounds));
      ReplayTurn(c, t, n + 1, next, DigestsOf(t.rounds), QueriesOf(t.rounds));
      if RoundAt(t, n + 1).Some? { NoRoundAfter(c, t, n + 1); }
    }
  }

  /** Whatever stale tables a worker replayed, the round it freezes is the next one, with the query the last decision asked. */
  lemma FreezeLinked(c: Contract, seen: Tables, t: Tables, evidence: Evidence)
    requires Linked(c, seen) && Linked(c, t) && Evolves(seen, t) && ReplayAll(c, seen).NeedsRound?
    ensures var finding := ReplayAll(c, seen);
      var t' := Insert(t, Round(finding.ordinal, finding.query, evidence)); Linked(c, t') && Evolves(t, t')
  {
    FindingArrives(c, seen);
    var o, query := ReplayAll(c, seen).ordinal, ReplayAll(c, seen).query;
    hide Replay, ReplayAll, Arrives, Evolves, Linked, Insert, DigestsOf, QueriesOf;
    ArrivesStays(c, seen, t, o, query, DigestsOf(seen.rounds), QueriesOf(seen.rounds));
    FreezeNext(c, t, Round(o, query, evidence), DigestsOf(seen.rounds), QueriesOf(seen.rounds));
  }

  lemma WriteLinked(c: Contract, w: World, s: Step)
    requires Sound(c, w)
    ensures Linked(c, Write(c, w, s)) && Evolves(w.tables, Write(c, w, s))
  {
    var t, t' := w.tables, Write(c, w, s);
    EvolvesSelf(t);
    if t' != t {
      hide Evolves, Linked, Arrives, Replay, ReplayAll;
      match s
      case FreezeRound(seen, evidence) => FreezeLinked(c, w.past[seen], t, evidence);
      case ReserveCall(seen) =>
        CallEvolves(t, Seen(c, w, seen).ordinal, Reserved);
        LinkedGrows(c, t, t');
      case DispatchCall(ordinal) =>
        CallEvolves(t, ordinal, Dispatched);
        LinkedGrows(c, t, t');
      case SettleCall(ordinal, decision) =>
        CallEvolves(t, ordinal, Settled(decision));
        LinkedGrows(c, t, t');
    }
  }

  lemma StepSound(c: Contract, w: World, s: Step)
    requires Sound(c, w)
    ensures Sound(c, Next(c, w, s))
  {
    WriteLinked(c, w, s);
    hide Linked, Evolves, Write;
    var w' := Next(c, w, s);
    forall k | 0 <= k < |w'.past| ensures Linked(c, w'.past[k]) && Evolves(w'.past[k], w'.tables) {
      if k < |w.past| { EvolvesOn(w.past[k], w.tables, w'.tables); } else { EvolvesSelf(w'.tables); }
    }
  }

  lemma {:induction false} RunSound(c: Contract, steps: seq<Step>)
    ensures Sound(c, Run(c, Start(), steps))
  {
    if steps == [] {
      EvolvesSelf(Start().tables);
    } else {
      RunSound(c, steps[..|steps| - 1]);
      hide Sound, Next;
      StepSound(c, Run(c, Start(), steps[..|steps| - 1]), steps[|steps| - 1]);
    }
  }

  // ---------- The results ----------

  /** Nor do the reads of one replay that are taken at different times: a worker that arrived at a round in any earlier tables
      and reads its row now meets its own query. */
  lemma MixedReadsMeet(
    c: Contract, steps: seq<Step>, seen: nat, ordinal: nat, query: string, digests: seq<nat>, queries: seq<string>)
    requires var w := Run(c, Start(), steps);
      seen < |w.past| && Arrives(c, w.past[seen], ordinal, query, digests, queries) && RoundAt(w.tables, ordinal).Some?
    ensures var w := Run(c, Start(), steps);
      && Arrives(c, w.tables, ordinal, query, digests, queries)
      && RoundAt(w.tables, ordinal).value.query == query
  {
    RunSound(c, steps);
    var w := Run(c, Start(), steps);
    hide Run, Arrives, Linked, Evolves, RoundAt;
    ArrivesStays(c, w.past[seen], w.tables, ordinal, query, digests, queries);
    RowMeetsQuery(c, w.past[seen], w.tables, ordinal, query, digests, queries);
  }

  /** The workers' own writes never make the persisted queries drift, however stale what a worker replays. */
  lemma NeverDrifts(c: Contract, steps: seq<Step>, seen: nat)
    requires seen < |Run(c, Start(), steps).past|
    ensures !ReplayAll(c, Run(c, Start(), steps).tables).Drifts?
    ensures !ReplayAll(c, Run(c, Start(), steps).past[seen]).Drifts?
  {
    RunSound(c, steps);
    FindingArrives(c, Run(c, Start(), steps).tables);
    FindingArrives(c, Run(c, Start(), steps).past[seen]);
  }

  lemma RepeatsFolded(c: Contract, rounds: seq<Round>, row: Round, next: string)
    ensures Repeats(c, QueriesOf(rounds) + [row.query], next) <==> c.normal(next) in Folded(c, rounds) + [c.normal(row.query)]
  {
    var queries, known := QueriesOf(rounds) + [row.query], Folded(c, rounds) + [c.normal(row.query)];
    assert forall k :: 0 <= k < |known| ==> known[k] == c.normal(queries[k]);
    if c.normal(next) in known {
      var k :| 0 <= k < |known| && known[k] == c.normal(next);
      assert queries[k] in queries;
    }
  }

  /** A round that was followed by another one shows a decision and no reason to stop. */
  lemma {:induction false} EarlierRounds(c: Contract, t: Tables, n: nat)
    requires Linked(c, t) && n < |t.rounds|
    ensures ViewOf(c, t, n).stop.None?
    ensures forall k :: 0 <= k < n ==> ViewOf(c, t, n).items[k].shows == Decided
  {
    hide Linked, Arrives, Leads, RoundAt, ShowRow;
    if n > 0 {
      EarlierRounds(c, t, n - 1);
      var row, next := t.rounds[n - 1], t.rounds[n].query;
      LinkedAt(c, t, n - 1);
      LinkedAt(c, t, n);
      Snoc(t.rounds, n - 1);
      var digests, queries := DigestsOf(t.rounds[..n - 1]), QueriesOf(t.rounds[..n - 1]);
      ArrivesBack(c, t, n + 1, next, DigestsOf(t.rounds[..n]), QueriesOf(t.rounds[..n]));
      assert (digests + [row.evidence.digest])[..n - 1] == digests && (queries + [row.query])[..n - 1] == queries;
      ShowLeading(c, t, n, next);
    }
  }

  lemma ShowLeading(c: Contract, t: Tables, n: nat, next: string)
    requires 0 < n <= |t.rounds| && n < c.limit && t.rounds[n - 1].ordinal == n && RoundAt(t, n) == Some(t.rounds[n - 1])
    requires Leads(c, t, n, t.rounds[n - 1].query, DigestsOf(t.rounds[..n - 1]), QueriesOf(t.rounds[..n - 1]), next)
    ensures ShowRow(c, t, t.rounds[n - 1], DigestsOf(t.rounds[..n - 1]), Folded(c, t.rounds[..n - 1])) == (Decided, None)
  {
    RepeatsFolded(c, t.rounds[..n - 1], t.rounds[n - 1], next);
    hide RoundAt, Repeats;
  }

  /** The view and the worker agree, for every limit but zero: the view names a reason exactly when a worker replaying the
      tables would stop, and the same one. */
  lemma ViewAgrees(c: Contract, steps: seq<Step>)
    requires c.limit > 0
    ensures var t := Run(c, Start(), steps).tables;
      ViewOf(c, t, |t.rounds|).stop == if ReplayAll(c, t).Stops? then Some(ReplayAll(c, t).reason) else None
  {
    RunSound(c, steps);
    LinkedAgrees(c, Run(c, Start(), steps).tables);
  }

  lemma LinkedAgrees(c: Contract, t: Tables)
    requires Linked(c, t) && c.limit > 0
    ensures ViewOf(c, t, |t.rounds|).stop == if ReplayAll(c, t).Stops? then Some(ReplayAll(c, t).reason) else None
  {
    var n := |t.rounds|;
    if n == 0 {
      FindingArrives(c, t);
      ArrivesFirst(c, t);
      ReplayTurn(c, t, 1, c.goal, [], []);
    } else {
      EarlierRounds(c, t, n - 1);
      LastTurn(c, t);
      var row := t.rounds[n - 1];
      hide Replay, ReplayAll, Arrives, Repeats, RoundAt;
      if Saved(t, n).Some? { RepeatsFolded(c, t.rounds[..n - 1], row, Saved(t, n).value.next); }
    }
  }

  /** With no rounds allowed the worker stops at once and the view never says so. */
  lemma NoRoundsDisagree(c: Contract)
    requires c.limit == 0
    ensures ReplayAll(c, Start().tables) == Stops(RoundLimit) && ViewOf(c, Start().tables, 0).stop.None?
  {
  }

  /** The last item tells what the worker's next tick will meet in the gateway. */
  lemma LastItem(c: Contract, steps: seq<Step>)
    requires Run(c, Start(), steps).tables.rounds != []
    ensures var t := Run(c, Start(), steps).tables;
      var n := |t.rounds|;
      var shows := ViewOf(c, t, n).items[n - 1].shows;
      && (ReplayAll(c, t).NeedsDecision? <==> shows.Ready? || shows.InFlight? || shows.ResponseUnknown?)
      && (shows.ResponseUnknown? ==> n in t.calls && t.calls[n] == Settled(None))
      && (shows.Ready? ==> n !in t.calls || t.calls[n].Reserved?)
  {
    RunSound(c, steps);
    LinkedLastItem(c, Run(c, Start(), steps).tables);
  }

  lemma LinkedLastItem(c: Contract, t: Tables)
    requires Linked(c, t) && t.rounds != []
    ensures var n := |t.rounds|;
      var shows := ViewOf(c, t, n).items[n - 1].shows;
      && (ReplayAll(c, t).NeedsDecision? <==> shows.Ready? || shows.InFlight? || shows.ResponseUnknown?)
      && (shows.ResponseUnknown? ==> n in t.calls && t.calls[n] == Settled(None))
      && (shows.Ready? ==> n !in t.calls || t.calls[n].Reserved?)
  {
    LinkedAt(c, t, |t.rounds| - 1);
    LastTurn(c, t);
    hide Replay, ReplayAll, Arrives, Repeats, RoundAt;
  }
}
