/** The worker of a bounded investigation: it replays frozen rounds and saved decisions, and pays for at most one more. */
module InvestigationWorker {
  import opened Basics
  import opened Investigation
  import opened InvestigationLinks

  /** One round of the final report. */
  datatype Reviewed = Reviewed(query: string, digest: nat, decision: Decision)

  /** The event that announces the report. */
  datatype Completion = Completion(rounds: nat, reason: Reason)

  datatype Wait = EvidenceWait | HumanReview

  /** How a tick ends; a raised error leaves what was written before it. */
  datatype Reply =
    | Completed(reason: Reason, report: seq<Reviewed>)
    | EvidenceRequired
    | Continue(ordinal: nat)
    | Drift
    | Raised

  /** What the model answers if it is asked: a decision, or none after the call was made. */
  type Answer = Option<Decision>

  /** At most this one call changed. */
  predicate OnlyCall(before: map<nat, Call>, after: map<nat, Call>, ordinal: nat) {
    && (forall k :: k in before ==> k in after && (k == ordinal || after[k] == before[k]))
    && (forall k :: k in after ==> k in before || k == ordinal)
  }

  /** The report lists the frozen rounds in order, with evidence, each with its saved decision. */
  predicate Reports(t: Tables, report: seq<Reviewed>) {
    forall k :: 0 <= k < |report| ==> ReportedAt(t, k + 1, report[k])
  }

  predicate ReportedAt(t: Tables, ordinal: nat, entry: Reviewed) {
    && RoundAt(t, ordinal).Some?
    && RoundAt(t, ordinal).value.query == entry.query
    && RoundAt(t, ordinal).value.evidence.digest == entry.digest
    && Saved(t, ordinal) == Some(entry.decision)
  }

  /** Rounds that were not frozen before are frozen with the evidence that was compiled for them. */
  ghost predicate FrozenFrom(t: Tables, t': Tables, compiled: nat -> Evidence) {
    forall o :: RoundAt(t, o).None? && RoundAt(t', o).Some? ==> RoundAt(t', o).value.evidence == compiled(o)
  }

  /** The rounds before this one were decided, and the replay goes on to it. */
  ghost predicate GoesOn(c: Contract, t: Tables, ordinal: nat) {
    exists query, digests, queries :: Arrives(c, t, ordinal, query, digests, queries)
  }

  /** The replay waits for the decision of a call that was made and gave none, and that is never made again. */
  predicate Unanswered(c: Contract, t: Tables) {
    var finding := ReplayAll(c, t);
    finding.NeedsDecision? && finding.ordinal in t.calls && !t.calls[finding.ordinal].Reserved?
  }

  /** What a tick may do to the tables `first` it found: freeze rounds with the evidence compiled for them, and pay for one decision,
      `paidAt`, that was not saved before. */
  ghost predicate Progress(c: Contract, first: Tables, t: Tables, compiled: nat -> Evidence, answers: nat -> Answer, paidAt: Option<nat>) {
    && Evolves(first, t)
    && (Linked(c, first) ==> Linked(c, t))
    && FrozenFrom(first, t, compiled)
    && if paidAt.None? then t.calls == first.calls
       else
         && OnlyCall(first.calls, t.calls, paidAt.value) && Saved(first, paidAt.value).None?
         && paidAt.value in t.calls && t.calls[paidAt.value] == Settled(answers(paidAt.value))
  }

  /** What a reply of a tick means for the tables it leaves. */
  ghost predicate EndsAs(c: Contract, first: Tables, t: Tables, compiled: nat -> Evidence, permits: nat, paidAt: Option<nat>, reply: Reply) {
    match reply
    case Completed(reason, report) => ReplayAll(c, t) == Stops(reason) && Reports(t, report)
    case EvidenceRequired => t == first && compiled(1).documents == 0 && ReplayAll(c, t) == NeedsRound(1, c.goal)
    case Continue(ordinal) =>
      ordinal < c.limit && paidAt == Some(ordinal) && Saved(t, ordinal).Some? && GoesOn(c, t, ordinal + 1)
    case Drift => ReplayAll(c, t).Drifts? && !Linked(c, first)
    case Raised => permits <= 4 * c.limit || Unanswered(c, t)
  }

  class Worker {
    const contract: Contract
    var rounds: seq<Round>
    var calls: map<nat, Call>
    var waiting: Option<Wait>
    var completions: seq<Completion>

    function Contents(): Tables
      reads this
    {
      Tables(rounds, calls)
    }

    constructor (contract: Contract)
      ensures this.contract == contract && Contents() == Tables([], map[]) && waiting.None? && completions == []
    {
      this.contract := contract;
      rounds, calls, waiting, completions := [], map[], None, [];
    }

    /** The unique ordinal makes a second insertion do nothing. */
    method InsertOnce(ordinal: nat, query: string, evidence: Evidence)
      modifies this`rounds
      ensures Contents() == Insert(old(Contents()), Round(ordinal, query, evidence))
    {
      if FindRound(rounds, ordinal).None? { rounds := rounds + [Round(ordinal, query, evidence)]; }
    }

    /** The gateway: a saved decision is reused, and a call that was made is never made again. */
    method Investigate(ordinal: nat, answer: Answer) returns (decision: Option<Decision>, paid: bool)
      modifies this`calls
      ensures paid <==> ordinal !in old(calls) || old(calls)[ordinal].Reserved?
      ensures calls == if paid then old(calls)[ordinal := Settled(answer)] else old(calls)
      ensures decision == Saved(Contents(), ordinal)
    {
      paid := ordinal !in calls || calls[ordinal].Reserved?;
      if paid { calls := calls[ordinal := Settled(answer)]; }
      decision := if calls[ordinal].Settled? then calls[ordinal].decision else None;
    }

    /** Freezes the evidence of a round the replay has reached. */
    method Freeze(ordinal: nat, query: string, digests: seq<nat>, queries: seq<string>, evidence: Evidence)
      requires Arrives(contract, Contents(), ordinal, query, digests, queries)
      requires FindRound(rounds, ordinal).None? && ordinal <= contract.limit
      modifies this`rounds
      ensures Evolves(old(Contents()), Contents()) && Arrives(contract, Contents(), ordinal, query, digests, queries)
      ensures FindRound(rounds, ordinal).Some?
      ensures Linked(contract, old(Contents())) ==> Linked(contract, Contents())
      ensures rounds == old(rounds) + [Round(ordinal, query, evidence)]
    {
      hide RoundAt, Saved, Arrives, Evolves, FindRound, Linked;
      ghost var before := Contents();
      var row := Round(ordinal, query, evidence);
      NotThere(before, ordinal);
      InsertEvolves(before, row);
      InsertOnce(ordinal, query, evidence);
      ArrivesStays(contract, before, Contents(), ordinal, query, digests, queries);
      NotThere(Contents(), ordinal);
      if Linked(contract, before) { FreezeNext(contract, before, row, digests, queries); }
    }

    /** The frozen row of a round the replay has reached; `short` tells that there is no evidence to begin with. Every further
        authorization check costs a permit, and without one nothing more happens. */
    method Obtain(ordinal: nat, query: string, digests: seq<nat>, queries: seq<string>, evidence: Evidence, permits: nat)
      returns (row: Option<Round>, short: bool, left: nat)
      requires Arrives(contract, Contents(), ordinal, query, digests, queries) && ordinal <= contract.limit
      modifies this`rounds, this`waiting
      ensures Evolves(old(Contents()), Contents()) && Arrives(contract, Contents(), ordinal, query, digests, queries)
      ensures Linked(contract, old(Contents())) ==> Linked(contract, Contents())
      ensures waiting == if short then Some(EvidenceWait) else old(waiting)
      ensures row.Some? ==> !short && RoundAt(Contents(), ordinal) == row
      ensures rounds == old(rounds) || (old(RoundAt(Contents(), ordinal)).None? && rounds == old(rounds) + [Round(ordinal, query, evidence)])
      ensures permits <= left + 2 && (row.None? && !short ==> permits < 2)
      ensures short ==> evidence.documents == 0 && ordinal == 1
      ensures short ==> queries == [] && row.None? && Contents() == old(Contents()) && ReplayAll(contract, Contents()) == NeedsRound(1, contract.goal)
    {
      hide RoundAt, Saved, Repeats, Replay, ReplayAll, Arrives, Evolves, FindRound, Leads, Linked;
      row, short, left := None, false, permits;
      ghost var before := Contents();
      NotThere(before, ordinal);
      EvolvesSelf(before);
      if FindRound(rounds, ordinal).None? {
        if left == 0 { return; }
        left := left - 1;
        if evidence.documents == 0 && queries == [] {
          AtFirst(contract, before, ordinal, query, digests, queries);
          ReplayTurn(contract, before, ordinal, query, digests, queries);
          if left == 0 { return; }
          waiting, short := Some(EvidenceWait), true;
          return;
        }
        if left == 0 { return; }
        left := left - 1;
        Freeze(ordinal, query, digests, queries, evidence);
      }
      row := Some(rounds[FindRound(rounds, ordinal).value]);
      IsThere(Contents(), ordinal);
    }

    /** Asks the gateway in a round the replay has reached, between two authorization checks; `recovered` tells that the
        decision was there before. */
    method Ask(ordinal: nat, query: string, digests: seq<nat>, queries: seq<string>, answer: Answer, permits: nat)
      returns (decision: Option<Decision>, recovered: bool, ghost paid: bool, left: nat)
      requires Arrives(contract, Contents(), ordinal, query, digests, queries)
      modifies this`calls
      ensures Evolves(old(Contents()), Contents()) && Arrives(contract, Contents(), ordinal, query, digests, queries)
      ensures RoundAt(Contents(), ordinal) == old(RoundAt(Contents(), ordinal))
      ensures decision.Some? ==> decision == Saved(Contents(), ordinal) && paid == !recovered
      ensures paid ==> ordinal in calls && calls[ordinal] == Settled(answer)
      ensures permits <= left + 2
      ensures decision.None? ==>
                permits < 2 || (Saved(Contents(), ordinal).None? && ordinal in calls && !calls[ordinal].Reserved?)
      ensures if paid then OnlyCall(old(calls), calls, ordinal) && old(Saved(Contents(), ordinal)).None? else calls == old(calls)
      ensures Linked(contract, old(Contents())) ==> Linked(contract, Contents())
    {
      hide RoundAt, Saved, Arrives, Evolves, FindRound, OnlyCall, Linked;
      ghost var asking := Contents();
      EvolvesSelf(asking);
      decision, recovered, paid, left := None, false, false, permits;
      if left == 0 { return; }
      recovered := ordinal in calls && calls[ordinal].Settled? && calls[ordinal].decision.Some?;
      var asked;
      decision, asked := Investigate(ordinal, answer);
      paid, left := asked, left - 1;
      SavedMeans(asking, ordinal);
      AskEvolves(asking, Contents(), ordinal, asked, Settled(answer));
      ArrivesStays(contract, asking, Contents(), ordinal, query, digests, queries);
      SameRounds(asking, Contents(), ordinal);
      if Linked(contract, asking) { LinkedGrows(contract, asking, Contents()); }
      if left == 0 { decision := None; } else { left := left - 1; }
    }

    /** Hands the report over to a human, and announces it unless that was done before. */
    method Complete(reason: Reason, report: seq<Reviewed>)
      modifies this`waiting, this`completions
      ensures waiting == Some(HumanReview)
      ensures completions == old(completions) + (if old(waiting) == Some(HumanReview) then [] else [Completion(|report|, reason)])
    {
      if waiting != Some(HumanReview) {
        waiting := Some(HumanReview);
        completions := completions + [Completion(|report|, reason)];
      }
    }

    /** One tick. `compiled` is the evidence each round would find, `permits` how many of the repeated authorization checks
        succeed, `answers` what the model would say. It stops exactly where a replay of the tables it leaves would stop. */
    method Tick(compiled: nat -> Evidence, permits: nat, answers: nat -> Answer) returns (reply: Reply, ghost paidAt: Option<nat>)
      modifies this
      ensures Progress(contract, old(Contents()), Contents(), compiled, answers, paidAt)
      ensures EndsAs(contract, old(Contents()), Contents(), compiled, permits, paidAt, reply)
      ensures waiting == if reply.Completed? then Some(HumanReview) else if reply.EvidenceRequired? then Some(EvidenceWait) else old(waiting)
      ensures completions == old(completions) +
                (if reply.Completed? && old(waiting) != Some(HumanReview) then [Completion(|reply.report|, reply.reason)] else [])
    {
      hide RoundAt, Saved, Repeats, Replay, ReplayAll, Arrives, Evolves, FindRound, OnlyCall, Leads, Linked, Reports, FrozenFrom,
        GoesOn, Unanswered, Progress, EndsAs;
      ghost var first := Contents();
      var report: seq<Reviewed> := [];
      var digests: seq<nat>, queries: seq<string> := [], [];
      var query, ordinal: nat, checks: nat := contract.goal, 1, permits;
      var reason := RoundLimit;
      var stopped := false;
      paidAt := None;
      ArrivesFirst(contract, Contents());
      NoProgressYet(contract, Contents(), compiled, answers);
      ReportsNothing(Contents());
      while ordinal <= contract.limit && !stopped
        invariant 1 <= ordinal <= contract.limit + 1 && (stopped ==> ordinal <= contract.limit)
        invariant waiting == old(waiting) && completions == old(completions)
        invariant !stopped ==> Arrives(contract, Contents(), ordinal, query, digests, queries) && |report| == ordinal - 1
        invariant !stopped && ordinal <= contract.limit ==> paidAt.None?
        invariant !stopped ==> reason == RoundLimit
        invariant queries == [] && !stopped ==> Contents() == first
        invariant stopped ==> ReplayAll(contract, Contents()) == Stops(reason)
        invariant permits <= checks + 4 * (if stopped then ordinal else ordinal - 1)
        invariant Progress(contract, first, Contents(), compiled, answers, paidAt)
        invariant Reports(Contents(), report)
        decreases contract.limit + 1 - ordinal, !stopped
      {
        ghost var before := Contents();
        var obtained, short, left := Obtain(ordinal, query, digests, queries, compiled(ordinal), checks);
        FreezesProgress(contract, first, before, Contents(), compiled, answers, ordinal, query);
        ReportsStay(before, Contents(), report);
        if short {
          EndsShort(contract, first, compiled, permits);
          return EvidenceRequired, None;
        }
        if obtained.None? {
          EndsRaised(contract, first, Contents(), compiled, permits, None);
          return Raised, None;
        }
        var row := obtained.value;
        if row.query != query {
          EndsDrifting(contract, first, Contents(), compiled, answers, permits, ordinal, query, digests, queries);
          return Drift, None;
        }
        checks := left;
        if row.evidence.documents == 0 {
          RowStops(contract, Contents(), ordinal, query, digests, queries, row, NoEvidence);
          reason, stopped := NoEvidence, true;
        } else if row.evidence.digest in digests {
          RowStops(contract, Contents(), ordinal, query, digests, queries, row, NoProgress);
          reason, stopped := NoProgress, true;
        } else {
          ghost var asking := Contents();
          var decision, recovered, paid, rest := Ask(ordinal, query, digests, queries, answers(ordinal), checks);
          paidAt := if paid then Some(ordinal) else None;
          AsksProgress(contract, first, asking, Contents(), compiled, answers, ordinal, paid);
          ReportsStay(asking, Contents(), report);
          if decision.None? {
            if checks >= 2 { CallUnanswered(contract, Contents(), ordinal, query, digests, queries, row); }
            EndsRaised(contract, first, Contents(), compiled, permits, paidAt);
            return Raised, paidAt;
          }
          checks := rest;
          ReportsMore(Contents(), report, Reviewed(query, row.evidence.digest, decision.value));
          report := report + [Reviewed(query, row.evidence.digest, decision.value)];
          if decision.value.stop {
            DecisionStops(contract, Contents(), ordinal, query, digests, queries, row, decision.value, ModelStop);
            reason, stopped := ModelStop, true;
          } else if Repeats(contract, queries + [query], decision.value.next) {
            DecisionStops(contract, Contents(), ordinal, query, digests, queries, row, decision.value, RepeatedQuery);
            reason, stopped := RepeatedQuery, true;
          } else {
            LeadsOn(contract, Contents(), ordinal, query, digests, queries);
            ArrivesNext(contract, Contents(), ordinal, query, digests, queries, decision.value.next);
            if ordinal < contract.limit && !recovered {
              EndsGoingOn(contract, first, Contents(), compiled, permits, ordinal, decision.value.next,
                          digests + [row.evidence.digest], queries + [query]);
              return Continue(ordinal), paidAt;
            }
            digests, queries := digests + [row.evidence.digest], queries + [query];
            query, ordinal := decision.value.next, ordinal + 1;
          }
        }
      }
      if !stopped { LimitStops(contract, Contents(), ordinal, query, digests, queries); }
      EndsStopped(contract, first, Contents(), compiled, permits, paidAt, reason, report);
      if checks == 0 {
        EndsRaised(contract, first, Contents(), compiled, permits, paidAt);
        return Raised, paidAt;
      }
      Complete(reason, report);
      reply := Completed(reason, report);
    }
  }

  lemma NoProgressYet(c: Contract, t: Tables, compiled: nat -> Evidence, answers: nat -> Answer)
    ensures Progress(c, t, t, compiled, answers, None)
  {
    EvolvesSelf(t);
  }

  /** Obtaining a round. */
  lemma FreezesProgress(c: Contract, first: Tables, t: Tables, t': Tables, compiled: nat -> Evidence, answers: nat -> Answer,
                        ordinal: nat, query: string)
    requires Progress(c, first, t, compiled, answers, None)
    requires Evolves(t, t') && (Linked(c, t) ==> Linked(c, t')) && t'.calls == t.calls
    requires t'.rounds == t.rounds
             || (RoundAt(t, ordinal).None? && t'.rounds == t.rounds + [Round(ordinal, query, compiled(ordinal))])
    ensures Progress(c, first, t', compiled, answers, None)
  {
    EvolvesOn(first, t, t');
    FreezesOne(first, t, t', Round(ordinal, query, compiled(ordinal)), compiled);
    hide Evolves, Linked, FrozenFrom;
  }

  /** Asking for its decision. */
  lemma AsksProgress(c: Contract, first: Tables, t: Tables, t': Tables, compiled: nat -> Evidence, answers: nat -> Answer,
                     ordinal: nat, paid: bool)
    requires Progress(c, first, t, compiled, answers, None)
    requires Evolves(t, t') && (Linked(c, t) ==> Linked(c, t')) && t'.rounds == t.rounds
    requires if paid then OnlyCall(t.calls, t'.calls, ordinal) && Saved(t, ordinal).None?
                          && ordinal in t'.calls && t'.calls[ordinal] == Settled(answers(ordinal))
             else t'.calls == t.calls
    ensures Progress(c, first, t', compiled, answers, if paid then Some(ordinal) else None)
  {
    EvolvesOn(first, t, t');
    FreezesOne(first, t, t', Round(ordinal, "", compiled(ordinal)), compiled);
    if paid { FirstUnsaved(first, t, ordinal); }
    hide Evolves, Linked, FrozenFrom;
  }

  lemma EndsShort(c: Contract, t: Tables, compiled: nat -> Evidence, permits: nat)
    requires compiled(1).documents == 0 && ReplayAll(c, t) == NeedsRound(1, c.goal)
    ensures EndsAs(c, t, t, compiled, permits, None, EvidenceRequired)
  {
  }

  lemma EndsRaised(c: Contract, first: Tables, t: Tables, compiled: nat -> Evidence, permits: nat, paidAt: Option<nat>)
    requires permits <= 4 * c.limit || Unanswered(c, t)
    ensures EndsAs(c, first, t, compiled, permits, paidAt, Raised)
  {
  }

  lemma EndsStopped(c: Contract, first: Tables, t: Tables, compiled: nat -> Evidence, permits: nat, paidAt: Option<nat>,
                    reason: Reason, report: seq<Reviewed>)
    requires ReplayAll(c, t) == Stops(reason) && Reports(t, report)
    ensures EndsAs(c, first, t, compiled, permits, paidAt, Completed(reason, report))
  {
  }

  lemma EndsDrifting(c: Contract, first: Tables, t: Tables, compiled: nat -> Evidence, answers: nat -> Answer, permits: nat,
                     ordinal: nat, query: string, digests: seq<nat>, queries: seq<string>)
    requires Progress(c, first, t, compiled, answers, None) && ordinal <= c.limit
    requires Arrives(c, t, ordinal, query, digests, queries) && RoundAt(t, ordinal).Some? && RoundAt(t, ordinal).value.query != query
    ensures EndsAs(c, first, t, compiled, permits, None, Drift)
  {
    DriftIsForeign(c, t, ordinal, query, digests, queries);
    ReplayTurn(c, t, ordinal, query, digests, queries);
    hide RoundAt, Linked, Arrives, ReplayAll, Replay, Evolves;
  }

  lemma EndsGoingOn(c: Contract, first: Tables, t: Tables, compiled: nat -> Evidence, permits: nat,
                    ordinal: nat, query: string, digests: seq<nat>, queries: seq<string>)
    requires ordinal < c.limit && Saved(t, ordinal).Some? && Arrives(c, t, ordinal + 1, query, digests, queries)
    ensures EndsAs(c, first, t, compiled, permits, Some(ordinal), Continue(ordinal))
  {
  }

  lemma ReportsNothing(t: Tables)
    ensures Reports(t, [])
  {
  }

  /** Freezing a round with what was compiled for it, or freezing nothing. */
  lemma FreezesOne(first: Tables, t: Tables, t': Tables, row: Round, compiled: nat -> Evidence)
    requires FrozenFrom(first, t, compiled)
    requires t'.rounds == t.rounds
             || (RoundAt(t, row.ordinal).None? && t'.rounds == t.rounds + [row] && row.evidence == compiled(row.ordinal))
    ensures FrozenFrom(first, t', compiled)
  {
    if t'.rounds != t.rounds { assert t'.rounds[..|t.rounds|] == t.rounds; }
    forall o | RoundAt(first, o).None? && RoundAt(t', o).Some? ensures RoundAt(t', o).value.evidence == compiled(o) {
      if t'.rounds == t.rounds || o != row.ordinal { assert RoundAt(t', o) == RoundAt(t, o); }
    }
  }

  lemma CallUnanswered(c: Contract, t: Tables, ordinal: nat, query: string, digests: seq<nat>, queries: seq<string>, row: Round)
    requires Arrives(c, t, ordinal, query, digests, queries) && ordinal <= c.limit && RoundAt(t, ordinal) == Some(row)
    requires row.query == query && row.evidence.documents > 0 && row.evidence.digest !in digests
    requires Saved(t, ordinal).None? && ordinal in t.calls && !t.calls[ordinal].Reserved?
    ensures Unanswered(c, t)
  {
    ReplayTurn(c, t, ordinal, query, digests, queries);
    hide RoundAt, Saved, Arrives, ReplayAll, Replay;
  }

  /** The replay stops at a frozen round without evidence, or without new evidence. */
  lemma RowStops(c: Contract, t: Tables, ordinal: nat, query: string, digests: seq<nat>, queries: seq<string>, row: Round, reason: Reason)
    requires Arrives(c, t, ordinal, query, digests, queries) && ordinal <= c.limit && RoundAt(t, ordinal) == Some(row) && row.query == query
    requires if row.evidence.documents == 0 then reason == NoEvidence else row.evidence.digest in digests && reason == NoProgress
    ensures ReplayAll(c, t) == Stops(reason)
  {
    ReplayTurn(c, t, ordinal, query, digests, queries);
    hide RoundAt, Saved, Arrives, ReplayAll, Replay;
  }

  /** It stops at a saved decision that says so, or that asks what was asked before. */
  lemma DecisionStops(c: Contract, t: Tables, ordinal: nat, query: string, digests: seq<nat>, queries: seq<string>, row: Round,
                      decision: Decision, reason: Reason)
    requires Arrives(c, t, ordinal, query, digests, queries) && ordinal <= c.limit && RoundAt(t, ordinal) == Some(row)
    requires row.query == query && row.evidence.documents > 0 && row.evidence.digest !in digests
    requires Saved(t, ordinal) == Some(decision)
    requires if decision.stop then reason == ModelStop else Repeats(c, queries + [query], decision.next) && reason == RepeatedQuery
    ensures ReplayAll(c, t) == Stops(reason)
  {
    ReplayTurn(c, t, ordinal, query, digests, queries);
    hide RoundAt, Saved, Arrives, ReplayAll, Replay, Repeats;
  }

  lemma LimitStops(c: Contract, t: Tables, ordinal: nat, query: string, digests: seq<nat>, queries: seq<string>)
    requires Arrives(c, t, ordinal, query, digests, queries) && ordinal > c.limit
    ensures ReplayAll(c, t) == Stops(RoundLimit)
  {
    ReplayTurn(c, t, ordinal, query, digests, queries);
  }

  lemma ReportsStay(t: Tables, t': Tables, report: seq<Reviewed>)
    requires Reports(t, report) && Evolves(t, t')
    ensures Reports(t', report)
  {
    hide RoundAt, Saved;
    forall k | 0 <= k < |report| ensures ReportedAt(t', k + 1, report[k]) {
      assert ReportedAt(t, k + 1, report[k]);
    }
  }

  lemma ReportsMore(t: Tables, report: seq<Reviewed>, entry: Reviewed)
    requires Reports(t, report) && ReportedAt(t, |report| + 1, entry)
    ensures Reports(t, report + [entry])
  {
    hide ReportedAt;
  }

  /** Only rounds that no worker wrote can drift. */
  lemma DriftIsForeign(c: Contract, t: Tables, ordinal: nat, query: string, digests: seq<nat>, queries: seq<string>)
    requires Arrives(c, t, ordinal, query, digests, queries) && RoundAt(t, ordinal).Some? && RoundAt(t, ordinal).value.query != query
    ensures !Linked(c, t)
  {
    hide Arrives, Linked, RoundAt, Evolves;
    if Linked(c, t) {
      EvolvesSelf(t);
      RowMeetsQuery(c, t, t, ordinal, query, digests, queries);
      assert false;
    }
  }

  lemma IsThere(t: Tables, ordinal: nat)
    requires FindRound(t.rounds, ordinal).Some?
    ensures RoundAt(t, ordinal) == Some(t.rounds[FindRound(t.rounds, ordinal).value])
  {
  }

  lemma AtFirst(c: Contract, t: Tables, ordinal: nat, query: string, digests: seq<nat>, queries: seq<string>)
    requires Arrives(c, t, ordinal, query, digests, queries) && queries == []
    ensures ordinal == 1 && query == c.goal
  {
  }

  lemma AskEvolves(t: Tables, t': Tables, ordinal: nat, paid: bool, call: Call)
    requires t'.rounds == t.rounds
    requires paid <==> ordinal !in t.calls || t.calls[ordinal].Reserved?
    requires t'.calls == if paid then t.calls[ordinal := call] else t.calls
    ensures Evolves(t, t')
    ensures paid ==> Saved(t, ordinal).None? && OnlyCall(t.calls, t'.calls, ordinal)
    ensures !paid ==> Saved(t', ordinal) == Saved(t, ordinal)
  {
  }

  lemma SameRounds(t: Tables, t': Tables, ordinal: nat)
    requires t'.rounds == t.rounds
    ensures RoundAt(t', ordinal) == RoundAt(t, ordinal)
  {
  }

  lemma SavedMeans(t: Tables, ordinal: nat)
    ensures Saved(t, ordinal).Some? <==> ordinal in t.calls && t.calls[ordinal].Settled? && t.calls[ordinal].decision.Some?
  {
  }

  lemma FirstUnsaved(t: Tables, t': Tables, ordinal: nat)
    requires Evolves(t, t') && Saved(t', ordinal).None?
    ensures Saved(t, ordinal).None?
  {
  }
}
