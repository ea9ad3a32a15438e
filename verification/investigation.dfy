/** The tables of a bounded investigation, and what replaying them finds. */
module Investigation {
  import opened Basics

  /** A compiled bundle: how many documents it holds, and its digest. */
  datatype Evidence = Evidence(documents: nat, digest: nat)

  datatype Round = Round(ordinal: nat, query: string, evidence: Evidence)

  datatype Decision = Decision(stop: bool, next: string)

  /** The reservation of a round's model call. */
  datatype Call = Reserved | Dispatched | Settled(decision: Option<Decision>)

  datatype Tables = Tables(rounds: seq<Round>, calls: map<nat, Call>)

  datatype Reason = RoundLimit | NoEvidence | NoProgress | ModelStop | RepeatedQuery

  /** What an investigation is about; `normal` folds case and white space. */
  datatype Contract = Contract(goal: string, limit: nat, normal: string -> string)

  function FindRound(rounds: seq<Round>, ordinal: nat): (i: Option<nat>)
    ensures i.Some? ==> i.value < |rounds| && rounds[i.value].ordinal == ordinal
    ensures i.None? ==> forall k :: 0 <= k < |rounds| ==> rounds[k].ordinal != ordinal
  {
    if rounds == [] then None
    else if rounds[|rounds| - 1].ordinal == ordinal then Some(|rounds| - 1)
    else FindRound(rounds[..|rounds| - 1], ordinal)
  }

  function Saved(t: Tables, ordinal: nat): Option<Decision> {
    if ordinal in t.calls && t.calls[ordinal].Settled? then t.calls[ordinal].decision else None
  }

  predicate Repeats(c: Contract, queries: seq<string>, next: string) {
    exists q :: q in queries && c.normal(q) == c.normal(next)
  }

  // ---------- What a worker finds when it replays the tables without paying for anything ----------

  datatype Finding =
    | Stops(reason: Reason)
    | Drifts(ordinal: nat)
    | NeedsRound(ordinal: nat, query: string)
    | NeedsDecision(ordinal: nat)

  function Replay(c: Contract, t: Tables, ordinal: nat, query: string, digests: seq<nat>, queries: seq<string>): Finding
    decreases c.limit + 1 - ordinal
  {
    if ordinal > c.limit then Stops(RoundLimit)
    else if FindRound(t.rounds, ordinal).None? then NeedsRound(ordinal, query)
    else
      var row := t.rounds[FindRound(t.rounds, ordinal).value];
      if row.query != query then Drifts(ordinal)
      else if row.evidence.documents == 0 then Stops(NoEvidence)
      else if row.evidence.digest in digests then Stops(NoProgress)
      else if Saved(t, ordinal).None? then NeedsDecision(ordinal)
      else
        var decision := Saved(t, ordinal).value;
        if decision.stop then Stops(ModelStop)
        else if Repeats(c, queries + [query], decision.next) then Stops(RepeatedQuery)
        else Replay(c, t, ordinal + 1, decision.next, digests + [row.evidence.digest], queries + [query])
  }

  function ReplayAll(c: Contract, t: Tables): Finding { Replay(c, t, 1, c.goal, [], []) }

  function RoundAt(t: Tables, ordinal: nat): Option<Round> {
    var i := FindRound(t.rounds, ordinal);
    if i.Some? then Some(t.rounds[i.value]) else None
  }

  /** Round `ordinal` was decided and leads to the query `next`. */
  predicate Leads(c: Contract, t: Tables, ordinal: nat, query: string, digests: seq<nat>, queries: seq<string>, next: string) {
    && RoundAt(t, ordinal).Some?
    && var row := RoundAt(t, ordinal).value;
       && row.query == query
       && row.evidence.documents > 0
       && row.evidence.digest !in digests
       && Saved(t, ordinal) == Some(Decision(false, next))
       && !Repeats(c, queries + [query], next)
  }

  /** The replay gets to `ordinal`, asking `query`, after the rounds with these digests and queries. */
  predicate Arrives(c: Contract, t: Tables, ordinal: nat, query: string, digests: seq<nat>, queries: seq<string>)
    decreases ordinal
  {
    if ordinal <= 1 then ordinal == 1 && query == c.goal && digests == [] && queries == []
    else
      && |digests| == |queries| == ordinal - 1
      && ordinal - 1 <= c.limit
      && var n := |queries| - 1;
         && Arrives(c, t, ordinal - 1, queries[n], digests[..n], queries[..n])
         && Leads(c, t, ordinal - 1, queries[n], digests[..n], queries[..n], query)
         && RoundAt(t, ordinal - 1).value.evidence.digest == digests[n]
  }

  lemma {:induction false} ArrivesReplays(c: Contract, t: Tables, ordinal: nat, query: string, digests: seq<nat>, queries: seq<string>)
    requires Arrives(c, t, ordinal, query, digests, queries)
    ensures ReplayAll(c, t) == Replay(c, t, ordinal, query, digests, queries)
    decreases ordinal
  {
    if ordinal > 1 {
      var n := |queries| - 1;
      ArrivesReplays(c, t, ordinal - 1, queries[n], digests[..n], queries[..n]);
      assert digests[..n] + [digests[n]] == digests && queries[..n] + [queries[n]] == queries;
    }
  }

  /** Rows and saved decisions are never changed, only added. */
  ghost predicate Evolves(t: Tables, t': Tables) {
    && (forall o :: RoundAt(t, o).Some? ==> RoundAt(t', o) == RoundAt(t, o))
    && (forall o :: Saved(t, o).Some? ==> Saved(t', o) == Saved(t, o))
  }

  lemma {:induction false} ArrivesStays(c: Contract, t: Tables, t': Tables, ordinal: nat, query: string, digests: seq<nat>, queries: seq<string>)
    requires Arrives(c, t, ordinal, query, digests, queries) && Evolves(t, t')
    ensures Arrives(c, t', ordinal, query, digests, queries)
    decreases ordinal
  {
    hide RoundAt, Saved, Repeats;
    if ordinal > 1 {
      var n := |queries| - 1;
      ArrivesStays(c, t, t', ordinal - 1, queries[n], digests[..n], queries[..n]);
    }
  }

  lemma InsertEvolves(t: Tables, row: Round)
    requires RoundAt(t, row.ordinal).None?
    ensures Evolves(t, t.(rounds := t.rounds + [row])) && RoundAt(t.(rounds := t.rounds + [row]), row.ordinal) == Some(row)
  {
    var t' := t.(rounds := t.rounds + [row]);
    assert t'.rounds[..|t.rounds|] == t.rounds;
  }

  lemma CallEvolves(t: Tables, ordinal: nat, call: Call)
    requires Saved(t, ordinal).None?
    ensures Evolves(t, t.(calls := t.calls[ordinal := call]))
  {
  }

  lemma EvolvesSelf(t: Tables)
    ensures Evolves(t, t)
  {
  }

  lemma EvolvesOn(a: Tables, b: Tables, c: Tables)
    requires Evolves(a, b) && Evolves(b, c)
    ensures Evolves(a, c)
  {
  }

  lemma ArrivesFirst(c: Contract, t: Tables)
    ensures Arrives(c, t, 1, c.goal, [], [])
  {
  }

  /** One turn of the replay. */
  lemma ReplayTurn(c: Contract, t: Tables, ordinal: nat, query: string, digests: seq<nat>, queries: seq<string>)
    requires Arrives(c, t, ordinal, query, digests, queries)
    ensures ordinal > c.limit ==> ReplayAll(c, t) == Stops(RoundLimit)
    ensures ordinal <= c.limit && RoundAt(t, ordinal).None? ==> ReplayAll(c, t) == NeedsRound(ordinal, query)
    ensures ordinal <= c.limit && RoundAt(t, ordinal).Some? ==>
              var row := RoundAt(t, ordinal).value;
              ReplayAll(c, t) ==
              (if row.query != query then Drifts(ordinal)
               else if row.evidence.documents == 0 then Stops(NoEvidence)
               else if row.evidence.digest in digests then Stops(NoProgress)
               else if Saved(t, ordinal).None? then NeedsDecision(ordinal)
               else if Saved(t, ordinal).value.stop then Stops(ModelStop)
               else if Repeats(c, queries + [query], Saved(t, ordinal).value.next) then Stops(RepeatedQuery)
               else Replay(c, t, ordinal + 1, Saved(t, ordinal).value.next, digests + [row.evidence.digest], queries + [query]))
  {
    ArrivesReplays(c, t, ordinal, query, digests, queries);
  }

  lemma ArrivesNext(c: Contract, t: Tables, ordinal: nat, query: string, digests: seq<nat>, queries: seq<string>, next: string)
    requires Arrives(c, t, ordinal, query, digests, queries) && Leads(c, t, ordinal, query, digests, queries, next)
    requires 1 <= ordinal <= c.limit
    ensures Arrives(c, t, ordinal + 1, next, digests + [RoundAt(t, ordinal).value.evidence.digest], queries + [query])
  {
    var digest := RoundAt(t, ordinal).value.evidence.digest;
    assert (digests + [digest])[..|digests|] == digests && (queries + [query])[..|queries|] == queries;
    hide RoundAt, Leads, Repeats, Saved;
  }

  lemma LeadsOn(c: Contract, t: Tables, ordinal: nat, query: string, digests: seq<nat>, queries: seq<string>)
    requires RoundAt(t, ordinal).Some? && Saved(t, ordinal).Some?
    requires var row := RoundAt(t, ordinal).value;
      row.query == query && row.evidence.documents > 0 && row.evidence.digest !in digests
    requires !Saved(t, ordinal).value.stop && !Repeats(c, queries + [query], Saved(t, ordinal).value.next)
    ensures Leads(c, t, ordinal, query, digests, queries, Saved(t, ordinal).value.next)
  {
  }

  lemma NotThere(t: Tables, ordinal: nat)
    ensures FindRound(t.rounds, ordinal).None? <==> RoundAt(t, ordinal).None?
  {
  }
}
