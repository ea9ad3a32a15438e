/** Tables whose rounds are exactly those a replay arrives at. */
module InvestigationLinks {
  import opened Basics
  import opened Investigation

  function DigestsOf(rounds: seq<Round>): (s: seq<nat>)
    ensures |s| == |rounds| && forall k :: 0 <= k < |rounds| ==> s[k] == rounds[k].evidence.digest
  {
    seq(|rounds|, k requires 0 <= k < |rounds| => rounds[k].evidence.digest)
  }

  function QueriesOf(rounds: seq<Round>): (s: seq<string>)
    ensures |s| == |rounds| && forall k :: 0 <= k < |rounds| ==> s[k] == rounds[k].query
  {
    seq(|rounds|, k requires 0 <= k < |rounds| => rounds[k].query)
  }

  /** Every frozen round is one the replay arrives at, with exactly its query. */
  predicate Linked(c: Contract, t: Tables) {
    && |t.rounds| <= c.limit
    && forall k :: 0 <= k < |t.rounds| ==>
         && t.rounds[k].ordinal == k + 1
         && Arrives(c, t, k + 1, t.rounds[k].query, DigestsOf(t.rounds[..k]), QueriesOf(t.rounds[..k]))
  }

  lemma FindOrdered(t: Tables, ordinal: nat)
    requires forall k :: 0 <= k < |t.rounds| ==> t.rounds[k].ordinal == k + 1
    ensures RoundAt(t, ordinal) == if 1 <= ordinal <= |t.rounds| then Some(t.rounds[ordinal - 1]) else None
  {
    if 1 <= ordinal <= |t.rounds| { assert t.rounds[ordinal - 1].ordinal == ordinal; }
  }

  lemma LinkedAt(c: Contract, t: Tables, k: nat)
    requires Linked(c, t) && k < |t.rounds|
    ensures Arrives(c, t, k + 1, t.rounds[k].query, DigestsOf(t.rounds[..k]), QueriesOf(t.rounds[..k]))
    ensures RoundAt(t, k + 1) == Some(t.rounds[k]) && t.rounds[k].ordinal == k + 1 <= c.limit
  {
    hide Arrives;
    FindOrdered(t, k + 1);
  }

  lemma NoRoundAfter(c: Contract, t: Tables, ordinal: nat)
    requires Linked(c, t) && RoundAt(t, ordinal).Some?
    ensures 1 <= ordinal <= |t.rounds|
  {
    hide Arrives;
    FindOrdered(t, ordinal);
  }

  lemma NoRoundHere(c: Contract, t: Tables, ordinal: nat)
    requires Linked(c, t) && RoundAt(t, ordinal).None? && ordinal >= 1
    ensures ordinal > |t.rounds|
  {
    hide Arrives;
    FindOrdered(t, ordinal);
  }

  lemma Snoc(rounds: seq<Round>, k: nat)
    requires k < |rounds|
    ensures DigestsOf(rounds[..k + 1]) == DigestsOf(rounds[..k]) + [rounds[k].evidence.digest]
    ensures QueriesOf(rounds[..k + 1]) == QueriesOf(rounds[..k]) + [rounds[k].query]
  {
  }

  lemma ArrivesBack(c: Contract, t: Tables, ordinal: nat, query: string, digests: seq<nat>, queries: seq<string>)
    requires Arrives(c, t, ordinal, query, digests, queries) && ordinal > 1
    ensures |digests| == |queries| == ordinal - 1 <= c.limit
    ensures var n := |queries| - 1;
      && Arrives(c, t, ordinal - 1, queries[n], digests[..n], queries[..n])
      && Leads(c, t, ordinal - 1, queries[n], digests[..n], queries[..n], query)
      && RoundAt(t, ordinal - 1).value.evidence.digest == digests[n]
  {
    hide Leads;
  }

  lemma ArrivesStart(c: Contract, t: Tables, ordinal: nat, query: string, digests: seq<nat>, queries: seq<string>)
    requires Arrives(c, t, ordinal, query, digests, queries) && ordinal <= 1
    ensures ordinal == 1 && query == c.goal && digests == [] && queries == []
  {
  }

  lemma LeadsFacts(c: Contract, t: Tables, ordinal: nat, query: string, digests: seq<nat>, queries: seq<string>, next: string)
    requires Leads(c, t, ordinal, query, digests, queries, next)
    ensures RoundAt(t, ordinal).Some? && RoundAt(t, ordinal).value.query == query && Saved(t, ordinal) == Some(Decision(false, next))
  {
  }

  /** The rounds on the way decide where the replay arrives. */
  lemma {:induction false} ArrivesOnce(c: Contract, t: Tables, ordinal: nat, query: string, digests: seq<nat>, queries: seq<string>)
    requires Linked(c, t) && Arrives(c, t, ordinal, query, digests, queries)
    ensures 1 <= ordinal <= |t.rounds| + 1
    ensures digests == DigestsOf(t.rounds[..ordinal - 1]) && queries == QueriesOf(t.rounds[..ordinal - 1])
  {
    hide Linked, Arrives, Leads, RoundAt, Saved;
    if ordinal <= 1 {
      ArrivesStart(c, t, ordinal, query, digests, queries);
      assert DigestsOf([]) == [] && QueriesOf([]) == [];
    } else {
      var n := |queries| - 1;
      ArrivesBack(c, t, ordinal, query, digests, queries);
      LeadsFacts(c, t, ordinal - 1, queries[n], digests[..n], queries[..n], query);
      ArrivesOnce(c, t, ordinal - 1, queries[n], digests[..n], queries[..n]);
      NoRoundAfter(c, t, ordinal - 1);
      LinkedAt(c, t, n);
      Snoc(t.rounds, n);
      assert digests == digests[..n] + [digests[n]] && queries == queries[..n] + [queries[n]];
    }
  }

  lemma LinkedGrows(c: Contract, t: Tables, t': Tables)
    requires Linked(c, t) && Evolves(t, t') && t'.rounds == t.rounds
    ensures Linked(c, t')
  {
    hide Arrives, Evolves;
    forall k | 0 <= k < |t.rounds|
      ensures Arrives(c, t', k + 1, t.rounds[k].query, DigestsOf(t.rounds[..k]), QueriesOf(t.rounds[..k]))
    {
      ArrivesStays(c, t, t', k + 1, t.rounds[k].query, DigestsOf(t.rounds[..k]), QueriesOf(t.rounds[..k]));
    }
  }

  function Insert(t: Tables, row: Round): Tables {
    if FindRound(t.rounds, row.ordinal).Some? then t else t.(rounds := t.rounds + [row])
  }

  lemma FreezeNext(c: Contract, t: Tables, row: Round, digests: seq<nat>, queries: seq<string>)
    requires Linked(c, t) && Arrives(c, t, row.ordinal, row.query, digests, queries) && row.ordinal <= c.limit
    ensures Linked(c, Insert(t, row)) && Evolves(t, Insert(t, row))
  {
    hide Arrives, Evolves, Linked, RoundAt, FindRound, DigestsOf, QueriesOf;
    ArrivesOnce(c, t, row.ordinal, row.query, digests, queries);
    NotThere(t, row.ordinal);
    if FindRound(t.rounds, row.ordinal).None? {
      NoRoundHere(c, t, row.ordinal);
      InsertEvolves(t, row);
      assert t.rounds[..row.ordinal - 1] == t.rounds;
      LinkedExtends(c, t, row);
    } else {
      EvolvesSelf(t);
    }
  }

  lemma LinkedExtends(c: Contract, t: Tables, row: Round)
    requires Linked(c, t) && row.ordinal == |t.rounds| + 1 <= c.limit
    requires Arrives(c, t, row.ordinal, row.query, DigestsOf(t.rounds), QueriesOf(t.rounds))
    requires Evolves(t, t.(rounds := t.rounds + [row]))
    ensures Linked(c, t.(rounds := t.rounds + [row]))
  {
    hide Arrives, Evolves;
    var t' := t.(rounds := t.rounds + [row]);
    forall k | 0 <= k < |t'.rounds|
      ensures t'.rounds[k].ordinal == k + 1
      ensures Arrives(c, t', k + 1, t'.rounds[k].query, DigestsOf(t'.rounds[..k]), QueriesOf(t'.rounds[..k]))
    {
      assert t'.rounds[..k] == t.rounds[..k];
      if k == |t.rounds| { assert t.rounds[..k] == t.rounds; }
      ArrivesStays(c, t, t', k + 1, t'.rounds[k].query, DigestsOf(t.rounds[..k]), QueriesOf(t.rounds[..k]));
    }
  }

  /** Two arrivals at one round ask the same query. */
  lemma ArrivesAlike(c: Contract, t: Tables, ordinal: nat, query: string, query': string, digests: seq<nat>, queries: seq<string>)
    requires Arrives(c, t, ordinal, query, digests, queries) && Arrives(c, t, ordinal, query', digests, queries)
    ensures query == query'
  {
    hide Arrives, Leads;
    if ordinal <= 1 {
      ArrivesStart(c, t, ordinal, query, digests, queries);
      ArrivesStart(c, t, ordinal, query', digests, queries);
    } else {
      var n := |queries| - 1;
      ArrivesBack(c, t, ordinal, query, digests, queries);
      ArrivesBack(c, t, ordinal, query', digests, queries);
      LeadsFacts(c, t, ordinal - 1, queries[n], digests[..n], queries[..n], query);
      LeadsFacts(c, t, ordinal - 1, queries[n], digests[..n], queries[..n], query');
    }
  }

  /** A worker that arrived at a round in an earlier table and reads its row in a later one meets its own query. */
  lemma RowMeetsQuery(c: Contract, t: Tables, t': Tables, ordinal: nat, query: string, digests: seq<nat>, queries: seq<string>)
    requires Arrives(c, t, ordinal, query, digests, queries) && Evolves(t, t') && Linked(c, t') && RoundAt(t', ordinal).Some?
    ensures RoundAt(t', ordinal).value.query == query
  {
    hide Arrives, Evolves, Linked, RoundAt;
    ArrivesStays(c, t, t', ordinal, query, digests, queries);
    ArrivesOnce(c, t', ordinal, query, digests, queries);
    NoRoundAfter(c, t', ordinal);
    LinkedAt(c, t', ordinal - 1);
    ArrivesAlike(c, t', ordinal, query, t'.rounds[ordinal - 1].query, digests, queries);
  }
}
