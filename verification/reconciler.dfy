/** The reconciler's rotating cursor over the unresolved operations of a tenant. */
module Reconciler {
  import opened Basics

  /** Identifiers are positive and ordered; a cursor of 0 stands before all of them. */
  type OperationId = nat

  const PAGE: nat := 100

  lemma {:induction false} LowestExists(s: set<OperationId>) returns (m: OperationId)
    requires s != {}
    ensures m in s && forall y :: y in s ==> m <= y
  {
    var x :| x in s;
    if s == {x} {
      m := x;
    } else {
      var rest := LowestExists(s - {x});
      assert forall y :: y in s ==> y == x || y in s - {x};
      m := if x < rest then x else rest;
    }
  }

  ghost function Lowest(s: set<OperationId>): (m: OperationId)
    requires s != {}
    ensures m in s && forall y :: y in s ==> m <= y
  {
    assert exists m :: m in s && forall y :: y in s ==> m <= y by { var m := LowestExists(s); }
    var m :| m in s && forall y :: y in s ==> m <= y;
    m
  }

  /** The first identifiers in order, at most `limit` of them. */
  ghost function FirstOf(s: set<OperationId>, limit: nat): seq<OperationId>
    decreases limit
  {
    if limit == 0 || s == {} then [] else [Lowest(s)] + FirstOf(s - {Lowest(s)}, limit - 1)
  }

  ghost function Beyond(backlog: set<OperationId>, cursor: OperationId): set<OperationId> {
    set y | y in backlog && y > cursor
  }

  /** The rows of one call. */
  ghost function PageOf(backlog: set<OperationId>, cursor: OperationId): seq<OperationId> {
    var rows := FirstOf(Beyond(backlog, cursor), PAGE);
    if rows == [] && cursor != 0 then FirstOf(backlog, PAGE) else rows
  }

  ghost function CursorAfter(backlog: set<OperationId>, cursor: OperationId): OperationId {
    var rows := PageOf(backlog, cursor);
    if rows == [] then 0 else rows[|rows| - 1]
  }

  class ReconcileCursor {
    var cursor: OperationId

    constructor ()
      ensures cursor == 0
    {
      cursor := 0;
    }

    /** The query the database answers. */
    static method Query(rows: set<OperationId>, limit: nat) returns (page: seq<OperationId>)
      ensures page == FirstOf(rows, limit)
    {
      hide FirstOf;
      page := [];
      var left := rows;
      while |page| < limit && left != {}
        invariant |page| <= limit
        invariant FirstOf(rows, limit) == page + FirstOf(left, limit - |page|)
        decreases limit - |page|
      {
        var x: OperationId :| x in left;
        var others := left - {x};
        while others != {}
          invariant x in left && others <= left && forall y :: y in left && y !in others ==> x <= y
          decreases |others|
        {
          var y: OperationId :| y in others;
          if y < x { x := y; }
          others := others - {y};
        }
        assert x == Lowest(left);
        FirstStep(left, limit - |page|);
        assert page + ([x] + FirstOf(left - {x}, limit - |page| - 1)) == page + [x] + FirstOf(left - {x}, limit - |page| - 1);
        page, left := page + [x], left - {x};
      }
      FirstNone(left, limit - |page|);
    }

    method ReconcileOnce(backlog: set<OperationId>) returns (rows: seq<OperationId>)
      modifies this
      ensures rows == PageOf(backlog, old(cursor)) && cursor == CursorAfter(backlog, old(cursor))
    {
      rows := Query((set y | y in backlog && y > cursor), PAGE);
      if rows == [] && cursor != 0 {
        rows := Query(backlog, PAGE);
      }
      cursor := if rows == [] then 0 else rows[|rows| - 1];
    }
  }

  // ---------- Fairness ----------

  ghost function Elements(rows: seq<OperationId>): set<OperationId> { set y | y in rows }

  lemma ElementsCons(m: OperationId, tail: seq<OperationId>)
    ensures Elements([m] + tail) == {m} + Elements(tail)
  {
  }

  lemma FirstNone(s: set<OperationId>, limit: nat)
    requires limit == 0 || s == {}
    ensures FirstOf(s, limit) == []
  {
  }

  lemma FirstStep(s: set<OperationId>, limit: nat)
    requires limit > 0 && s != {}
    ensures FirstOf(s, limit) == [Lowest(s)] + FirstOf(s - {Lowest(s)}, limit - 1)
    ensures FirstOf({}, limit) == []
  {
  }

  lemma {:induction false} FirstTaken(s: set<OperationId>, limit: nat)
    ensures Elements(FirstOf(s, limit)) <= s
    ensures |Elements(FirstOf(s, limit))| == |FirstOf(s, limit)| == (if |s| < limit then |s| else limit)
    decreases limit
  {
    if limit != 0 && s != {} {
      var m, rest := Lowest(s), s - {Lowest(s)};
      FirstTaken(rest, limit - 1);
      FirstStep(s, limit);
      ElementsCons(m, FirstOf(rest, limit - 1));
      hide Elements, FirstOf, Lowest;
    }
  }

  lemma {:induction false} FirstLast(s: set<OperationId>, limit: nat)
    ensures var rows := FirstOf(s, limit); forall k :: 0 <= k < |rows| ==> rows[k] in s && rows[k] <= rows[|rows| - 1]
    decreases limit
  {
    if limit != 0 && s != {} {
      var rest := s - {Lowest(s)};
      FirstLast(rest, limit - 1);
      FirstStep(s, limit);
      hide FirstOf;
    }
  }

  /** What the first identifiers are: rows of the set, as many as asked for or all, ending with their greatest. */
  lemma FirstFacts(s: set<OperationId>, limit: nat)
    ensures var rows := FirstOf(s, limit);
      var taken := Elements(rows);
      && taken <= s
      && |taken| == |rows| == (if |s| < limit then |s| else limit)
      && (forall y :: y in taken ==> y <= rows[|rows| - 1])
      && (rows != [] ==> rows[|rows| - 1] in taken)
  {
    FirstTaken(s, limit);
    FirstLast(s, limit);
    hide FirstOf;
  }

  lemma {:induction false} FirstLowest(s: set<OperationId>, limit: nat, y: OperationId, z: OperationId)
    requires y in FirstOf(s, limit) && z in s && z !in FirstOf(s, limit)
    ensures y < z
    decreases limit
  {
    var m, rest := Lowest(s), s - {Lowest(s)};
    assert z != m by { assert FirstOf(s, limit)[0] == m; }
    if y != m {
      assert FirstOf(s, limit) == [m] + FirstOf(rest, limit - 1);
      FirstLowest(rest, limit - 1, y, z);
    }
  }

  ghost function Between(backlog: set<OperationId>, low: OperationId, high: OperationId): set<OperationId> {
    set y | y in backlog && low < y < high
  }

  /** Calls within which `x` is surely queried. */
  ghost function Patience(backlog: set<OperationId>, cursor: OperationId, x: OperationId): nat {
    if cursor < x then |Between(backlog, cursor, x)| / PAGE + 1
    else (|Beyond(backlog, cursor)| + PAGE - 1) / PAGE + |Between(backlog, 0, x)| / PAGE + 1
  }

  lemma FewerBetween(backlog: set<OperationId>, less: set<OperationId>, low: OperationId, high: OperationId, gone: set<OperationId>, low': OperationId)
    requires less <= backlog && low <= low'
    requires gone <= Between(backlog, low, high) && forall y :: y in gone ==> y <= low'
    ensures |Between(less, low', high)| + |gone| <= |Between(backlog, low, high)|
  {
    var rest := Between(backlog, low, high) - gone;
    assert Between(less, low', high) <= rest;
    SubsetSize(Between(less, low', high), rest);
  }

  /** A call that does not query `x` brings it one call closer, even if other operations were resolved meanwhile. */
  lemma Closer(backlog: set<OperationId>, less: set<OperationId>, cursor: OperationId, x: OperationId)
    requires 0 !in backlog && x in less && less <= backlog && x !in PageOf(backlog, cursor)
    ensures Patience(less, CursorAfter(backlog, cursor), x) < Patience(backlog, cursor, x)
  {
    hide FirstOf, Beyond, Between;
    if cursor < x {
      assert x in Beyond(backlog, cursor) by { InBeyond(backlog, cursor, x); }
      NonEmpty(Beyond(backlog, cursor), x);
      CloserAhead(backlog, less, cursor, x);
    } else if FirstOf(Beyond(backlog, cursor), PAGE) != [] {
      CloserAbove(backlog, less, cursor, x);
    } else {
      EmptyFirst(Beyond(backlog, cursor));
      assert Beyond(backlog, 0) == backlog by { AllBeyond(backlog); }
      NonEmpty(backlog, x);
      CloserAhead(backlog, less, 0, x);
    }
  }

  lemma InBeyond(backlog: set<OperationId>, cursor: OperationId, x: OperationId)
    ensures x in Beyond(backlog, cursor) <==> x in backlog && x > cursor
  {
  }

  lemma AllBeyond(backlog: set<OperationId>)
    requires 0 !in backlog
    ensures Beyond(backlog, 0) == backlog
  {
  }

  lemma NonEmpty(s: set<OperationId>, x: OperationId)
    requires x in s
    ensures FirstOf(s, PAGE) != []
  {
  }

  lemma EmptyFirst(s: set<OperationId>)
    requires FirstOf(s, PAGE) == []
    ensures s == {}
  {
  }

  lemma CloserAhead(backlog: set<OperationId>, less: set<OperationId>, cursor: OperationId, x: OperationId)
    requires less <= backlog && cursor < x && x in less && x !in FirstOf(Beyond(backlog, cursor), PAGE)
    ensures var page := FirstOf(Beyond(backlog, cursor), PAGE);
      && page != [] && page[|page| - 1] < x
      && |Between(less, page[|page| - 1], x)| / PAGE + 1 <= |Between(backlog, cursor, x)| / PAGE
  {
    hide FirstOf;
    var rows := Beyond(backlog, cursor);
    var page := FirstOf(rows, PAGE);
    FirstFacts(rows, PAGE);
    var taken := Elements(page);
    TakenAll(taken, rows, x);
    var last := page[|page| - 1];
    forall y | y in taken ensures y in Between(backlog, cursor, x) && y < x { FirstLowest(rows, PAGE, y, x); }
    FewerBetween(backlog, less, cursor, x, taken, last);
  }

  lemma TakenAll(taken: set<OperationId>, rows: set<OperationId>, x: OperationId)
    requires taken <= rows && x in rows && x !in taken
    ensures |taken| < |rows|
  {
    SubsetSize(taken, rows - {x});
  }

  lemma CloserAbove(backlog: set<OperationId>, less: set<OperationId>, cursor: OperationId, x: OperationId)
    requires less <= backlog && x <= cursor && FirstOf(Beyond(backlog, cursor), PAGE) != []
    ensures var page := FirstOf(Beyond(backlog, cursor), PAGE);
      var last := page[|page| - 1];
      && x <= last
      && (|Beyond(less, last)| + PAGE - 1) / PAGE + 1 <= (|Beyond(backlog, cursor)| + PAGE - 1) / PAGE
      && |Between(less, 0, x)| <= |Between(backlog, 0, x)|
  {
    hide FirstOf;
    var page := FirstOf(Beyond(backlog, cursor), PAGE);
    FirstFacts(Beyond(backlog, cursor), PAGE);
    FewerBeyond(backlog, less, cursor, Elements(page), page[|page| - 1]);
    SubsetSize(Between(less, 0, x), Between(backlog, 0, x));
    InBeyond(backlog, cursor, page[|page| - 1]);
    hide Beyond, Between, Elements;
  }

  lemma FewerBeyond(backlog: set<OperationId>, less: set<OperationId>, cursor: OperationId, taken: set<OperationId>, last: OperationId)
    requires less <= backlog && taken <= Beyond(backlog, cursor) && last in taken && forall y :: y in taken ==> y <= last
    ensures |Beyond(less, last)| + |taken| <= |Beyond(backlog, cursor)|
  {
    var rest := Beyond(backlog, cursor) - taken;
    assert Beyond(less, last) <= rest;
    SubsetSize(Beyond(less, last), rest);
  }

  lemma PatienceBounded(backlog: set<OperationId>, cursor: OperationId, x: OperationId)
    requires x in backlog
    ensures Patience(backlog, cursor, x) <= (|backlog| + PAGE - 1) / PAGE + 1
  {
    if cursor < x {
      SubsetSize(Between(backlog, cursor, x), backlog);
    } else {
      var above, below := Beyond(backlog, cursor), Between(backlog, 0, x);
      assert above !! below;
      SubsetSize(above + below, backlog);
      assert |above + below| == |above| + |below|;
    }
  }

  predicate Shrinks(backlogs: seq<set<OperationId>>) {
    forall k :: 0 < k < |backlogs| ==> backlogs[k] <= backlogs[k - 1]
  }

  /** Where the cursor stands before each call. */
  ghost function CursorAt(backlogs: seq<set<OperationId>>, cursor: OperationId, k: nat): OperationId
    requires k <= |backlogs|
  {
    if k == 0 then cursor else CursorAfter(backlogs[k - 1], CursorAt(backlogs, cursor, k - 1))
  }

  /** Call number `k` queries the operation. */
  ghost predicate Queries(backlogs: seq<set<OperationId>>, cursor: OperationId, k: nat, x: OperationId) {
    k < |backlogs| && x in PageOf(backlogs[k], CursorAt(backlogs, cursor, k))
  }

  lemma {:induction false} QueriedWithin(backlogs: seq<set<OperationId>>, cursor: OperationId, x: OperationId, k: nat) returns (at: nat)
    requires Shrinks(backlogs) && k < |backlogs| && (forall i :: 0 <= i < |backlogs| ==> x in backlogs[i] && 0 !in backlogs[i])
    requires k + Patience(backlogs[k], CursorAt(backlogs, cursor, k), x) <= |backlogs|
    ensures k <= at && Queries(backlogs, cursor, at, x)
    decreases |backlogs| - k
  {
    at := k;
    if !Queries(backlogs, cursor, k, x) {
      var less := if k + 1 < |backlogs| then backlogs[k + 1] else backlogs[k];
      Closer(backlogs[k], less, CursorAt(backlogs, cursor, k), x);
      at := QueriedWithin(backlogs, cursor, x, k + 1);
    }
  }

  /** From any cursor, while the backlog of n operations does not grow, an operation that stays unresolved is queried within
      ceil(n / 100) + 1 calls, wrap-around included. */
  lemma Fairness(backlogs: seq<set<OperationId>>, cursor: OperationId, x: OperationId)
    requires backlogs != [] && Shrinks(backlogs) && forall i :: 0 <= i < |backlogs| ==> x in backlogs[i] && 0 !in backlogs[i]
    requires |backlogs| >= (|backlogs[0]| + 99) / 100 + 1
    ensures exists k: nat :: k <= (|backlogs[0]| + 99) / 100 && Queries(backlogs, cursor, k, x)
  {
    var enough := (|backlogs[0]| + PAGE - 1) / PAGE + 1;
    var few := backlogs[..enough];
    PatienceBounded(backlogs[0], cursor, x);
    var at := QueriedWithin(few, cursor, x, 0);
    SameCursor(backlogs, enough, cursor, at);
    assert Queries(backlogs, cursor, at, x);
  }

  lemma {:induction false} SameCursor(backlogs: seq<set<OperationId>>, n: nat, cursor: OperationId, k: nat)
    requires k <= n <= |backlogs|
    ensures CursorAt(backlogs[..n], cursor, k) == CursorAt(backlogs, cursor, k)
  {
    if k > 0 { SameCursor(backlogs, n, cursor, k - 1); }
  }
}
