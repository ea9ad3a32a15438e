/** Cutting a document into chunks of whole lines under a byte cap. */
module Retrieval {
  import opened Basics

  const CHUNK_BYTES: nat := 2400

  /** Bytes of a character in UTF-8. */
  function Width(c: char): nat {
    var code := c as int;
    if code < 0x80 then 1 else if code < 0x800 then 2 else if code < 0x1_0000 then 3 else 4
  }

  function Bytes(s: string): nat { if s == "" then 0 else Bytes(s[..|s| - 1]) + Width(s[|s| - 1]) }

  function Join(lines: seq<string>): string {
    if lines == [] then "" else Join(lines[..|lines| - 1]) + lines[|lines| - 1]
  }

  /** Lines are numbered from 1; both ends belong to the chunk. */
  datatype Chunk = Chunk(start: nat, end: nat, symbol: Option<string>)

  predicate Within(c: Chunk, lines: seq<string>) { 1 <= c.start <= c.end <= |lines| }

  function Body(lines: seq<string>, start: nat, end: nat): string
    requires 1 <= start <= end + 1 <= |lines| + 1
  {
    Join(lines[start - 1..end])
  }

  /** The section a line lies in starts at the last boundary not after it. */
  function SectionOf(boundaries: set<nat>, line: nat): nat {
    if line == 0 || line in boundaries then line else SectionOf(boundaries, line - 1)
  }

  function SymbolOf(symbols: map<nat, string>, section: nat): Option<string> {
    if section in symbols then Some(symbols[section]) else None
  }

  /** The sorted boundaries between 1 and the line after the last. */
  function Points(boundaries: set<nat>, n: nat): seq<nat> {
    if n == 0 then []
    else if n in boundaries then Points(boundaries, n - 1) + [n]
    else Points(boundaries, n - 1)
  }

  lemma {:induction false} PointsFacts(boundaries: set<nat>, n: nat)
    ensures var points := Points(boundaries, n);
      && (forall k :: 0 <= k < |points| ==> 1 <= points[k] <= n && points[k] in boundaries)
      && (forall k :: 0 < k < |points| ==> points[k - 1] < points[k])
      && (forall p :: 1 <= p <= n && p in boundaries ==> p in points)
  {
    if n > 0 { PointsFacts(boundaries, n - 1); }
  }

  // ---------- What a chunking is ----------

  /** The chunks are the lines 1 to `upTo`, in order, each once. */
  predicate Partitions(chunks: seq<Chunk>, upTo: nat) {
    && (forall k :: 0 <= k < |chunks| ==> 1 <= chunks[k].start <= chunks[k].end <= upTo)
    && (chunks == [] <==> upTo == 0)
    && (chunks != [] ==> chunks[0].start == 1 && chunks[|chunks| - 1].end == upTo)
    && (forall k :: 0 < k < |chunks| ==> chunks[k].start == chunks[k - 1].end + 1)
  }

  /** At most the byte cap, unless it is a single line. */
  predicate Fits(c: Chunk, lines: seq<string>)
    requires Within(c, lines)
  {
    c.start == c.end || Bytes(Body(lines, c.start, c.end)) <= 2400
  }

  /** A chunk lies in one section and carries its symbol. */
  predicate InSection(c: Chunk, boundaries: set<nat>, symbols: map<nat, string>) {
    && (forall p :: p in boundaries ==> !(c.start < p <= c.end))
    && c.symbol == SymbolOf(symbols, SectionOf(boundaries, c.start))
  }

  /** A chunk ends only where a section does, or where one more line would not fit. */
  predicate Full(c: Chunk, lines: seq<string>, boundaries: set<nat>)
    requires Within(c, lines)
  {
    c.end == |lines| || c.end + 1 in boundaries || Bytes(Body(lines, c.start, c.end + 1)) > 2400
  }

  predicate Good(c: Chunk, lines: seq<string>, boundaries: set<nat>, symbols: map<nat, string>) {
    Within(c, lines) && Fits(c, lines) && InSection(c, boundaries, symbols) && Full(c, lines, boundaries)
  }

  predicate Covers(lines: seq<string>, boundaries: set<nat>, symbols: map<nat, string>, chunks: seq<Chunk>, upTo: nat) {
    Partitions(chunks, upTo) && forall k :: 0 <= k < |chunks| ==> Good(chunks[k], lines, boundaries, symbols)
  }

  predicate Chunking(lines: seq<string>, boundaries: set<nat>, symbols: map<nat, string>, chunks: seq<Chunk>) {
    Covers(lines, boundaries, symbols, chunks, |lines|)
  }

  // ---------- The loop ----------

  /** `extra` are the first lines of top-level definitions and the lines after them. */
  function Boundaries(extra: set<nat>, n: nat): set<nat> { extra + {1, n + 1} }

  lemma BodyGrows(lines: seq<string>, start: nat, end: nat)
    requires 1 <= start <= end <= |lines|
    ensures Body(lines, start, end) == Body(lines, start, end - 1) + lines[end - 1]
    ensures Bytes(Body(lines, start, end)) == Bytes(Body(lines, start, end - 1)) + Bytes(lines[end - 1])
  {
    assert lines[start - 1..end][..end - start] == lines[start - 1..end - 1];
    BytesAppend(Body(lines, start, end - 1), lines[end - 1]);
  }

  lemma {:induction false} BytesAppend(a: string, b: string)
    ensures Bytes(a + b) == Bytes(a) + Bytes(b)
  {
    if b == "" {
      assert a + b == a;
    } else {
      assert (a + b)[..|a + b| - 1] == a + b[..|b| - 1];
      BytesAppend(a, b[..|b| - 1]);
    }
  }

  lemma {:induction false} SectionIs(boundaries: set<nat>, left: nat, line: nat)
    requires left in boundaries && left <= line && forall p :: p in boundaries ==> !(left < p <= line)
    ensures SectionOf(boundaries, line) == left
    decreases line
  {
    if line > left { SectionIs(boundaries, left, line - 1); }
  }

  lemma CoversGrows(lines: seq<string>, boundaries: set<nat>, symbols: map<nat, string>, chunks: seq<Chunk>, c: Chunk)
    requires c.start > 0 && Covers(lines, boundaries, symbols, chunks, c.start - 1) && Good(c, lines, boundaries, symbols)
    ensures Covers(lines, boundaries, symbols, chunks + [c], c.end)
  {
    hide Fits, InSection, Full;
    PartitionGrows(chunks, c);
    hide Good, Partitions;
  }

  lemma PartitionGrows(chunks: seq<Chunk>, c: Chunk)
    requires 0 < c.start <= c.end && Partitions(chunks, c.start - 1)
    ensures Partitions(chunks + [c], c.end)
  {
  }

  lemma CoversNothing(lines: seq<string>, boundaries: set<nat>, symbols: map<nat, string>)
    ensures Covers(lines, boundaries, symbols, [], 0)
  {
  }

  predicate Section(boundaries: set<nat>, left: nat, right: nat) {
    left in boundaries && right in boundaries && forall p :: p in boundaries ==> !(left < p < right)
  }

  lemma MakeGood(lines: seq<string>, boundaries: set<nat>, symbols: map<nat, string>, left: nat, right: nat, start: nat, end: nat)
    requires Section(boundaries, left, right) && 1 <= left <= start <= end < right <= |lines| + 1
    requires start == end || Bytes(Body(lines, start, end)) <= CHUNK_BYTES
    requires end + 1 == right || Bytes(Body(lines, start, end + 1)) > CHUNK_BYTES
    ensures Good(Chunk(start, end, SymbolOf(symbols, left)), lines, boundaries, symbols)
  {
    SectionIs(boundaries, left, start);
    hide Body, Bytes, SectionOf;
  }

  lemma NeighboursBound(boundaries: set<nat>, n: nat, i: nat)
    requires i + 1 < |Points(boundaries, n)|
    ensures Section(boundaries, Points(boundaries, n)[i], Points(boundaries, n)[i + 1])
    ensures 1 <= Points(boundaries, n)[i] < Points(boundaries, n)[i + 1] <= n
  {
    PointsFacts(boundaries, n);
    forall p | p in boundaries ensures !(Points(boundaries, n)[i] < p < Points(boundaries, n)[i + 1]) {
      if Points(boundaries, n)[i] < p { BetweenPoints(boundaries, n, i, p); }
    }
  }

  lemma EmptyBody(lines: seq<string>, start: nat)
    requires 1 <= start <= |lines| + 1
    ensures Bytes(Body(lines, start, start - 1)) == 0
  {
  }

  lemma LineHasBytes(line: string)
    requires line != ""
    ensures Bytes(line) > 0
  {
  }

  /** No boundary lies strictly between two neighbouring points. */
  lemma BetweenPoints(boundaries: set<nat>, n: nat, i: nat, p: nat)
    requires i + 1 < |Points(boundaries, n)| && p in boundaries && Points(boundaries, n)[i] < p
    ensures p >= Points(boundaries, n)[i + 1]
  {
    var points := Points(boundaries, n);
    PointsFacts(boundaries, n);
    if p <= n {
      assert p in points;
      var k :| 0 <= k < |points| && points[k] == p;
      if k <= i { Sorted(points, k, i); } else { Sorted(points, i + 1, k); }
    }
  }

  lemma {:induction false} Sorted(points: seq<nat>, i: nat, j: nat)
    requires i <= j < |points| && forall k :: 0 < k < |points| ==> points[k - 1] < points[k]
    ensures points[i] <= points[j]
  {
    if i < j { Sorted(points, i, j - 1); }
  }

  lemma PointEnds(boundaries: set<nat>, n: nat)
    requires 1 in boundaries && n in boundaries && n > 1
    ensures var points := Points(boundaries, n); |points| >= 2 && points[0] == 1 && points[|points| - 1] == n
  {
    var points := Points(boundaries, n);
    PointsFacts(boundaries, n);
    assert 1 in points && n in points;
    var j :| 0 <= j < |points| && points[j] == 1;
    var k :| 0 <= k < |points| && points[k] == n;
    Sorted(points, 0, j);
    Sorted(points, k, |points| - 1);
  }

  /** The lines of one section, from `left` up to but not including `right`. */
  method ChunkSection(lines: seq<string>, boundaries: set<nat>, symbols: map<nat, string>, before: seq<Chunk>, left: nat, right: nat)
    returns (chunks: seq<Chunk>)
    requires forall k :: 0 <= k < |lines| ==> lines[k] != ""
    requires Section(boundaries, left, right) && 1 <= left < right <= |lines| + 1
    requires Covers(lines, boundaries, symbols, before, left - 1)
    ensures Covers(lines, boundaries, symbols, chunks, right - 1)
  {
    hide Covers, Good, Body, Bytes, Section, SymbolOf;
    chunks := before;
    var start, size := left, 0;
    EmptyBody(lines, start);
    for line := left to right
      invariant left <= start <= line && (line > left ==> start < line)
      invariant size == Bytes(Body(lines, start, line - 1))
      invariant line > start ==> size > 0 && (size <= CHUNK_BYTES || line == start + 1)
      invariant Covers(lines, boundaries, symbols, chunks, start - 1)
    {
      var length := Bytes(lines[line - 1]);
      LineHasBytes(lines[line - 1]);
      BodyGrows(lines, start, line);
      if size != 0 && size + length > CHUNK_BYTES {
        var chunk := Chunk(start, line - 1, SymbolOf(symbols, left));
        MakeGood(lines, boundaries, symbols, left, right, start, line - 1);
        CoversGrows(lines, boundaries, symbols, chunks, chunk);
        chunks := chunks + [chunk];
        start, size := line, 0;
        EmptyBody(lines, start);
        BodyGrows(lines, start, line);
      }
      size := size + length;
    }
    if size != 0 {
      var chunk := Chunk(start, right - 1, SymbolOf(symbols, left));
      MakeGood(lines, boundaries, symbols, left, right, start, right - 1);
      CoversGrows(lines, boundaries, symbols, chunks, chunk);
      chunks := chunks + [chunk];
    }
  }

  method ChunkDocument(lines: seq<string>, extra: set<nat>, symbols: map<nat, string>) returns (chunks: seq<Chunk>)
    requires forall k :: 0 <= k < |lines| ==> lines[k] != ""
    requires forall p :: p in extra ==> 1 <= p <= |lines| + 1
    ensures Chunking(lines, Boundaries(extra, |lines|), symbols, chunks)
  {
    hide Covers, Section, Points, Partitions, Good;
    chunks := [];
    var boundaries := Boundaries(extra, |lines|);
    CoversNothing(lines, boundaries, symbols);
    if lines == [] { return; }
    var points := Points(boundaries, |lines| + 1);
    PointEnds(boundaries, |lines| + 1);
    for i := 0 to |points| - 1
      invariant points[i] >= 1 && Covers(lines, boundaries, symbols, chunks, points[i] - 1)
    {
      NeighboursBound(boundaries, |lines| + 1, i);
      chunks := ChunkSection(lines, boundaries, symbols, chunks, points[i], points[i + 1]);
    }
  }

  // ---------- What a chunking guarantees ----------

  function Bodies(lines: seq<string>, chunks: seq<Chunk>): string
    requires forall k :: 0 <= k < |chunks| ==> Within(chunks[k], lines)
  {
    if chunks == [] then ""
    else
      var last := chunks[|chunks| - 1];
      assert Within(last, lines);
      Bodies(lines, chunks[..|chunks| - 1]) + Body(lines, last.start, last.end)
  }

  lemma {:induction false} JoinAppend(a: seq<string>, b: seq<string>)
    ensures Join(a + b) == Join(a) + Join(b)
  {
    if b == [] {
      assert a + b == a;
    } else {
      var init := b[..|b| - 1];
      assert (a + b)[..|a + b| - 1] == a + init;
      JoinAppend(a, init);
    }
  }

  /** Nothing is lost: the bodies of the chunks, one after the other, are the document. */
  lemma {:induction false} Lossless(lines: seq<string>, chunks: seq<Chunk>, upTo: nat)
    requires Partitions(chunks, upTo) && upTo <= |lines|
    ensures Bodies(lines, chunks) == Join(lines[..upTo])
  {
    if chunks == [] {
      assert lines[..upTo] == [];
    } else {
      var init, last := chunks[..|chunks| - 1], chunks[|chunks| - 1];
      PartitionInit(chunks, upTo);
      Lossless(lines, init, last.start - 1);
      hide Join, Body;
      JoinSplit(lines, last.start, upTo);
    }
  }

  lemma JoinSplit(lines: seq<string>, start: nat, end: nat)
    requires 1 <= start <= end <= |lines|
    ensures Join(lines[..end]) == Join(lines[..start - 1]) + Body(lines, start, end)
  {
    hide Join;
    assert lines[..end] == lines[..start - 1] + lines[start - 1..end];
    JoinAppend(lines[..start - 1], lines[start - 1..end]);
  }

  lemma PartitionInit(chunks: seq<Chunk>, upTo: nat)
    requires Partitions(chunks, upTo) && chunks != []
    ensures var init, last := chunks[..|chunks| - 1], chunks[|chunks| - 1];
      1 <= last.start <= last.end == upTo && Partitions(init, last.start - 1)
  {
    var init := chunks[..|chunks| - 1];
    assert forall k :: 0 <= k < |init| ==> init[k] == chunks[k];
    EndsGrow(chunks, upTo, |chunks| - 1);
  }

  lemma {:induction false} EndsGrow(chunks: seq<Chunk>, upTo: nat, k: nat)
    requires Partitions(chunks, upTo) && k < |chunks|
    ensures forall j :: 0 <= j < k ==> chunks[j].end < chunks[k].start
  {
    if k > 0 { EndsGrow(chunks, upTo, k - 1); }
  }

  /** The loop's answer is the only one: the properties of a chunking leave no choice. */
  lemma {:induction false} OnlyChunking(
    lines: seq<string>, boundaries: set<nat>, symbols: map<nat, string>, a: seq<Chunk>, b: seq<Chunk>, k: nat)
    requires Chunking(lines, boundaries, symbols, a) && Chunking(lines, boundaries, symbols, b) && k <= |a|
    ensures k <= |b| && a[..k] == b[..k]
  {
    hide Chunking, Good;
    if k > 0 {
      OnlyChunking(lines, boundaries, symbols, a, b, k - 1);
      ChunkAt(lines, boundaries, symbols, a, k - 1);
      if k > 1 { assert a[k - 2] == a[..k - 1][k - 2] && b[k - 2] == b[..k - 1][k - 2]; }
      ChunkFollows(lines, boundaries, symbols, b, k - 1);
      ChunkAt(lines, boundaries, symbols, b, k - 1);
      SameEnd(lines, boundaries, symbols, a[k - 1], b[k - 1]);
      SameEnd(lines, boundaries, symbols, b[k - 1], a[k - 1]);
      SameSymbol(lines, boundaries, symbols, a[k - 1], b[k - 1]);
      assert a[..k] == a[..k - 1] + [a[k - 1]] && b[..k] == b[..k - 1] + [b[k - 1]];
    }
  }

  lemma ChunkAt(lines: seq<string>, boundaries: set<nat>, symbols: map<nat, string>, a: seq<Chunk>, k: nat)
    requires Chunking(lines, boundaries, symbols, a) && k < |a|
    ensures Good(a[k], lines, boundaries, symbols) && lines != []
    ensures a[k].start == (if k == 0 then 1 else a[k - 1].end + 1) && a[k].end <= |lines| && a[k].start <= a[k].end
  {
    hide Good;
  }

  /** A chunking ends only at the end of the document. */
  lemma ChunkFollows(lines: seq<string>, boundaries: set<nat>, symbols: map<nat, string>, b: seq<Chunk>, k: nat)
    requires Chunking(lines, boundaries, symbols, b) && k <= |b| && lines != [] && (k > 0 ==> b[k - 1].end < |lines|)
    ensures k < |b|
  {
    hide Good;
  }

  lemma SameSymbol(lines: seq<string>, boundaries: set<nat>, symbols: map<nat, string>, a: Chunk, b: Chunk)
    requires Good(a, lines, boundaries, symbols) && Good(b, lines, boundaries, symbols) && a.start == b.start && a.end == b.end
    ensures a == b
  {
    hide SectionOf, SymbolOf;
  }

  /** Of two good chunks that start together neither ends before the other. */
  lemma SameEnd(lines: seq<string>, boundaries: set<nat>, symbols: map<nat, string>, a: Chunk, b: Chunk)
    requires Good(a, lines, boundaries, symbols) && Good(b, lines, boundaries, symbols) && a.start == b.start
    ensures b.end <= a.end
  {
    if a.end < b.end {
      LongerBody(lines, a.start, a.end + 1, b.end);
      assert false;
    }
  }

  lemma {:induction false} LongerBody(lines: seq<string>, start: nat, short: nat, long: nat)
    requires 1 <= start <= short <= long <= |lines|
    ensures Bytes(Body(lines, start, short)) <= Bytes(Body(lines, start, long))
    decreases long
  {
    if short < long {
      BodyGrows(lines, start, long);
      LongerBody(lines, start, short, long - 1);
    }
  }
}
