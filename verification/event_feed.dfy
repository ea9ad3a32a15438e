/** The server's half of the event feed: gap-checked pages, and the frames the stream prints from them. */
module EventFeed {
  import opened EventStream
  import opened EventStreamLaws

  const PAGE: nat := 200

  /** `payload` is the printed JSON object. */
  datatype Entry = Entry(kind: string, payload: string)

  datatype Row = Row(sequence: nat, entry: Entry)

  /** Everything the task ever emitted, in order; rows whose number is in `lost` are missing from the table. */
  datatype Log = Log(history: seq<Entry>, lost: set<nat>, terminated: bool)

  datatype Code = CURSOR_AHEAD | EVENT_GAP

  datatype Page = Page(rows: seq<Row>, terminal: bool) | Refused(code: Code)

  /** The rows after the cursor in order of their sequence, at most `limit` of them. */
  function Select(log: Log, cursor: nat, limit: nat): (rows: seq<Row>)
    ensures |rows| <= limit
    decreases |log.history| - cursor
  {
    if limit == 0 || cursor >= |log.history| then []
    else if cursor + 1 in log.lost then Select(log, cursor + 1, limit)
    else [Row(cursor + 1, log.history[cursor])] + Select(log, cursor + 1, limit - 1)
  }

  predicate Consecutive(rows: seq<Row>) {
    forall k :: 0 < k < |rows| ==> rows[k].sequence == rows[k - 1].sequence + 1
  }

  function EventPage(log: Log, cursor: nat): Page {
    if cursor > |log.history| then Refused(CURSOR_AHEAD)
    else
      var rows := Select(log, cursor, PAGE);
      if rows != [] && rows[0].sequence != cursor + 1 then Refused(EVENT_GAP)
      else if !Consecutive(rows) then Refused(EVENT_GAP)
      else if rows == [] && cursor < |log.history| then Refused(EVENT_GAP)
      else
        var last := if rows == [] then cursor else rows[|rows| - 1].sequence;
        Page(rows, log.terminated && last == |log.history|)
  }

  // ---------- What a page tells ----------

  /** The rows are the history right after the cursor. */
  predicate Continues(rows: seq<Row>, cursor: nat, history: seq<Entry>) {
    && cursor + |rows| <= |history|
    && forall k :: 0 <= k < |rows| ==> rows[k] == Row(cursor + 1 + k, history[cursor + k])
  }

  lemma {:induction false} SelectTruthful(log: Log, cursor: nat, limit: nat)
    ensures forall row :: row in Select(log, cursor, limit) ==>
              cursor < row.sequence <= |log.history| && row.entry == log.history[row.sequence - 1] && row.sequence !in log.lost
    decreases |log.history| - cursor
  {
    if limit != 0 && cursor < |log.history| {
      if cursor + 1 in log.lost { SelectTruthful(log, cursor + 1, limit); } else { SelectTruthful(log, cursor + 1, limit - 1); }
    }
  }

  lemma {:induction false} ConsecutiveNumbers(rows: seq<Row>, k: nat)
    requires Consecutive(rows) && k < |rows|
    ensures rows[k].sequence == rows[0].sequence + k
  {
    if k > 0 { ConsecutiveNumbers(rows, k - 1); }
  }

  /** Whatever is missing from the table, a served page is a gapless piece of the history, and a terminal one reaches its end. */
  lemma PageContinues(log: Log, cursor: nat)
    requires EventPage(log, cursor).Page?
    ensures var page := EventPage(log, cursor);
      && Continues(page.rows, cursor, log.history)
      && |page.rows| <= 200
      && (page.terminal <==> log.terminated && cursor + |page.rows| == |log.history|)
      && (page.rows == [] ==> cursor == |log.history|)
  {
    var rows := EventPage(log, cursor).rows;
    SelectTruthful(log, cursor, PAGE);
    forall k | 0 <= k < |rows| ensures cursor + k < |log.history| && rows[k] == Row(cursor + 1 + k, log.history[cursor + k]) {
      ConsecutiveNumbers(rows, k);
      assert rows[k] in rows;
    }
    if rows != [] { ConsecutiveNumbers(rows, |rows| - 1); }
  }

  /** No missing row that the page would span is followed by a present one. */
  predicate Smooth(log: Log, cursor: nat, limit: nat) {
    forall s, t :: cursor < s < t <= |log.history| && s in log.lost && t !in log.lost ==> s > cursor + limit
  }

  predicate Starts(rows: seq<Row>, cursor: nat) { (rows == [] || rows[0].sequence == cursor + 1) && Consecutive(rows) }

  lemma {:induction false} SmoothRows(log: Log, cursor: nat, limit: nat)
    ensures Starts(Select(log, cursor, limit), cursor) <==> Smooth(log, cursor, limit)
    decreases |log.history| - cursor
  {
    if limit != 0 && cursor < |log.history| {
      if cursor + 1 in log.lost {
        SelectTruthful(log, cursor + 1, limit);
        EmptySelection(log, cursor + 1, limit);
      } else {
        SmoothRows(log, cursor + 1, limit - 1);
        StartsCons(Row(cursor + 1, log.history[cursor]), Select(log, cursor + 1, limit - 1));
        hide Starts;
        assert Smooth(log, cursor, limit) <==> Smooth(log, cursor + 1, limit - 1);
      }
    }
  }

  lemma StartsCons(row: Row, tail: seq<Row>)
    requires row.sequence > 0
    ensures Starts([row] + tail, row.sequence - 1) <==> Starts(tail, row.sequence)
  {
    var rows := [row] + tail;
    assert forall k :: 0 < k < |rows| ==> rows[k] == tail[k - 1];
    assert forall k :: 0 <= k < |tail| ==> tail[k] == rows[k + 1];
    if Starts(rows, row.sequence - 1) {
      forall k | 0 < k < |tail| ensures tail[k].sequence == tail[k - 1].sequence + 1 {
        assert rows[k + 1].sequence == rows[k].sequence + 1;
      }
      if tail != [] { assert rows[1].sequence == rows[0].sequence + 1; }
    }
  }

  lemma {:induction false} EmptySelection(log: Log, cursor: nat, limit: nat)
    requires limit > 0
    ensures Select(log, cursor, limit) == [] <==> forall t :: cursor < t <= |log.history| ==> t in log.lost
    decreases |log.history| - cursor
  {
    if cursor < |log.history| && cursor + 1 in log.lost { EmptySelection(log, cursor + 1, limit); }
  }

  /** Exactly when a page is served. */
  lemma PageExact(log: Log, cursor: nat)
    ensures EventPage(log, cursor).Page? <==>
            cursor <= |log.history| && Smooth(log, cursor, 200) && (cursor < |log.history| ==> cursor + 1 !in log.lost)
  {
    SmoothRows(log, cursor, PAGE);
    EmptySelection(log, cursor, PAGE);
    SelectTruthful(log, cursor, PAGE);
    var rows := Select(log, cursor, PAGE);
    if rows != [] { assert rows[0] in rows; }
  }

  /** Without missing rows the page is the next two hundred events, or as many as there are. */
  lemma PageComplete(log: Log, cursor: nat)
    requires log.lost == {} && cursor <= |log.history|
    ensures var page := EventPage(log, cursor);
      page.Page? && |page.rows| == if |log.history| - cursor < 200 then |log.history| - cursor else 200
  {
    PageExact(log, cursor);
    SelectSize(log, cursor, PAGE);
  }

  lemma {:induction false} SelectSize(log: Log, cursor: nat, limit: nat)
    requires log.lost == {} && cursor <= |log.history|
    ensures |Select(log, cursor, limit)| == if |log.history| - cursor < limit then |log.history| - cursor else limit
    decreases |log.history| - cursor
  {
    if limit != 0 && cursor < |log.history| { SelectSize(log, cursor + 1, limit - 1); }
  }

  // ---------- Frames ----------

  datatype Trouble = HistoryUnavailable | AccessRevoked

  datatype Frame = EntryFrame(row: Row) | Heartbeat | Closed | Failed(trouble: Trouble)

  function Digit(d: nat): char
    requires d < 10
  {
    (d + '0' as int) as char
  }

  function Decimal(n: nat): string {
    if n < 10 then [Digit(n)] else Decimal(n / 10) + [Digit(n % 10)]
  }

  function TroubleKind(t: Trouble): string {
    match t case HistoryUnavailable => "history_unavailable" case AccessRevoked => "access_revoked"
  }

  function Field(name: string, value: string): string { name + ": " + value }

  /** The lines of a frame before its blank line. */
  function Block(f: Frame): seq<string> {
    match f
    case EntryFrame(row) => [Field("id", Decimal(row.sequence)), Field("event", row.entry.kind), Field("data", row.entry.payload)]
    case Heartbeat => [": heartbeat"]
    case Closed => [Field("event", "stream.closed"), Field("data", "{\"terminal\":true}")]
    case Failed(trouble) => [Field("event", TroubleKind(trouble)), Field("data", "{}")]
  }

  function Unlines(lines: seq<string>): string {
    if lines == [] then [] else lines[0] + ['\n'] + Unlines(lines[1..])
  }

  function Print(f: Frame): string { Unlines(Block(f) + [""]) }

  function PrintAll(frames: seq<Frame>): string {
    if frames == [] then [] else Print(frames[0]) + PrintAll(frames[1..])
  }

  /** What a reader of the frame should see. */
  function FrameEvent(f: Frame): seq<StreamEvent> {
    match f
    case EntryFrame(row) => [StreamEvent(Decimal(row.sequence), row.entry.kind, row.entry.payload)]
    case Heartbeat => []
    case Closed => [StreamEvent("", "stream.closed", "{\"terminal\":true}")]
    case Failed(trouble) => [StreamEvent("", TroubleKind(trouble), "{}")]
  }

  function FrameEvents(frames: seq<Frame>): seq<StreamEvent> {
    if frames == [] then [] else FrameEvent(frames[0]) + FrameEvents(frames[1..])
  }

  /** One iteration of the stream: a page, or the refusal of it. */
  datatype Answer = Served(page: Page) | Denied

  function EntryFrames(rows: seq<Row>): (frames: seq<Frame>)
    ensures |frames| == |rows|
    ensures forall k :: 0 <= k < |rows| ==> frames[k] == EntryFrame(rows[k])
  {
    seq(|rows|, k requires 0 <= k < |rows| => EntryFrame(rows[k]))
  }

  function Frames(answer: Answer): seq<Frame> {
    if answer.Denied? then [Failed(AccessRevoked)]
    else if answer.page.Refused? then [Failed(HistoryUnavailable)]
    else EntryFrames(answer.page.rows) + [if answer.page.terminal then Closed else Heartbeat]
  }

  function LastSequence(answer: Answer, cursor: nat): nat {
    if answer.Served? && answer.page.Page? && answer.page.rows != []
    then answer.page.rows[|answer.page.rows| - 1].sequence else cursor
  }

  predicate Continuing(answer: Answer) { answer.Served? && answer.page.Page? && !answer.page.terminal }

  class EventStreamer {
    var cursor: nat

    constructor (cursor: nat)
      ensures this.cursor == cursor
    {
      this.cursor := cursor;
    }

    /** Prints the frames of one iteration; `more` tells whether the stream goes on. */
    method Iterate(answer: Answer) returns (text: string, more: bool)
      modifies this
      ensures text == PrintAll(Frames(answer))
      ensures cursor == LastSequence(answer, old(cursor))
      ensures more == Continuing(answer)
    {
      hide Print, EntryFrames;
      if answer.Denied? {
        PrintOne(Failed(AccessRevoked));
        return Print(Failed(AccessRevoked)), false;
      }
      if answer.page.Refused? {
        PrintOne(Failed(HistoryUnavailable));
        return Print(Failed(HistoryUnavailable)), false;
      }
      var rows := answer.page.rows;
      text := "";
      for i := 0 to |rows|
        invariant text == PrintAll(EntryFrames(rows)[..i])
        invariant cursor == if i == 0 then old(cursor) else rows[i - 1].sequence
      {
        cursor := rows[i].sequence;
        PrintLast(EntryFrames(rows)[..i], EntryFrame(rows[i]));
        assert EntryFrames(rows)[..i + 1] == EntryFrames(rows)[..i] + [EntryFrame(rows[i])];
        text := text + Print(EntryFrame(rows[i]));
      }
      assert EntryFrames(rows)[..|rows|] == EntryFrames(rows);
      var final := if answer.page.terminal then Closed else Heartbeat;
      PrintLast(EntryFrames(rows), final);
      text := text + Print(final);
      more := !answer.page.terminal;
    }
  }

  lemma PrintOne(f: Frame)
    ensures PrintAll([f]) == Print(f)
  {
    assert PrintAll([f]) == Print(f) + PrintAll([]);
  }

  lemma {:induction false} PrintAppend(frames: seq<Frame>, more: seq<Frame>)
    ensures PrintAll(frames + more) == PrintAll(frames) + PrintAll(more)
  {
    hide Print;
    if frames == [] {
      assert frames + more == more;
    } else {
      var whole := frames + more;
      PrintAppend(frames[1..], more);
      assert whole[0] == frames[0] && whole[1..] == frames[1..] + more;
      Associative(Print(frames[0]), PrintAll(frames[1..]), PrintAll(more));
    }
  }

  lemma {:induction false} FrameEventsAppend(frames: seq<Frame>, more: seq<Frame>)
    ensures FrameEvents(frames + more) == FrameEvents(frames) + FrameEvents(more)
  {
    hide FrameEvent;
    if frames == [] {
      assert frames + more == more;
    } else {
      var whole := frames + more;
      FrameEventsAppend(frames[1..], more);
      assert whole[0] == frames[0] && whole[1..] == frames[1..] + more;
      Associative(FrameEvent(frames[0]), FrameEvents(frames[1..]), FrameEvents(more));
    }
  }

  lemma PrintLast(frames: seq<Frame>, last: Frame)
    ensures PrintAll(frames + [last]) == PrintAll(frames) + Print(last)
  {
    hide Print;
    PrintAppend(frames, [last]);
    PrintOne(last);
  }

  // ---------- Printing and parsing ----------

  predicate Plain(s: string) { '\r' !in s && '\n' !in s }

  predicate PlainLines(lines: seq<string>) { forall line :: line in lines ==> Plain(line) }

  /** The text of a frame cannot be mistaken for other frames. */
  predicate Sendable(f: Frame) {
    f.EntryFrame? ==> Plain(f.row.entry.kind) && f.row.entry.kind != "" && Plain(f.row.entry.payload)
  }

  lemma {:induction false} LinesOfUnlines(lines: seq<string>)
    requires PlainLines(lines)
    ensures Lines(Unlines(lines)) == (lines, "")
  {
    if lines != [] {
      var line, rest := lines[0], Unlines(lines[1..]);
      LinesOfUnlines(lines[1..]);
      assert line in lines && Plain(line);
      var text := line + ['\n'] + rest;
      assert text == line + (['\n'] + rest);
      LineEndPlain(line, ['\n'] + rest);
      assert text[|line|] == '\n' && text[..|line|] == line && text[|line| + 1..] == rest;
      LinesTurn(text);
      assert [line] + lines[1..] == lines;
    }
  }

  lemma {:induction false} UnlinesAppend(a: seq<string>, b: seq<string>)
    ensures Unlines(a + b) == Unlines(a) + Unlines(b)
  {
    if a == [] {
      assert a + b == b;
    } else {
      var whole := a + b;
      UnlinesAppend(a[1..], b);
      assert whole[0] == a[0] && whole[1..] == a[1..] + b;
      Associative(a[0] + ['\n'], Unlines(a[1..]), Unlines(b));
    }
  }

  function FrameLines(frames: seq<Frame>): seq<string> {
    if frames == [] then [] else Block(frames[0]) + [""] + FrameLines(frames[1..])
  }

  function Blocks(frames: seq<Frame>): seq<seq<string>> {
    if frames == [] then [] else [Block(frames[0])] + Blocks(frames[1..])
  }

  lemma {:induction false} PrintIsUnlines(frames: seq<Frame>)
    ensures PrintAll(frames) == Unlines(FrameLines(frames))
  {
    hide Block;
    if frames != [] {
      PrintIsUnlines(frames[1..]);
      UnlinesAppend(Block(frames[0]) + [""], FrameLines(frames[1..]));
    }
  }

  lemma {:induction false} DecimalDigits(n: nat)
    ensures Decimal(n) != "" && forall k :: 0 <= k < |Decimal(n)| ==> '0' <= Decimal(n)[k] <= '9'
  {
    if n >= 10 { DecimalDigits(n / 10); }
  }

  lemma FieldPlain(name: string, value: string)
    requires Plain(name) && name != "" && Plain(value)
    ensures Plain(Field(name, value)) && Field(name, value) != ""
  {
    assert Plain(": ");
  }

  lemma BlockPlain(f: Frame)
    requires Sendable(f)
    ensures PlainLines(Block(f)) && "" !in Block(f)
  {
    hide Field;
    match f
    case EntryFrame(row) =>
      DecimalDigits(row.sequence);
      FieldPlain("id", Decimal(row.sequence));
      FieldPlain("event", row.entry.kind);
      FieldPlain("data", row.entry.payload);
    case Heartbeat =>
    case Closed =>
      FieldPlain("event", "stream.closed");
      FieldPlain("data", "{\"terminal\":true}");
    case Failed(trouble) =>
      FieldPlain("event", TroubleKind(trouble));
      FieldPlain("data", "{}");
  }

  lemma {:induction false} FrameLinesSplit(frames: seq<Frame>)
    requires forall f :: f in frames ==> Sendable(f)
    ensures PlainLines(FrameLines(frames))
    ensures Split(FrameLines(frames), "") == (Blocks(frames), [])
  {
    hide Block, Plain, Sendable;
    if frames != [] {
      BlockPlain(frames[0]);
      FrameLinesSplit(frames[1..]);
      EmptyPlain();
      SplitAt(Block(frames[0]), "", FrameLines(frames[1..]));
    }
  }

  lemma EmptyPlain()
    ensures Plain("")
  {
  }

  lemma {:induction false} ColonAfter(name: string, rest: string)
    requires ':' !in name
    ensures Colon(name + [':'] + rest) == |name|
  {
    if name == [] {
      assert name + [':'] + rest == [':'] + rest;
    } else {
      ColonAfter(name[1..], rest);
      assert (name + [':'] + rest)[1..] == name[1..] + [':'] + rest;
    }
  }

  lemma FieldParts(name: string, value: string)
    requires ':' !in name && name != ""
    ensures var line := Field(name, value); line != "" && FieldName(line) == name && FieldValue(line) == value
  {
    var line := Field(name, value);
    assert line == name + [':'] + ([' '] + value);
    ColonAfter(name, [' '] + value);
    assert line[|name| + 1..] == [' '] + value;
    assert ([' '] + value)[1..] == value;
  }

  lemma EntryBlock(id: string, kind: string, payload: string)
    requires '\0' !in id && kind != ""
    ensures BlockEvent([Field("id", id), Field("event", kind), Field("data", payload)]) == [StreamEvent(id, kind, payload)]
  {
    hide Field, FieldName, FieldValue;
    var a, b, c := Field("id", id), Field("event", kind), Field("data", payload);
    FieldParts("id", id);
    FieldParts("event", kind);
    FieldParts("data", payload);
    GrowAll([], a);
    GrowAll([a], b);
    GrowAll([a, b], c);
    assert [] + [a] == [a] && [a] + [b] == [a, b] && [a, b] + [c] == [a, b, c];
  }

  lemma GrowAll(block: seq<string>, line: string)
    requires line != ""
    ensures forall field :: Values(block + [line], field) == Values(block, field) + (if FieldName(line) == field then [FieldValue(line)] else [])
    ensures LastId(block + [line]) ==
            (if FieldName(line) == "id" && '\0' !in FieldValue(line) then FieldValue(line) else LastId(block))
  {
    hide FieldName, FieldValue, Values, LastId, Characters;
    forall field ensures Values(block + [line], field) == Values(block, field) + (if FieldName(line) == field then [FieldValue(line)] else []) {
      Grow(block, line, field);
    }
    Grow(block, line, "id");
  }

  lemma ControlBlock(kind: string, payload: string)
    requires kind != ""
    ensures BlockEvent([Field("event", kind), Field("data", payload)]) == [StreamEvent("", kind, payload)]
  {
    hide Field, FieldName, FieldValue;
    var b, c := Field("event", kind), Field("data", payload);
    FieldParts("event", kind);
    FieldParts("data", payload);
    GrowAll([], b);
    GrowAll([b], c);
    assert [] + [b] == [b] && [b] + [c] == [b, c];
  }

  lemma CommentBlock()
    ensures BlockEvent([": heartbeat"]) == []
  {
    hide FieldName, FieldValue;
    CommentName(": heartbeat");
    GrowAll([], ": heartbeat");
    assert [] + [": heartbeat"] == [": heartbeat"];
  }

  lemma BlockReadsBack(f: Frame)
    requires Sendable(f)
    ensures BlockEvent(Block(f)) == FrameEvent(f)
  {
    hide BlockEvent, Field, Decimal;
    match f
    case EntryFrame(row) =>
      DecimalDigits(row.sequence);
      EntryBlock(Decimal(row.sequence), row.entry.kind, row.entry.payload);
    case Heartbeat => CommentBlock();
    case Closed => ControlBlock("stream.closed", "{\"terminal\":true}");
    case Failed(trouble) => ControlBlock(TroubleKind(trouble), "{}");
  }

  lemma {:induction false} BlocksReadBack(frames: seq<Frame>)
    requires forall f :: f in frames ==> Sendable(f)
    ensures BlockEvents(Blocks(frames)) == FrameEvents(frames)
  {
    hide BlockEvent, Block, FrameEvent, Sendable;
    if frames != [] {
      BlockReadsBack(frames[0]);
      BlocksReadBack(frames[1..]);
      assert Blocks(frames)[1..] == Blocks(frames[1..]);
    }
  }

  /** Parsing what the server printed gives back what it meant, and leaves nothing over. */
  lemma PrintParses(frames: seq<Frame>)
    requires forall f :: f in frames ==> Sendable(f)
    ensures EventsOf(PrintAll(frames)) == FrameEvents(frames)
    ensures StateOf(PrintAll(frames)) == FRESH
    ensures Finished(PrintAll(frames)) == Blocks(frames)
  {
    hide Sendable, BlockEvents, Lines, Split;
    PrintIsUnlines(frames);
    FrameLinesSplit(frames);
    LinesOfUnlines(FrameLines(frames));
    BlocksReadBack(frames);
  }
}
