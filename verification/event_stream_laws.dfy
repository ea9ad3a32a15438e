/** What the parser computes, line by line and block by block, and when cutting the text into pieces makes no difference. */
module EventStreamLaws {
  import opened EventStream

  // ---------- A definition that knows nothing of buffers and pieces ----------

  /** Every line ending becomes a newline; a carriage return at the very end is still undecided and stays. */
  function Normal(text: string): string {
    if text == [] then []
    else if text[0] != '\r' then [text[0]] + Normal(text[1..])
    else if |text| == 1 then text
    else ['\n'] + (if text[1] == '\n' then Normal(text[2..]) else Normal(text[1..]))
  }

  /** The finished pieces before each separator, and what follows the last one. */
  function Split<T(==)>(s: seq<T>, separator: T): (seq<seq<T>>, seq<T>) {
    if s == [] then ([], [])
    else
      var (pieces, rest) := Split(s[1..], separator);
      if s[0] == separator then ([[]] + pieces, rest)
      else if pieces == [] then ([], [s[0]] + rest)
      else ([[s[0]] + pieces[0]] + pieces[1..], rest)
  }

  function Lines(text: string): (seq<string>, string) { Split(Normal(text), '\n') }

  /** The values of a field in a block of lines, in order; a comment has no field name. */
  function Values(block: seq<string>, field: string): seq<string> {
    if block == [] then []
    else
      var line := block[|block| - 1];
      Values(block[..|block| - 1], field) + (if line != "" && FieldName(line) == field then [FieldValue(line)] else [])
  }

  function LastKind(block: seq<string>): string {
    var kinds := Values(block, "event");
    if kinds == [] then "" else kinds[|kinds| - 1]
  }

  function LastId(block: seq<string>): string {
    if block == [] then ""
    else
      var line := block[|block| - 1];
      if line != "" && FieldName(line) == "id" && '\0' !in FieldValue(line) then FieldValue(line) else LastId(block[..|block| - 1])
  }

  function Characters(block: seq<string>): nat {
    if block == [] then 0 else Characters(block[..|block| - 1]) + |block[|block| - 1]|
  }

  /** The event a block of lines stands for. */
  function BlockEvent(block: seq<string>): seq<StreamEvent> {
    var data := Values(block, "data");
    if data == [] then []
    else [StreamEvent(LastId(block), if LastKind(block) == "" then "message" else LastKind(block), Join(data))]
  }

  function BlockEvents(blocks: seq<seq<string>>): seq<StreamEvent> {
    if blocks == [] then [] else BlockEvent(blocks[0]) + BlockEvents(blocks[1..])
  }

  function Finished(text: string): seq<seq<string>> { Split(Lines(text).0, "").0 }

  function Open(text: string): seq<string> { Split(Lines(text).0, "").1 }

  /** The events of a text. */
  function EventsOf(text: string): seq<StreamEvent> { BlockEvents(Finished(text)) }

  /** Where a text leaves the parser. */
  function StateOf(text: string): Parser { Holding(Open(text), Lines(text).1) }

  function Holding(block: seq<string>, buffer: string): Parser {
    Parser(buffer, LastId(block), LastKind(block), Values(block, "data"), Characters(block))
  }

  /** No finished event is too long. */
  predicate Fits(text: string, limit: nat) { forall block :: block in Finished(text) ==> Characters(block) <= limit }

  /** The characters of the event that is still open, with the unfinished line. */
  function Pending(text: string): nat { Characters(Open(text)) + |Lines(text).1| }

  predicate Room(text: string, limit: nat) { Fits(text, limit) && Pending(text) <= limit }

  // ---------- The definition follows the parser's loop ----------

  lemma {:induction false} SplitPlain<T>(s: seq<T>, separator: T)
    requires separator !in s
    ensures Split(s, separator) == ([], s)
  {
    if s != [] {
      SplitPlain(s[1..], separator);
      assert s == [s[0]] + s[1..];
    }
  }

  lemma {:induction false} SplitAt<T>(s: seq<T>, separator: T, rest: seq<T>)
    requires separator !in s
    ensures Split(s + [separator] + rest, separator) == ([s] + Split(rest, separator).0, Split(rest, separator).1)
  {
    if s == [] {
      assert ([] + [separator] + rest)[1..] == rest;
    } else {
      SplitAt(s[1..], separator, rest);
      assert (s + [separator] + rest)[1..] == s[1..] + [separator] + rest;
      assert [s[0]] + s[1..] == s;
    }
  }

  /** What precedes the first separator is part of the first piece. */
  lemma {:induction false} SplitFirst<T>(s: seq<T>, separator: T, rest: seq<T>)
    requires separator !in s
    ensures var (pieces, last) := Split(s + rest, separator); if pieces == [] then s <= last else s <= pieces[0]
  {
    if s == [] {
      assert s + rest == rest;
    } else {
      SplitFirst(s[1..], separator, rest);
      assert (s + rest)[1..] == s[1..] + rest;
    }
  }

  lemma NormalStep(text: string)
    requires text != "" && text[0] != '\r'
    ensures Normal(text) == [text[0]] + Normal(text[1..])
  {
  }

  lemma {:induction false} NormalPlain(line: string, rest: string)
    requires '\r' !in line && '\n' !in line
    ensures Normal(line + rest) == line + Normal(rest)
  {
    hide Normal;
    if line == [] {
      assert line + rest == rest && line + Normal(rest) == Normal(rest);
    } else {
      var head, tail := [line[0]], line[1..];
      var whole := line + rest;
      NormalPlain(tail, rest);
      assert whole[0] == line[0] && whole[1..] == tail + rest;
      NormalStep(whole);
      Associative(head, tail, Normal(rest));
      assert head + tail == line;
    }
  }

  lemma Associative<T>(a: seq<T>, b: seq<T>, c: seq<T>)
    ensures a + (b + c) == a + b + c
  {
  }

  /** A line ending, whichever it is, reads as one newline. */
  lemma NormalEnding(text: string)
    requires text != "" && LineEnd(text) == 0 && !Waits(text)
    ensures Normal(text) == ['\n'] + Normal(text[Width(text)..])
  {
    if text[0] == '\r' { assert text != "\r"; }
  }

  lemma NormalLine(text: string)
    requires !Waits(text)
    ensures var end := LineEnd(text);
      && '\n' !in text[..end]
      && Normal(text) == text[..end] + ['\n'] + Normal(text[end + Width(text)..])
  {
    hide LineEnd, Waits, Width, Normal;
    var end := LineEnd(text);
    var line, tail := text[..end], text[end..];
    LineEndIsFirst(text);
    WidthPositive(text);
    TailWidth(text);
    assert text == line + tail;
    NormalPlain(line, tail);
    NormalEnding(tail);
    assert tail[Width(tail)..] == text[end + Width(text)..];
    Associative(line, ['\n'], Normal(tail[Width(tail)..]));
  }

  lemma TailWidth(text: string)
    requires !Waits(text)
    ensures var tail := text[LineEnd(text)..]; tail != "" && LineEnd(tail) == 0 && !Waits(tail) && Width(tail) == Width(text)
  {
    var tail := text[LineEnd(text)..];
    LineEndIsFirst(text);
    assert tail[0] == text[LineEnd(text)];
  }

  lemma LinesTurn(text: string)
    requires !Waits(text)
    ensures var end := LineEnd(text);
      var rest := text[end + Width(text)..];
      && Lines(text).0 == [text[..end]] + Lines(rest).0
      && Lines(text).1 == Lines(rest).1
  {
    NormalLine(text);
    var end := LineEnd(text);
    SplitAt(text[..end], '\n', Normal(text[end + Width(text)..]));
  }

  lemma LinesWait(text: string)
    requires Waits(text)
    ensures Lines(text) == ([], text)
  {
    var end := LineEnd(text);
    var line, tail := text[..end], text[end..];
    LineEndIsFirst(text);
    NormalTail(tail);
    hide Normal, LineEnd;
    NormalPlain(line, tail);
    assert text == line + tail && '\n' !in text;
    SplitPlain(text, '\n');
  }

  lemma NormalTail(tail: string)
    requires tail == [] || tail == ['\r']
    ensures Normal(tail) == tail
  {
  }

  lemma CommentName(line: string)
    requires line != "" && line[0] == ':'
    ensures FieldName(line) == ""
  {
  }

  lemma Grow(block: seq<string>, line: string, field: string)
    requires line != ""
    ensures Values(block + [line], field) == Values(block, field) + (if FieldName(line) == field then [FieldValue(line)] else [])
    ensures LastId(block + [line]) ==
            (if FieldName(line) == "id" && '\0' !in FieldValue(line) then FieldValue(line) else LastId(block))
    ensures Characters(block + [line]) == Characters(block) + |line|
  {
    hide FieldName, FieldValue;
    assert (block + [line])[..|block + [line]| - 1] == block;
  }

  lemma FeedHolding(block: seq<string>, line: string, buffer: string)
    requires line != ""
    ensures var (fed, events) := Feed(Holding(block, buffer).(size := Characters(block) + |line|), line);
      fed == Holding(block + [line], buffer) && events == []
  {
    hide Feed, Store, FieldName, FieldValue, Values, LastId, LastKind, Characters;
    var held := Holding(block, buffer);
    var size := Characters(block) + |line|;
    FeedCases(held.(size := size), line);
    StoreHolding(block, line, buffer);
    StoreSize(held, FieldName(line), FieldValue(line), size);
    Grow(block, line, "data");
    if line[0] == ':' { CommentName(line); }
  }

  lemma FeedCases(p: Parser, line: string)
    requires line != ""
    ensures Feed(p, line) == (if line[0] == ':' then p else Store(p, FieldName(line), FieldValue(line)), [])
  {
    hide Store, FieldName, FieldValue;
  }

  lemma StoreSize(p: Parser, field: string, value: string, size: nat)
    ensures Store(p.(size := size), field, value) == Store(p, field, value).(size := size)
  {
  }

  lemma StoreHolding(block: seq<string>, line: string, buffer: string)
    requires line != ""
    ensures Store(Holding(block, buffer), FieldName(line), FieldValue(line)) ==
            Holding(block + [line], buffer).(size := Characters(block))
    ensures FieldName(line) == "" ==> Holding(block + [line], buffer).(size := Characters(block)) == Holding(block, buffer)
  {
    Grow(block, line, "data");
    Grow(block, line, "event");
    hide FieldName, FieldValue, Values, LastId, Characters;
    assert Values(block, "data") + [] == Values(block, "data");
    assert Values(block, "event") + [] == Values(block, "event");
  }

  lemma {:induction false} PrefixCharacters(small: seq<string>, big: seq<string>)
    requires small <= big
    ensures Characters(small) <= Characters(big)
    decreases |big|
  {
    if |small| < |big| {
      PrefixCharacters(small, big[..|big| - 1]);
    } else {
      assert small == big;
    }
  }

  predicate BlocksFit(blocks: seq<seq<string>>, limit: nat) {
    forall block :: block in blocks ==> Characters(block) <= limit
  }

  /** Draining a text from an open block, in terms of lines and blocks. */
  lemma {:induction false} DrainBlocks(block: seq<string>, text: string, limit: nat)
    requires "" !in block && Characters(block) <= limit
    ensures var (blocks, open) := Split(block + Lines(text).0, "");
      var (last, outcome) := Drain(Holding(block, text), limit);
      && (outcome.Events? <==> BlocksFit(blocks, limit) && Characters(open) + |Lines(text).1| <= limit)
      && (outcome.Events? ==> outcome.events == BlockEvents(blocks) && last == Holding(open, Lines(text).1))
    decreases |text|
  {
    hide LineEnd, Waits, Width, Normal, FieldName, FieldValue, Join, Lines, Values, LastId, LastKind, Feed, Drain, Split, BlockEvent;
    var p := Holding(block, text);
    if Waits(text) {
      LinesWait(text);
      SplitPlain(block, "");
      assert block + [] == block;
      DrainWaits(p, limit);
    } else {
      var end := LineEnd(text);
      DrainTurn(p, limit);
      LinesTurn(text);
      var line, rest := text[..end], text[end + Width(text)..];
      if line == "" {
        assert block + Lines(text).0 == block + [""] + Lines(rest).0;
        SplitAt(block, "", Lines(rest).0);
        BlankTurn(block, rest, limit);
        assert [] + Lines(rest).0 == Lines(rest).0;
        DrainBlocks([], rest, limit);
      } else {
        FeedHolding(block, line, rest);
        assert block + Lines(text).0 == block + [line] + Lines(rest).0;
        Grow(block, line, "data");
        if Characters(block + [line]) <= limit {
          DrainBlocks(block + [line], rest, limit);
          AfterLaws([], [], Drain(Holding(block + [line], rest), limit).1);
        } else {
          TooLongBlock(block + [line], Lines(rest).0, limit);
        }
      }
    }
  }

  lemma BlankTurn(block: seq<string>, rest: string, limit: nat)
    ensures Feed(Holding(block, rest), "") == (Holding([], rest), BlockEvent(block))
  {
  }

  lemma TooLongBlock(block: seq<string>, lines: seq<string>, limit: nat)
    requires "" !in block && Characters(block) > limit
    ensures var (blocks, open) := Split(block + lines, ""); !BlocksFit(blocks, limit) || Characters(open) > limit
  {
    SplitFirst(block, "", lines);
    var (blocks, open) := Split(block + lines, "");
    if blocks == [] {
      PrefixCharacters(block, open);
    } else {
      PrefixCharacters(block, blocks[0]);
      assert blocks[0] in blocks;
    }
  }

  /** Pushing a whole text into a fresh parser gives the events and the state of the definition, exactly when they fit. */
  lemma WholePush(text: string, limit: nat)
    ensures PushTx(FRESH, text, limit).1.Events? <==> Room(text, limit)
    ensures Room(text, limit) ==> PushTx(FRESH, text, limit) == (StateOf(text), Events(EventsOf(text)))
  {
    assert FRESH.buffer + text == text && [] + Lines(text).0 == Lines(text).0;
    assert Holding([], text) == FRESH.(buffer := text);
    DrainBlocks([], text, limit);
  }

  // ---------- Cutting the text into pieces ----------

  function Concat(pieces: seq<string>): string {
    if pieces == [] then "" else Concat(pieces[..|pieces| - 1]) + pieces[|pieces| - 1]
  }

  /** Pushes the pieces one after the other; the consumer stops at the first refusal. */
  function PushAll(pieces: seq<string>, limit: nat): (Parser, Outcome) {
    if pieces == [] then (FRESH, Events([]))
    else
      var (p, first) := PushAll(pieces[..|pieces| - 1], limit);
      if first.TooLong? then (p, first)
      else
        var (q, second) := PushTx(p, pieces[|pieces| - 1], limit);
        (q, After(first.events, second))
  }

  lemma Extends(s: string, rest: string)
    requires !Waits(s)
    ensures !Waits(s + rest) && LineEnd(s + rest) == LineEnd(s) && Width(s + rest) == Width(s)
    ensures (s + rest)[..LineEnd(s)] == s[..LineEnd(s)]
    ensures (s + rest)[LineEnd(s) + Width(s)..] == s[LineEnd(s) + Width(s)..] + rest
  {
    SameLineEnd(s, rest);
    assert (s + rest)[LineEnd(s)] == s[LineEnd(s)];
  }

  lemma {:induction false} SameLineEnd(s: string, rest: string)
    requires LineEnd(s) < |s|
    ensures LineEnd(s + rest) == LineEnd(s)
  {
    if s[0] != '\r' && s[0] != '\n' {
      SameLineEnd(s[1..], rest);
      assert (s + rest)[1..] == s[1..] + rest;
    }
  }

  lemma FeedIgnoresBuffer(p: Parser, line: string, rest: string)
    ensures Feed(p.(buffer := p.buffer + rest), line) ==
            (Feed(p, line).0.(buffer := Feed(p, line).0.buffer + rest), Feed(p, line).1)
    ensures Feed(p, line).0.buffer == p.buffer
  {
  }

  /** Text that arrives later continues exactly where the parser stopped. */
  lemma {:induction false} Glue(p: Parser, rest: string, limit: nat)
    requires Drain(p, limit).1.Events?
    ensures var (q, outcome) := Drain(p, limit);
      PushTx(p, rest, limit) == (PushTx(q, rest, limit).0, After(outcome.events, PushTx(q, rest, limit).1))
    decreases |p.buffer|
  {
    hide LineEnd, Waits, Width, Feed;
    if Waits(p.buffer) {
      DrainWaits(p, limit);
      AfterLaws([], [], PushTx(p, rest, limit).1);
    } else {
      var end := LineEnd(p.buffer);
      DrainTurn(p, limit);
      Extends(p.buffer, rest);
      var whole := p.(buffer := p.buffer + rest);
      DrainTurn(whole, limit);
      var cut := p.(buffer := p.buffer[end + Width(p.buffer)..], size := p.size + end);
      var (fed, events) := Feed(cut, p.buffer[..end]);
      FeedIgnoresBuffer(cut, p.buffer[..end], rest);
      Glue(fed, rest, limit);
      AfterLaws(events, Drain(fed, limit).1.events, PushTx(Drain(fed, limit).0, rest, limit).1);
    }
  }

  /** A refusal that more text would undo: the pending carriage return was counted as one character too many. */
  lemma {:induction false} Undone(p: Parser, rest: string, limit: nat)
    requires Drain(p, limit).1.TooLong? && PushTx(p, rest, limit).1.Events?
    ensures var q := Drain(p, limit).0;
      && |q.buffer| + q.size == limit + 1
      && q.buffer != "" && q.buffer[|q.buffer| - 1] == '\r'
      && p.buffer != "" && p.buffer[|p.buffer| - 1] == '\r'
    decreases |p.buffer|
  {
    hide LineEnd, Waits, Width, Feed, After, Drain;
    var whole := p.(buffer := p.buffer + rest);
    if Waits(p.buffer) {
      DrainWaits(p, limit);
      UndoneWaits(p, rest, limit);
    } else {
      var end := LineEnd(p.buffer);
      DrainTurn(p, limit);
      Extends(p.buffer, rest);
      DrainTurn(whole, limit);
      var cut := p.(buffer := p.buffer[end + Width(p.buffer)..], size := p.size + end);
      FeedIgnoresBuffer(cut, p.buffer[..end], rest);
      var fed := Feed(cut, p.buffer[..end]).0;
      AfterSucceeds(Feed(cut, p.buffer[..end]).1, Drain(fed, limit).1);
      AfterSucceeds(Feed(cut, p.buffer[..end]).1, PushTx(fed, rest, limit).1);
      Undone(fed, rest, limit);
    }
  }

  lemma UndoneWaits(p: Parser, rest: string, limit: nat)
    requires Waits(p.buffer) && |p.buffer| + p.size > limit && PushTx(p, rest, limit).1.Events?
    ensures |p.buffer| + p.size == limit + 1 && p.buffer != "" && p.buffer[|p.buffer| - 1] == '\r'
  {
    var whole := p.(buffer := p.buffer + rest);
    PrefixLineEnd(p.buffer, rest);
    hide LineEnd, Feed, Drain, After;
    if Waits(whole.buffer) {
      DrainWaits(whole, limit);
      assert false;
    } else {
      DrainTurn(whole, limit);
    }
  }

  lemma {:induction false} PrefixLineEnd(s: string, rest: string)
    ensures LineEnd(s) <= LineEnd(s + rest)
  {
    if s != "" && s[0] != '\r' && s[0] != '\n' {
      PrefixLineEnd(s[1..], rest);
      assert (s + rest)[1..] == s[1..] + rest;
    }
  }

  /** However the text is cut, accepted pieces give the events and the state of the uncut text. */
  lemma {:induction false} PiecesAgree(pieces: seq<string>, limit: nat)
    ensures PushAll(pieces, limit).1.Events? ==> PushAll(pieces, limit) == PushTx(FRESH, Concat(pieces), limit)
    ensures PushAll(pieces, limit).1.Events? <==> forall k :: 0 < k <= |pieces| ==> Room(Concat(pieces[..k]), limit)
  {
    if pieces == [] {
      assert FRESH.buffer + "" == "";
    } else {
      var init, last := pieces[..|pieces| - 1], pieces[|pieces| - 1];
      PiecesAgree(init, limit);
      WholePush(Concat(init), limit);
      WholePush(Concat(pieces), limit);
      RoomCuts(pieces, limit);
      hide Room, Drain, After, PushTx;
      if PushAll(init, limit).1.Events? {
        GluePush(Concat(init), last, limit);
        AfterSucceeds(PushAll(init, limit).1.events, PushTx(PushAll(init, limit).0, last, limit).1);
      }
    }
  }

  lemma GluePush(text: string, rest: string, limit: nat)
    requires PushTx(FRESH, text, limit).1.Events?
    ensures var (q, outcome) := PushTx(FRESH, text, limit);
      PushTx(FRESH, text + rest, limit) == (PushTx(q, rest, limit).0, After(outcome.events, PushTx(q, rest, limit).1))
  {
    assert FRESH.buffer + text == text && FRESH.buffer + (text + rest) == text + rest;
    Glue(FRESH.(buffer := text), rest, limit);
  }

  lemma RoomCuts(pieces: seq<string>, limit: nat)
    requires pieces != []
    ensures var init := pieces[..|pieces| - 1];
      (forall k :: 0 < k <= |pieces| ==> Room(Concat(pieces[..k]), limit)) <==>
      (forall k :: 0 < k <= |init| ==> Room(Concat(init[..k]), limit)) && Room(Concat(pieces), limit)
  {
    hide Room, Concat;
    var init := pieces[..|pieces| - 1];
    assert pieces[..|pieces|] == pieces;
    assert forall k :: 0 < k <= |init| ==> init[..k] == pieces[..k];
  }

  /** Text within the limit is never refused, so it may be cut anywhere, even between a carriage return and its newline. */
  lemma ChunkingInvariance(pieces: seq<string>, limit: nat)
    requires |Concat(pieces)| <= limit
    ensures PushAll(pieces, limit) == PushTx(FRESH, Concat(pieces), limit)
    ensures PushAll(pieces, limit) == (StateOf(Concat(pieces)), Events(EventsOf(Concat(pieces))))
  {
    forall k | 0 < k <= |pieces| ensures Room(Concat(pieces[..k]), limit) {
      ConcatPrefix(pieces, k);
      ShortFits(Concat(pieces[..k]), limit);
      WholePush(Concat(pieces[..k]), limit);
    }
    PiecesAgree(pieces, limit);
    ShortFits(Concat(pieces), limit);
    WholePush(Concat(pieces), limit);
  }

  lemma {:induction false} ConcatPrefix(pieces: seq<string>, k: nat)
    requires k <= |pieces|
    ensures |Concat(pieces[..k])| <= |Concat(pieces)|
  {
    if k < |pieces| {
      ConcatPrefix(pieces[..|pieces| - 1], k);
      assert pieces[..|pieces| - 1][..k] == pieces[..k];
    } else {
      assert pieces[..k] == pieces;
    }
  }

  lemma ShortFits(text: string, limit: nat)
    requires |text| <= limit
    ensures PushTx(FRESH, text, limit).1.Events?
  {
    assert FRESH.buffer + text == text;
    ShortDrains(FRESH.(buffer := text), limit);
  }

  lemma AfterSucceeds(events: seq<StreamEvent>, rest: Outcome)
    ensures After(events, rest).Events? <==> rest.Events?
  {
  }

  lemma {:induction false} ShortDrains(p: Parser, limit: nat)
    requires |p.buffer| + p.size <= limit
    ensures Drain(p, limit).1.Events?
    decreases |p.buffer|
  {
    hide LineEnd, Waits, Width, Feed, After, Drain;
    if Waits(p.buffer) {
      DrainWaits(p, limit);
    } else {
      DrainTurn(p, limit);
      var end := LineEnd(p.buffer);
      var cut := p.(buffer := p.buffer[end + Width(p.buffer)..], size := p.size + end);
      FeedKeeps(cut, p.buffer[..end]);
      AfterSucceeds(Feed(cut, p.buffer[..end]).1, Drain(Feed(cut, p.buffer[..end]).0, limit).1);
      ShortDrains(Feed(cut, p.buffer[..end]).0, limit);
    }
  }

  /** A cut after `prefix` loses a text that is accepted whole exactly when `prefix` ends in a carriage return that is
      one character over the limit. */
  lemma LosingCut(prefix: string, rest: string, limit: nat)
    requires Room(prefix + rest, limit)
    ensures !Room(prefix, limit) <==> Pending(prefix) == limit + 1 && prefix != "" && prefix[|prefix| - 1] == '\r'
  {
    WholePush(prefix + rest, limit);
    WholePush(prefix, limit);
    assert FRESH.buffer + prefix == prefix && FRESH.buffer + (prefix + rest) == prefix + rest;
    if !Room(prefix, limit) {
      var p := FRESH.(buffer := prefix);
      Undone(p, rest, limit);
      PendingAt(prefix, limit);
    }
  }

  /** The state of a refused text still holds its pending characters when only the last check failed. */
  lemma PendingAt(text: string, limit: nat)
    requires var q := Drain(FRESH.(buffer := text), limit).0; |q.buffer| + q.size == limit + 1 && q.size <= limit
    requires Drain(FRESH.(buffer := text), limit).1.TooLong?
    ensures Pending(text) == limit + 1
  {
    LimitIrrelevant(FRESH.(buffer := text), limit);
    WholePush(text, limit + 1);
    assert FRESH.buffer + text == text;
  }

  /** Raising the limit by one past a failed last check changes only the verdict. */
  lemma {:induction false} LimitIrrelevant(p: Parser, limit: nat)
    requires var q := Drain(p, limit).0; |q.buffer| + q.size == limit + 1 && q.size <= limit
    ensures Drain(p, limit + 1).0 == Drain(p, limit).0 && Drain(p, limit + 1).1.Events?
    decreases |p.buffer|
  {
    hide LineEnd, Waits, Width, Feed;
    if Waits(p.buffer) {
      DrainWaits(p, limit);
      DrainWaits(p, limit + 1);
    } else {
      DrainTurn(p, limit);
      DrainTurn(p, limit + 1);
      var end := LineEnd(p.buffer);
      var cut := p.(buffer := p.buffer[end + Width(p.buffer)..], size := p.size + end);
      LimitIrrelevant(Feed(cut, p.buffer[..end]).0, limit);
    }
  }

  lemma {:induction false} LineEndPlain(line: string, rest: string)
    requires '\r' !in line && '\n' !in line && rest != "" && (rest[0] == '\r' || rest[0] == '\n')
    ensures LineEnd(line + rest) == |line|
  {
    if line == "" {
      assert line + rest == rest;
    } else {
      LineEndPlain(line[1..], rest);
      assert (line + rest)[1..] == line[1..] + rest && (line + rest)[0] == line[0];
    }
  }

  /** Such a cut exists for every limit: the last line fills the event, and its line ending is cut in two. */
  lemma LosingCutExists(limit: nat)
    ensures var line := seq(limit, _ => 'a');
      && PushTx(FRESH, line + "\r\n", limit).1.Events?
      && PushAll([line + "\r", "\n"], limit).1.TooLong?
  {
    var line := seq(limit, _ => 'a');
    assert '\r' !in line && '\n' !in line;
    FullLineFits(line);
    FullLineCut(line);
    RefusedFirst([line + "\r", "\n"], limit);
  }

  lemma FullLineFits(line: string)
    requires '\r' !in line && '\n' !in line
    ensures PushTx(FRESH, line + "\r\n", |line|).1.Events?
  {
    var text := line + "\r\n";
    LineEndPlain(line, "\r\n");
    assert FRESH.buffer + text == text;
    var p := FRESH.(buffer := text);
    assert text[|line|] == '\r' && text[|line| + 1] == '\n';
    hide LineEnd, Feed, Drain, After;
    DrainTurn(p, |line|);
    assert text[|line| + 2..] == "" && text[..|line|] == line;
    var cut := p.(buffer := "", size := |line|);
    FeedKeeps(cut, line);
    var fed := Feed(cut, line).0;
    assert Waits(fed.buffer);
    DrainWaits(fed, |line|);
    AfterSucceeds(Feed(cut, line).1, Drain(fed, |line|).1);
  }

  lemma FullLineCut(line: string)
    requires '\r' !in line && '\n' !in line
    ensures PushTx(FRESH, line + "\r", |line|).1.TooLong?
  {
    var text := line + "\r";
    LineEndPlain(line, "\r");
    assert FRESH.buffer + text == text;
    DrainWaits(FRESH.(buffer := text), |line|);
  }

  lemma RefusedFirst(pieces: seq<string>, limit: nat)
    requires |pieces| == 2 && PushTx(FRESH, pieces[0], limit).1.TooLong?
    ensures PushAll(pieces, limit).1.TooLong?
  {
    assert pieces[..1] == [pieces[0]] && pieces[..1][..0] == [];
    assert PushAll(pieces[..1], limit).1.TooLong?;
  }
}
