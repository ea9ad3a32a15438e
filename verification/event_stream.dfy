/** The incremental parser of the event stream, its reference definition, and what cutting the text into pieces may change. */
module EventStream {

  /** An event may not hold more than this many characters. */
  const LIMIT: nat := 1_000_000

  datatype StreamEvent = StreamEvent(id: string, kind: string, data: string)

  /** `buffer` is text without a finished line; the other fields describe the event whose blank line is still to come. */
  datatype Parser = Parser(buffer: string, id: string, kind: string, data: seq<string>, size: nat)

  datatype Outcome = Events(events: seq<StreamEvent>) | TooLong

  const FRESH: Parser := Parser("", "", "", [], 0)

  function LineEnd(s: string): (end: nat)
    ensures end <= |s|
  {
    if s == "" || s[0] == '\r' || s[0] == '\n' then 0 else 1 + LineEnd(s[1..])
  }

  /** The end of the line is its first line-ending character. */
  lemma {:induction false} LineEndIsFirst(s: string)
    ensures '\r' !in s[..LineEnd(s)] && '\n' !in s[..LineEnd(s)]
    ensures LineEnd(s) < |s| ==> s[LineEnd(s)] == '\r' || s[LineEnd(s)] == '\n'
  {
    if s != "" && s[0] != '\r' && s[0] != '\n' {
      LineEndIsFirst(s[1..]);
      assert s[..LineEnd(s)] == [s[0]] + s[1..][..LineEnd(s[1..])];
    }
  }

  /** No line can be cut off yet: a carriage return at the very end may be the first half of a line ending. */
  predicate Waits(s: string) {
    var end := LineEnd(s);
    end == |s| || (s[end] == '\r' && end == |s| - 1)
  }

  function Width(s: string): nat
    requires !Waits(s)
    ensures LineEnd(s) + Width(s) <= |s|
  {
    if s[LineEnd(s)] == '\r' && s[LineEnd(s) + 1] == '\n' then 2 else 1
  }

  function Colon(line: string): (i: nat)
    ensures i <= |line|
  {
    if line == "" || line[0] == ':' then 0 else 1 + Colon(line[1..])
  }

  function FieldName(line: string): string { line[..Colon(line)] }

  function FieldValue(line: string): string {
    if Colon(line) == |line| then ""
    else
      var value := line[Colon(line) + 1..];
      if value != "" && value[0] == ' ' then value[1..] else value
  }

  function Join(lines: seq<string>): string {
    if lines == [] then ""
    else if |lines| == 1 then lines[0]
    else Join(lines[..|lines| - 1]) + "\n" + lines[|lines| - 1]
  }

  /** One finished line; a blank one closes the event, which is reported only if it has data. */
  function Feed(p: Parser, line: string): (Parser, seq<StreamEvent>) {
    if line == "" then
      (Parser(p.buffer, "", "", [], 0),
       if p.data == [] then [] else [StreamEvent(p.id, if p.kind == "" then "message" else p.kind, Join(p.data))])
    else if line[0] == ':' then (p, [])
    else (Store(p, FieldName(line), FieldValue(line)), [])
  }

  function Store(p: Parser, field: string, value: string): Parser {
    p.(data := if field == "data" then p.data + [value] else p.data,
       kind := if field == "event" then value else p.kind,
       id := if field == "id" && '\0' !in value then value else p.id)
  }

  function After(events: seq<StreamEvent>, rest: Outcome): Outcome {
    if rest.Events? then Events(events + rest.events) else rest
  }

  lemma AfterLaws(first: seq<StreamEvent>, second: seq<StreamEvent>, rest: Outcome)
    ensures After([], rest) == rest
    ensures After(first, Events([])) == Events(first)
    ensures After(first, TooLong) == TooLong
    ensures After(first, After(second, rest)) == After(first + second, rest)
  {
    if rest.Events? {
      assert [] + rest.events == rest.events && first + (second + rest.events) == first + second + rest.events;
    }
    assert first + [] == first;
  }

  /** Cuts finished lines off the buffer; the state of a refused text is the one at the refusal. */
  function Drain(p: Parser, limit: nat): (Parser, Outcome)
    decreases |p.buffer|
  {
    if Waits(p.buffer) then (p, if |p.buffer| + p.size > limit then TooLong else Events([]))
    else
      var end := LineEnd(p.buffer);
      var cut := p.(buffer := p.buffer[end + Width(p.buffer)..], size := p.size + end);
      if cut.size > limit then (cut, TooLong)
      else
        var (fed, events) := Feed(cut, p.buffer[..end]);
        var (last, rest) := Drain(fed, limit);
        (last, After(events, rest))
  }

  function PushTx(p: Parser, text: string, limit: nat): (Parser, Outcome) {
    Drain(p.(buffer := p.buffer + text), limit)
  }

  /** One turn of the parser's loop. */
  lemma DrainTurn(p: Parser, limit: nat)
    requires !Waits(p.buffer)
    ensures LineEnd(p.buffer) < LineEnd(p.buffer) + Width(p.buffer) <= |p.buffer|
    ensures var end := LineEnd(p.buffer);
      var cut := p.(buffer := p.buffer[end + Width(p.buffer)..], size := p.size + end);
      var (fed, events) := Feed(cut, p.buffer[..end]);
      && fed.buffer == cut.buffer
      && Drain(p, limit) ==
         (if cut.size > limit then (cut, TooLong) else (Drain(fed, limit).0, After(events, Drain(fed, limit).1)))
  {
    var end := LineEnd(p.buffer);
    var cut := p.(buffer := p.buffer[end + Width(p.buffer)..], size := p.size + end);
    WidthPositive(p.buffer);
    FeedKeeps(cut, p.buffer[..end]);
    hide Feed, Waits, Width, LineEnd, After;
  }

  lemma WidthPositive(s: string)
    requires !Waits(s)
    ensures 0 < Width(s) <= |s| - LineEnd(s)
  {
  }

  lemma FeedKeeps(p: Parser, line: string)
    ensures Feed(p, line).0.buffer == p.buffer && Feed(p, line).0.size <= p.size
  {
    hide FieldName, FieldValue, Join;
  }

  lemma DrainWaits(p: Parser, limit: nat)
    requires Waits(p.buffer)
    ensures Drain(p, limit) == (p, if |p.buffer| + p.size > limit then TooLong else Events([]))
  {
  }

  class EventParser {
    var buffer: string
    var id: string
    var kind: string
    var data: seq<string>
    var size: nat

    function Contents(): Parser
      reads this
    {
      Parser(buffer, id, kind, data, size)
    }

    constructor ()
      ensures Contents() == FRESH
    {
      buffer, id, kind, data, size := "", "", "", [], 0;
    }

    method Push(text: string) returns (outcome: Outcome)
      modifies this
      ensures (Contents(), outcome) == PushTx(old(Contents()), text, 1_000_000)
    {
      hide Drain, After, LineEnd, Waits, Width, FieldName, FieldValue, Join;
      buffer := buffer + text;
      var events: seq<StreamEvent> := [];
      ghost var begun := Contents();
      AfterLaws([], [], Drain(begun, LIMIT).1);
      while !Waits(buffer)
        invariant Drain(begun, LIMIT) == (Drain(Contents(), LIMIT).0, After(events, Drain(Contents(), LIMIT).1))
        decreases |buffer|
      {
        ghost var earlier := events;
        DrainTurn(Contents(), LIMIT);
        var end := LineEnd(buffer);
        var line := buffer[..end];
        buffer := buffer[end + Width(buffer)..];
        size := size + |line|;
        ghost var cut := Contents();
        AfterLaws(earlier, [], TooLong);
        if size > LIMIT { return TooLong; }
        if line == "" {
          if data != [] { events := events + [StreamEvent(id, if kind == "" then "message" else kind, Join(data))]; }
          id, kind, data, size := "", "", [], 0;
        } else if line[0] != ':' {
          var value := FieldValue(line);
          if FieldName(line) == "data" { data := data + [value]; }
          if FieldName(line) == "event" { kind := value; }
          if FieldName(line) == "id" && '\0' !in value { id := value; }
        }
        assert Contents() == Feed(cut, line).0 && events == earlier + Feed(cut, line).1;
        AfterLaws(earlier, Feed(cut, line).1, Drain(Contents(), LIMIT).1);
      }
      AfterLaws(events, [], Events([]));
      DrainWaits(Contents(), LIMIT);
      if |buffer| + size > LIMIT { return TooLong; }
      outcome := Events(events);
    }
  }
}
