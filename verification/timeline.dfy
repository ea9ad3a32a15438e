/** The browser's half of the event feed, and whole runs of both halves over connections that break anywhere. */
module Timeline {
  import opened Basics
  import opened EventStream
  import opened EventStreamLaws
  import opened EventFeed

  /** The largest integer a browser counts exactly. */
  const MAX_SAFE: nat := 9007199254740991

  const SHOWN: nat := 200

  const ITERATIONS: nat := 120

  datatype TimelineEvent = TimelineEvent(sequence: nat, kind: string, payload: string)

  datatype Verdict = Accepted(event: TimelineEvent) | Ignored | Invalid

  predicate Digits(s: string) { s != "" && forall k :: 0 <= k < |s| ==> '0' <= s[k] <= '9' }

  function NumberOf(s: string): nat
    requires forall k :: 0 <= k < |s| ==> '0' <= s[k] <= '9'
  {
    if s == "" then 0 else 10 * NumberOf(s[..|s| - 1]) + (s[|s| - 1] as int - '0' as int)
  }

  /** `objects` holds the texts that parse as a JSON object. */
  function AcceptEvent(event: StreamEvent, cursor: nat, objects: set<string>): Verdict {
    if !Digits(event.id) then Invalid
    else
      var sequence := NumberOf(event.id);
      if sequence > MAX_SAFE || sequence < 1 then Invalid
      else if sequence <= cursor then Ignored
      else if sequence != cursor + 1 then Invalid
      else if event.data !in objects then Invalid
      else Accepted(TimelineEvent(sequence, event.kind, event.data))
  }

  datatype Reason = AccessLost | HistoryLost | StreamClosed | BadEvent

  datatype Progress = Following | Stopped(reason: Reason)

  /** `accepted` is everything the panel ever took over; `items` is what it shows. */
  datatype Client = Client(cursor: nat, progress: Progress, items: seq<TimelineEvent>, accepted: seq<TimelineEvent>)

  function LastOf<T>(s: seq<T>, n: nat): seq<T> { if |s| <= n then s else s[|s| - n..] }

  /** The panel's reaction to one event. */
  function Receive(c: Client, event: StreamEvent, objects: set<string>): Client {
    if event.kind == "access_revoked" then c.(progress := Stopped(AccessLost), items := [])
    else if event.kind == "history_unavailable" then c.(progress := Stopped(HistoryLost))
    else if event.kind == "stream.closed" then c.(progress := Stopped(StreamClosed))
    else if c.progress.Stopped? then c
    else
      match AcceptEvent(event, c.cursor, objects)
      case Accepted(e) => c.(cursor := e.sequence, items := LastOf(c.items + [e], SHOWN), accepted := c.accepted + [e])
      case Ignored => c
      case Invalid => c.(progress := Stopped(BadEvent))
  }

  /** An invalid event ends the reading of the response. */
  function ReceiveAll(c: Client, events: seq<StreamEvent>, objects: set<string>): Client {
    if events == [] then c
    else
      var c' := ReceiveAll(c, events[..|events| - 1], objects);
      if c'.progress == Stopped(BadEvent) then c' else Receive(c', events[|events| - 1], objects)
  }

  /** `began` is the client as it was at the request, `frames` all that was printed, `delivered` and `wire` its text. */
  datatype Connection = Connection(
    began: Client,
    cursor: nat,
    first: Option<Page>,
    left: nat,
    live: bool,
    frames: seq<Frame>,
    delivered: string,
    wire: string,
    parser: Parser)

  /** `terminatedAt` is the number of the event that ended the task; `objects` are the texts that parse as JSON objects. */
  datatype Task = Task(history: seq<Entry>, lost: set<nat>, terminatedAt: Option<nat>, objects: set<string>)

  datatype World = World(task: Task, client: Client, connection: Option<Connection>)

  datatype Step =
    | Emit(entry: Entry, terminates: bool)
    | Lose(sequence: nat)
    | Connect(allowed: bool)
    | Serve(allowed: bool)
    | Deliver(count: nat)
    | Drop

  function LogOf(t: Task): Log { Log(t.history, t.lost, t.terminatedAt.Some?) }

  /** Event names are dotted words and payloads printed JSON objects. */
  predicate Ordinary(entry: Entry, objects: set<string>) {
    && Plain(entry.kind) && entry.kind != "" && Plain(entry.payload)
    && entry.payload in objects
    && entry.kind != "access_revoked" && entry.kind != "history_unavailable" && entry.kind != "stream.closed"
  }

  function OpenConnection(w: World, allowed: bool): World {
    if w.connection.Some? || w.client.progress.Stopped? then w
    else if !allowed then w.(client := w.client.(progress := Stopped(AccessLost), items := []))
    else
      var page := EventPage(LogOf(w.task), w.client.cursor);
      if page.Refused? then w.(client := w.client.(progress := Stopped(HistoryLost)))
      else w.(connection := Some(Connection(w.client, w.client.cursor, Some(page), ITERATIONS, true, [], "", "", FRESH)))
  }

  function AnswerFor(w: World, c: Connection, allowed: bool): Answer {
    if c.first.Some? then Served(c.first.value)
    else if allowed then Served(EventPage(LogOf(w.task), c.cursor))
    else Denied
  }

  function Printed(c: Connection, answer: Answer): Connection {
    c.(cursor := LastSequence(answer, c.cursor),
       first := None,
       left := if c.left == 0 then 0 else c.left - 1,
       live := Continuing(answer),
       frames := c.frames + Frames(answer),
       wire := c.wire + PrintAll(Frames(answer)))
  }

  /** The next characters arrive; a refused text or an invalid event costs the connection. */
  function Delivered(w: World, c: Connection, count: nat): World
    requires count <= |c.wire|
  {
    var chunk := c.wire[..count];
    var (parser, outcome) := PushTx(c.parser, chunk, LIMIT);
    if outcome.TooLong? then w.(connection := None)
    else
      var client := ReceiveAll(w.client, outcome.events, w.task.objects);
      if client.progress == Stopped(BadEvent) then w.(client := client, connection := None)
      else
        w.(client := client,
           connection := Some(c.(parser := parser, delivered := c.delivered + chunk, wire := c.wire[count..])))
  }

  function Emitted(t: Task, entry: Entry, terminates: bool): Task {
    t.(history := t.history + [entry],
       terminatedAt := if terminates && t.terminatedAt.None? then Some(|t.history| + 1) else t.terminatedAt)
  }

  function Next(w: World, s: Step): World {
    match s
    case Emit(entry, terminates) =>
      if !Ordinary(entry, w.task.objects) then w else w.(task := Emitted(w.task, entry, terminates))
    case Lose(sequence) => w.(task := w.task.(lost := w.task.lost + {sequence}))
    case Connect(allowed) => OpenConnection(w, allowed)
    case Serve(allowed) =>
      if w.connection.None? || !w.connection.value.live || w.connection.value.left == 0 then w
      else w.(connection := Some(Printed(w.connection.value, AnswerFor(w, w.connection.value, allowed))))
    case Deliver(count) =>
      if w.connection.None? || count > |w.connection.value.wire| then w else Delivered(w, w.connection.value, count)
    case Drop => w.(connection := None)
  }

  function Run(w: World, steps: seq<Step>): World {
    if steps == [] then w else Next(Run(w, steps[..|steps| - 1]), steps[|steps| - 1])
  }

  function Start(objects: set<string>): World { World(Task([], {}, None, objects), Client(0, Following, [], []), None) }

  // ---------- What the client may hold ----------

  /** The accepted events are the first `cursor` entries of the history, in order, none lost or doubled. */
  predicate Faithful(c: Client, history: seq<Entry>) {
    && |c.accepted| == c.cursor <= |history|
    && (forall i :: 0 <= i < c.cursor ==> c.accepted[i] == TimelineEvent(i + 1, history[i].kind, history[i].payload))
    && (c.progress != Stopped(AccessLost) ==> c.items == LastOf(c.accepted, 200))
  }

  /** Why the client stopped. */
  predicate Reasoned(c: Client, t: Task) {
    match c.progress
    case Following => true
    case Stopped(AccessLost) => true
    case Stopped(HistoryLost) => t.lost != {}
    case Stopped(StreamClosed) => t.terminatedAt.Some? && t.terminatedAt.value <= c.cursor
    case Stopped(BadEvent) => |t.history| > MAX_SAFE
  }

  function EndOf(frames: seq<Frame>, start: nat): nat {
    if frames == [] then start
    else EndOf(frames[..|frames| - 1], start) + if frames[|frames| - 1].EntryFrame? then 1 else 0
  }

  predicate Flowing(f: Frame) { f.EntryFrame? || f.Heartbeat? }

  /** What the world must be like for the frame to be printed after event number `end`. */
  predicate Truthful(f: Frame, end: nat, t: Task) {
    match f
    case EntryFrame(row) =>
      row.sequence == end + 1 <= |t.history| && row.entry == t.history[end] && Ordinary(row.entry, t.objects)
    case Heartbeat => true
    case Closed => t.terminatedAt.Some? && t.terminatedAt.value <= end
    case Failed(trouble) => trouble == HistoryUnavailable ==> t.lost != {}
  }

  predicate AllFlow(frames: seq<Frame>) { forall k :: 0 <= k < |frames| ==> Flowing(frames[k]) }

  /** The frames continue the history after `start`; nothing follows a frame that closes the stream. */
  predicate Numbered(frames: seq<Frame>, start: nat, t: Task) {
    frames == [] ||
    (var init, last := frames[..|frames| - 1], frames[|frames| - 1];
     Numbered(init, start, t) && AllFlow(init) && Truthful(last, EndOf(init, start), t))
  }

  lemma {:induction false} DecimalReads(n: nat)
    ensures Digits(Decimal(n)) && NumberOf(Decimal(n)) == n
  {
    DecimalDigits(n);
    if n >= 10 {
      DecimalReads(n / 10);
      assert Decimal(n)[..|Decimal(n)| - 1] == Decimal(n / 10);
    } else {
      assert Decimal(n)[..0] == "";
    }
  }

  /** One entry frame at a client that stands right before it. */
  lemma ReceiveEntry(c: Client, row: Row, t: Task)
    requires Faithful(c, t.history) && c.progress.Following? && Truthful(EntryFrame(row), c.cursor, t)
    ensures var c' := Receive(c, FrameEvent(EntryFrame(row))[0], t.objects);
      && Faithful(c', t.history)
      && (if row.sequence <= MAX_SAFE then c'.progress.Following? && c'.cursor == c.cursor + 1
          else c'.progress == Stopped(BadEvent) && c'.cursor == c.cursor)
  {
    DecimalReads(row.sequence);
    hide Decimal, NumberOf, Digits;
    var e := TimelineEvent(row.sequence, row.entry.kind, row.entry.payload);
    LastOfAppend(c.accepted, e);
  }

  lemma LastOfAppend<T>(s: seq<T>, x: T)
    ensures LastOf(LastOf(s, SHOWN) + [x], SHOWN) == LastOf(s + [x], SHOWN)
  {
  }

  /** A client that read all of a connection's frames so far. */
  lemma {:induction false} Follow(c: Client, frames: seq<Frame>, t: Task)
    requires Faithful(c, t.history) && c.progress.Following? && Numbered(frames, c.cursor, t)
    ensures var c' := ReceiveAll(c, FrameEvents(frames), t.objects);
      && Faithful(c', t.history)
      && Reasoned(c', t)
      && (c'.progress != Stopped(BadEvent) ==> c'.cursor == EndOf(frames, c.cursor))
      && (AllFlow(frames) ==> c'.progress.Following? || c'.progress == Stopped(BadEvent))
  {
    hide Faithful, Ordinary, Receive, FrameEvent, FrameEvents, ReceiveAll;
    if frames == [] {
      assert ReceiveAll(c, FrameEvents(frames), t.objects) == c by { ReceiveNone(c, t.objects); }
    } else {
      var init, last := frames[..|frames| - 1], frames[|frames| - 1];
      Follow(c, init, t);
      EventsSplit(frames);
      var before := ReceiveAll(c, FrameEvents(init), t.objects);
      ReceiveMore(c, FrameEvents(init), last, t.objects);
      if before.progress != Stopped(BadEvent) && !last.Heartbeat? { ReceiveFrame(before, last, t); }
    }
  }

  lemma ReceiveNone(c: Client, objects: set<string>)
    ensures ReceiveAll(c, FrameEvents([]), objects) == c
  {
  }

  lemma ReceiveMore(c: Client, events: seq<StreamEvent>, f: Frame, objects: set<string>)
    ensures var before := ReceiveAll(c, events, objects);
      && |FrameEvent(f)| == (if f.Heartbeat? then 0 else 1)
      && ReceiveAll(c, events + FrameEvent(f), objects) ==
         (if f.Heartbeat? || before.progress == Stopped(BadEvent) then before else Receive(before, FrameEvent(f)[0], objects))
  {
    var all := events + FrameEvent(f);
    if f.Heartbeat? {
      assert all == events;
    } else {
      assert all[..|all| - 1] == events && all[|all| - 1] == FrameEvent(f)[0];
    }
    hide Receive;
  }

  lemma EventsSplit(frames: seq<Frame>)
    requires frames != []
    ensures FrameEvents(frames) == FrameEvents(frames[..|frames| - 1]) + FrameEvent(frames[|frames| - 1])
  {
    hide FrameEvent;
    var init, last := frames[..|frames| - 1], frames[|frames| - 1];
    FrameEventsAppend(init, [last]);
    assert init + [last] == frames;
    assert FrameEvents([last]) == FrameEvent(last) + FrameEvents([]);
  }

  lemma ReceiveFrame(c: Client, f: Frame, t: Task)
    requires Faithful(c, t.history) && c.progress.Following? && Truthful(f, c.cursor, t) && !f.Heartbeat?
    ensures var c' := Receive(c, FrameEvent(f)[0], t.objects);
      && Faithful(c', t.history)
      && Reasoned(c', t)
      && (c'.progress != Stopped(BadEvent) ==> c'.cursor == c.cursor + if f.EntryFrame? then 1 else 0)
      && (f.EntryFrame? ==> c'.progress.Following? || c'.progress == Stopped(BadEvent))
  {
    if f.EntryFrame? {
      ReceiveEntry(c, f.row, t);
      hide Receive, FrameEvent;
    } else if f.Failed? && f.trouble.HistoryUnavailable? {
      assert "history_unavailable"[0] != "access_revoked"[0];
    } else if f.Closed? {
      assert "stream.closed"[0] != "history_unavailable"[0] && "stream.closed"[0] != "access_revoked"[0];
    }
  }

  /** A client that read only some of the events has read all events of the first few frames. */
  lemma {:induction false} SomeFrames(frames: seq<Frame>, events: seq<StreamEvent>) returns (k: nat)
    requires events <= FrameEvents(frames)
    ensures k <= |frames| && events == FrameEvents(frames[..k])
  {
    if |events| == |FrameEvents(frames)| {
      k := |frames|;
      assert frames[..k] == frames;
    } else {
      var init := frames[..|frames| - 1];
      EventsSplit(frames);
      assert |FrameEvent(frames[|frames| - 1])| <= 1;
      k := SomeFrames(init, events);
      assert init[..k] == frames[..k];
    }
  }

  lemma {:induction false} NumberedPrefix(frames: seq<Frame>, k: nat, start: nat, t: Task)
    requires Numbered(frames, start, t) && k <= |frames|
    ensures Numbered(frames[..k], start, t)
  {
    if k < |frames| {
      NumberedPrefix(frames[..|frames| - 1], k, start, t);
      assert frames[..|frames| - 1][..k] == frames[..k];
    } else {
      assert frames[..k] == frames;
    }
  }

  /** Whatever part of the frames was delivered. */
  lemma FollowSome(c: Client, frames: seq<Frame>, events: seq<StreamEvent>, t: Task)
    requires Faithful(c, t.history) && c.progress.Following? && Numbered(frames, c.cursor, t)
    requires events <= FrameEvents(frames)
    ensures Faithful(ReceiveAll(c, events, t.objects), t.history) && Reasoned(ReceiveAll(c, events, t.objects), t)
  {
    var k := SomeFrames(frames, events);
    NumberedPrefix(frames, k, c.cursor, t);
    Follow(c, frames[..k], t);
  }

  // ---------- The invariant of a connection ----------

  predicate PageTrue(page: Page, cursor: nat, t: Task) {
    && page.Page?
    && Continues(page.rows, cursor, t.history)
    && (forall k :: 0 <= k < |page.rows| ==> Ordinary(page.rows[k].entry, t.objects))
    && (page.terminal ==> t.terminatedAt.Some? && t.terminatedAt.value <= cursor + |page.rows|)
  }

  /** What the server printed on this connection. */
  predicate Printing(c: Connection, t: Task) {
    && Numbered(c.frames, c.began.cursor, t)
    && c.cursor == EndOf(c.frames, c.began.cursor)
    && c.cursor <= |t.history|
    && (c.live ==> AllFlow(c.frames))
    && (c.first.Some? ==> PageTrue(c.first.value, c.cursor, t))
    && c.delivered + c.wire == PrintAll(c.frames)
  }

  /** What the client made of the text that arrived. */
  predicate Reading(c: Connection, client: Client, t: Task) {
    && Room(c.delivered, LIMIT)
    && c.parser == StateOf(c.delivered)
    && client == ReceiveAll(c.began, EventsOf(c.delivered), t.objects)
    && client.progress != Stopped(BadEvent)
  }

  predicate Began(c: Connection, t: Task) { c.began.progress.Following? && Faithful(c.began, t.history) }

  predicate ConnectionSound(c: Connection, client: Client, t: Task) { Began(c, t) && Printing(c, t) && Reading(c, client, t) }

  predicate ClientSound(client: Client, t: Task) { Faithful(client, t.history) && Reasoned(client, t) }

  predicate TaskSound(t: Task) {
    && (forall k :: 0 <= k < |t.history| ==> Ordinary(t.history[k], t.objects))
    && (t.terminatedAt.Some? ==> t.terminatedAt.value <= |t.history|)
  }

  predicate Sound(w: World) {
    && TaskSound(w.task)
    && ClientSound(w.client, w.task)
    && (w.connection.Some? ==> ConnectionSound(w.connection.value, w.client, w.task))
  }

  /** The log only grows, and the client and its text do not care. */
  predicate Grows(t: Task, t': Task) {
    && t.history <= t'.history
    && t.lost <= t'.lost
    && t'.objects == t.objects
    && (t.terminatedAt.Some? ==> t'.terminatedAt == t.terminatedAt)
  }

  lemma {:induction false} NumberedGrows(frames: seq<Frame>, start: nat, t: Task, t': Task)
    requires Grows(t, t') && Numbered(frames, start, t)
    ensures Numbered(frames, start, t')
  {
    hide Ordinary;
    if frames != [] { NumberedGrows(frames[..|frames| - 1], start, t, t'); }
  }

  lemma LogSound(w: World, s: Step)
    requires Sound(w) && (s.Emit? || s.Lose?)
    ensures Sound(Next(w, s))
  {
    var t, t' := w.task, Next(w, s).task;
    assert Grows(t, t') && TaskSound(t') && ClientSound(w.client, t') by { hide Ordinary; }
    if w.connection.Some? { ConnectionGrows(w.connection.value, w.client, t, t'); }
    hide TaskSound, ClientSound, ConnectionSound, Grows;
  }

  lemma ConnectionGrows(c: Connection, client: Client, t: Task, t': Task)
    requires ConnectionSound(c, client, t) && Grows(t, t')
    ensures ConnectionSound(c, client, t')
  {
    hide Ordinary, Room, Numbered, StateOf, EventsOf;
    NumberedGrows(c.frames, c.began.cursor, t, t');
  }

  lemma PageIsTrue(t: Task, cursor: nat)
    requires TaskSound(t) && EventPage(LogOf(t), cursor).Page?
    ensures PageTrue(EventPage(LogOf(t), cursor), cursor, t)
  {
    hide Ordinary, EventPage;
    PageContinues(LogOf(t), cursor);
  }

  /** Only missing rows make a page unavailable to a cursor within the history. */
  lemma PageRefusal(t: Task, cursor: nat)
    requires cursor <= |t.history| && EventPage(LogOf(t), cursor).Refused?
    ensures t.lost != {}
  {
    if t.lost == {} {
      PageComplete(LogOf(t), cursor);
      assert false;
    }
  }

  lemma FreshText()
    ensures StateOf("") == FRESH && EventsOf("") == [] && Room("", LIMIT)
  {
    PrintParses([]);
    WholePush("", LIMIT);
    ShortFits("", LIMIT);
  }

  lemma ConnectSound(w: World, s: Step)
    requires Sound(w) && s.Connect?
    ensures Sound(Next(w, s))
  {
    hide Ordinary, EventPage, ConnectionSound;
    if w.connection.None? && w.client.progress.Following? && s.allowed {
      var page := EventPage(LogOf(w.task), w.client.cursor);
      if page.Page? {
        PageIsTrue(w.task, w.client.cursor);
        FreshConnection(w.client, page, w.task);
        hide PageTrue, ClientSound;
      } else {
        PageRefusal(w.task, w.client.cursor);
      }
    }
  }

  lemma FreshConnection(client: Client, page: Page, t: Task)
    requires ClientSound(client, t) && client.progress.Following? && PageTrue(page, client.cursor, t)
    ensures ConnectionSound(Connection(client, client.cursor, Some(page), ITERATIONS, true, [], "", "", FRESH), client, t)
  {
    hide PageTrue, Room, StateOf, EventsOf;
    FreshText();
    assert "" + "" == PrintAll([]);
  }

  /** Adding one true frame to a flowing stream. */
  lemma NumberedAppend(frames: seq<Frame>, last: Frame, start: nat, t: Task)
    requires Numbered(frames, start, t) && AllFlow(frames) && Truthful(last, EndOf(frames, start), t)
    ensures Numbered(frames + [last], start, t)
    ensures EndOf(frames + [last], start) == EndOf(frames, start) + if last.EntryFrame? then 1 else 0
    ensures Flowing(last) ==> AllFlow(frames + [last])
  {
    assert (frames + [last])[..|frames|] == frames;
    hide Truthful, Ordinary;
  }

  lemma {:induction false} NumberedRows(frames: seq<Frame>, rows: seq<Row>, k: nat, start: nat, t: Task)
    requires Numbered(frames, start, t) && AllFlow(frames) && Continues(rows, EndOf(frames, start), t.history) && k <= |rows|
    requires forall i :: 0 <= i < |rows| ==> Ordinary(rows[i].entry, t.objects)
    ensures var all := frames + EntryFrames(rows)[..k];
      Numbered(all, start, t) && AllFlow(all) && EndOf(all, start) == EndOf(frames, start) + k
  {
    hide Numbered, Ordinary;
    if k == 0 {
      assert frames + EntryFrames(rows)[..0] == frames;
    } else {
      NumberedRows(frames, rows, k - 1, start, t);
      var init := frames + EntryFrames(rows)[..k - 1];
      assert frames + EntryFrames(rows)[..k] == init + [EntryFrame(rows[k - 1])];
      NumberedAppend(init, EntryFrame(rows[k - 1]), start, t);
    }
  }

  lemma LastOfPage(page: Page, cursor: nat, t: Task)
    requires PageTrue(page, cursor, t)
    ensures LastSequence(Served(page), cursor) == cursor + |page.rows|
  {
  }

  lemma PrintedPage(c: Connection, page: Page, t: Task)
    requires Printing(c, t) && c.live && PageTrue(page, c.cursor, t)
    ensures Printing(Printed(c, Served(page)), t)
  {
    hide Numbered, Ordinary, PrintAll, EndOf, AllFlow, LastSequence;
    LastOfPage(page, c.cursor, t);
    var rows, start := page.rows, c.began.cursor;
    NumberedRows(c.frames, rows, |rows|, start, t);
    assert EntryFrames(rows)[..|rows|] == EntryFrames(rows);
    var last := if page.terminal then Closed else Heartbeat;
    var init := c.frames + EntryFrames(rows);
    NumberedAppend(init, last, start, t);
    assert c.frames + Frames(Served(page)) == init + [last];
    PrintAppend(c.frames, Frames(Served(page)));
    Associative(c.delivered, c.wire, PrintAll(Frames(Served(page))));
  }

  lemma PrintedTrouble(c: Connection, answer: Answer, t: Task)
    requires Printing(c, t) && c.live
    requires answer.Denied? || (answer.page.Refused? && t.lost != {})
    ensures Printing(Printed(c, answer), t)
  {
    hide Numbered, Ordinary, PrintAll;
    var last := Frames(answer)[0];
    NumberedAppend(c.frames, last, c.began.cursor, t);
    PrintAppend(c.frames, Frames(answer));
    Associative(c.delivered, c.wire, PrintAll(Frames(answer)));
  }

  lemma ServeSound(w: World, s: Step)
    requires Sound(w) && s.Serve?
    ensures Sound(Next(w, s))
  {
    if w.connection.Some? && w.connection.value.live && w.connection.value.left != 0 {
      PrintingServes(w.connection.value, AnswerFor(w, w.connection.value, s.allowed), w, s.allowed);
      hide Printing, TaskSound, ClientSound, Room, StateOf, EventsOf, EventPage, Faithful;
    }
  }

  lemma PrintingServes(c: Connection, answer: Answer, w: World, allowed: bool)
    requires TaskSound(w.task) && Printing(c, w.task) && c.live && answer == AnswerFor(w, c, allowed)
    ensures Printing(Printed(c, answer), w.task)
  {
    hide Ordinary, EventPage, Numbered;
    if answer.Served? && answer.page.Page? {
      if c.first.None? { PageIsTrue(w.task, c.cursor); }
      PrintedPage(c, answer.page, w.task);
    } else {
      if answer.Served? { PageRefusal(w.task, c.cursor); }
      PrintedTrouble(c, answer, w.task);
    }
  }

  /** The events of what arrived are the first ones of what was printed. */
  lemma ArrivedEvents(delivered: string, wire: string)
    ensures EventsOf(delivered) <= EventsOf(delivered + wire)
  {
    var enough := |delivered + wire|;
    ShortFits(delivered, enough);
    ShortFits(delivered + wire, enough);
    WholePush(delivered, enough);
    WholePush(delivered + wire, enough);
    GluePush(delivered, wire, enough);
  }

  lemma {:induction false} ReceiveAppend(c: Client, a: seq<StreamEvent>, b: seq<StreamEvent>, objects: set<string>)
    requires ReceiveAll(c, a, objects).progress != Stopped(BadEvent)
    ensures ReceiveAll(ReceiveAll(c, a, objects), b, objects) == ReceiveAll(c, a + b, objects)
  {
    hide Receive;
    if b == [] {
      assert a + b == a;
    } else {
      var init := b[..|b| - 1];
      ReceiveAppend(c, a, init, objects);
      assert (a + b)[..|a + b| - 1] == a + init;
    }
  }

  lemma AllSendable(frames: seq<Frame>, start: nat, t: Task)
    requires Numbered(frames, start, t)
    ensures forall f :: f in frames ==> Sendable(f)
  {
    if frames != [] {
      AllSendable(frames[..|frames| - 1], start, t);
      assert frames == frames[..|frames| - 1] + [frames[|frames| - 1]];
    }
  }

  /** The parser reads on exactly where it stopped. */
  lemma ReadsOn(delivered: string, chunk: string)
    requires Room(delivered, LIMIT) && PushTx(StateOf(delivered), chunk, LIMIT).1.Events?
    ensures Room(delivered + chunk, LIMIT)
    ensures PushTx(StateOf(delivered), chunk, LIMIT).0 == StateOf(delivered + chunk)
    ensures EventsOf(delivered) + PushTx(StateOf(delivered), chunk, LIMIT).1.events == EventsOf(delivered + chunk)
  {
    hide StateOf, EventsOf, Room;
    WholePush(delivered, LIMIT);
    WholePush(delivered + chunk, LIMIT);
    GluePush(delivered, chunk, LIMIT);
  }

  lemma DeliverSound(w: World, s: Step)
    requires Sound(w) && s.Deliver?
    ensures Sound(Next(w, s))
  {
    if w.connection.Some? && s.count <= |w.connection.value.wire| {
      var c := w.connection.value;
      var chunk, rest := c.wire[..s.count], c.wire[s.count..];
      var (parser, outcome) := PushTx(c.parser, chunk, LIMIT);
      if outcome.Events? {
        var client := ReceiveAll(w.client, outcome.events, w.task.objects);
        ReadingMore(c, w.client, chunk, w.task);
        Arrives(w.task, c, s.count);
        if client.progress != Stopped(BadEvent) {
          MoreDelivered(c, parser, s.count, w.task);
        }
        hide TaskSound, Printing, Began, PushTx, ReceiveAll, EventsOf, Faithful, Reasoned, StateOf, Room;
      }
    }
  }

  lemma ReadingMore(c: Connection, client: Client, chunk: string, t: Task)
    requires Reading(c, client, t) && PushTx(c.parser, chunk, LIMIT).1.Events?
    ensures var (parser, outcome) := PushTx(c.parser, chunk, LIMIT);
      && Room(c.delivered + chunk, LIMIT)
      && parser == StateOf(c.delivered + chunk)
      && ReceiveAll(client, outcome.events, t.objects) == ReceiveAll(c.began, EventsOf(c.delivered + chunk), t.objects)
  {
    hide StateOf, EventsOf, Room, PushTx;
    ReadsOn(c.delivered, chunk);
    ReceiveAppend(c.began, EventsOf(c.delivered), PushTx(c.parser, chunk, LIMIT).1.events, t.objects);
  }

  lemma MoreDelivered(c: Connection, parser: Parser, count: nat, t: Task)
    requires Began(c, t) && Printing(c, t) && count <= |c.wire|
    ensures var c' := c.(parser := parser, delivered := c.delivered + c.wire[..count], wire := c.wire[count..]);
      Began(c', t) && Printing(c', t)
  {
    hide Numbered, PrintAll, PageTrue, Faithful;
    Associative(c.delivered, c.wire[..count], c.wire[count..]);
    assert c.wire[..count] + c.wire[count..] == c.wire;
  }

  /** The client after the characters that arrived. */
  lemma Arrives(t: Task, c: Connection, count: nat)
    requires Began(c, t) && Printing(c, t) && count <= |c.wire|
    ensures var client := ReceiveAll(c.began, EventsOf(c.delivered + c.wire[..count]), t.objects);
      Faithful(client, t.history) && Reasoned(client, t)
  {
    hide Ordinary, EventsOf, Faithful, PageTrue, Sendable;
    var arrived, rest := c.delivered + c.wire[..count], c.wire[count..];
    assert c.delivered + c.wire == arrived + rest;
    ArrivedEvents(arrived, rest);
    AllSendable(c.frames, c.began.cursor, t);
    PrintParses(c.frames);
    FollowSome(c.began, c.frames, EventsOf(arrived), t);
  }

  lemma StepSound(w: World, s: Step)
    requires Sound(w)
    ensures Sound(Next(w, s))
  {
    match s
    case Emit(_, _) => LogSound(w, s);
    case Lose(_) => LogSound(w, s);
    case Connect(_) => ConnectSound(w, s);
    case Serve(_) => ServeSound(w, s);
    case Deliver(_) => DeliverSound(w, s);
    case Drop =>
  }

  lemma {:induction false} RunSound(objects: set<string>, steps: seq<Step>)
    ensures Sound(Run(Start(objects), steps))
  {
    if steps != [] {
      RunSound(objects, steps[..|steps| - 1]);
      hide Sound, Next;
      StepSound(Run(Start(objects), steps[..|steps| - 1]), steps[|steps| - 1]);
    }
  }

  // ---------- The results ----------

  /** Over any number of connections, cut and broken anywhere, and even when rows go missing, the accepted events are the
      first entries of the server's history. */
  lemma EndToEnd(objects: set<string>, steps: seq<Step>)
    ensures var w := Run(Start(objects), steps);
      && |w.client.accepted| == w.client.cursor <= |w.task.history|
      && forall i :: 0 <= i < w.client.cursor ==>
           w.client.accepted[i] == TimelineEvent(i + 1, w.task.history[i].kind, w.task.history[i].payload)
  {
    RunSound(objects, steps);
  }

  /** The client stops only when access was lost, rows are missing, the numbers run out, or it has seen the task's end. */
  lemma StopsForAReason(objects: set<string>, steps: seq<Step>)
    ensures var w := Run(Start(objects), steps);
      match w.client.progress
      case Following => true
      case Stopped(AccessLost) => true
      case Stopped(HistoryLost) => w.task.lost != {}
      case Stopped(StreamClosed) => w.task.terminatedAt.Some? && w.task.terminatedAt.value <= |w.client.accepted|
      case Stopped(BadEvent) => |w.task.history| > 9007199254740991
  {
    RunSound(objects, steps);
  }

  /** A client that received all the text of its connection stands where the server stands. */
  lemma DeliveredIsAccepted(objects: set<string>, steps: seq<Step>)
    requires var w := Run(Start(objects), steps); w.connection.Some? && w.connection.value.wire == ""
    ensures var w := Run(Start(objects), steps); w.client.cursor == w.connection.value.cursor
  {
    RunSound(objects, steps);
    var w := Run(Start(objects), steps);
    var c := w.connection.value;
    hide Ordinary, EventsOf, Faithful, PageTrue, Sendable, Run, Room, StateOf;
    assert c.delivered == PrintAll(c.frames) by { assert c.delivered + c.wire == c.delivered; }
    AllSendable(c.frames, c.began.cursor, w.task);
    PrintParses(c.frames);
    Follow(c.began, c.frames, w.task);
  }

  // ---------- Reconnecting makes progress ----------

  /** No entry's frame is longer than the parser accepts. */
  predicate Fitting(t: Task) {
    forall k :: 0 <= k < |t.history| ==> Characters(Block(EntryFrame(Row(k + 1, t.history[k])))) <= LIMIT
  }

  /** One round of the panel: drop the connection, reconnect from the cursor, and read the first iteration. */
  function Round(w: World): World {
    var served := Next(Next(Next(w, Drop), Connect(true)), Serve(true));
    if served.connection.None? then served else Next(served, Deliver(|served.connection.value.wire|))
  }

  lemma ControlFits(f: Frame)
    requires !f.EntryFrame?
    ensures Characters(Block(f)) <= LIMIT
  {
    match f
    case Heartbeat => CharactersOf([": heartbeat"]);
    case Closed => CharactersOf(Block(f));
    case Failed(trouble) => CharactersOf(Block(f));
  }

  lemma CharactersOf(block: seq<string>)
    requires 0 < |block| <= 2
    ensures Characters(block) == |block[0]| + if |block| == 2 then |block[1]| else 0
  {
    assert block[..1][..0] == [];
    if |block| == 2 { assert Characters(block[..1]) == Characters(block[..1][..0]) + |block[..1][0]|; }
  }

  lemma {:induction false} BlocksOf(frames: seq<Frame>, limit: nat)
    requires forall f :: f in frames ==> Characters(Block(f)) <= limit
    ensures BlocksFit(Blocks(frames), limit)
  {
    hide Block, Characters;
    if frames != [] { BlocksOf(frames[1..], limit); }
  }

  lemma FramesFit(page: Page, cursor: nat, t: Task)
    requires TaskSound(t) && Fitting(t) && PageTrue(page, cursor, t)
    ensures forall f :: f in Frames(Served(page)) ==> Sendable(f)
    ensures Room(PrintAll(Frames(Served(page))), LIMIT)
  {
    var frames := Frames(Served(page));
    forall f | f in frames ensures Sendable(f) && Characters(Block(f)) <= LIMIT {
      if f.EntryFrame? {
        var k :| 0 <= k < |page.rows| && f == EntryFrame(page.rows[k]);
        assert page.rows[k] == Row(cursor + k + 1, t.history[cursor + k]);
      } else {
        ControlFits(f);
      }
    }
    BlocksOf(frames, LIMIT);
    PrintParses(frames);
    hide Blocks, Block, Lines;
    assert Pending(PrintAll(frames)) == |StateOf(PrintAll(frames)).buffer| + StateOf(PrintAll(frames)).size;
  }

  /** A client that read a whole page of frames. */
  lemma ReadsPage(client: Client, page: Page, t: Task)
    requires ClientSound(client, t) && client.progress.Following? && PageTrue(page, client.cursor, t) && |t.history| <= MAX_SAFE
    ensures var c' := ReceiveAll(client, FrameEvents(Frames(Served(page))), t.objects);
      && c'.cursor == client.cursor + |page.rows|
      && c'.progress == if page.terminal then Stopped(StreamClosed) else Following
  {
    hide Ordinary, FrameEvents, ReceiveAll, Numbered, AcceptEvent, Receive, Faithful, Truthful, EndOf;
    var rows := page.rows;
    var entries, last := EntryFrames(rows), if page.terminal then Closed else Heartbeat;
    NumberedNone(client.cursor, t);
    NumberedRows([], rows, |rows|, client.cursor, t);
    assert [] + entries[..|rows|] == entries;
    Follow(client, entries, t);
    EventsSplit(entries + [last]);
    assert (entries + [last])[..|entries|] == entries;
    ReceiveMore(client, FrameEvents(entries), last, t.objects);
    if page.terminal { ReceiveClosed(ReceiveAll(client, FrameEvents(entries), t.objects), t.objects); }
  }

  lemma NumberedNone(start: nat, t: Task)
    ensures Numbered([], start, t) && EndOf([], start) == start && AllFlow([])
  {
  }

  lemma ReceiveClosed(c: Client, objects: set<string>)
    ensures Receive(c, FrameEvent(Closed)[0], objects) == c.(progress := Stopped(StreamClosed))
  {
    assert "stream.closed"[0] != "history_unavailable"[0] && "stream.closed"[0] != "access_revoked"[0];
  }

  /** What a round computes when its page is served and its text fits. */
  lemma RoundState(w: World, page: Page)
    requires w.client.progress.Following? && page == EventPage(LogOf(w.task), w.client.cursor) && page.Page?
    requires Room(PrintAll(Frames(Served(page))), LIMIT)
    requires ReceiveAll(w.client, EventsOf(PrintAll(Frames(Served(page)))), w.task.objects).progress != Stopped(BadEvent)
    ensures Round(w).client == ReceiveAll(w.client, EventsOf(PrintAll(Frames(Served(page)))), w.task.objects)
  {
    var text := PrintAll(Frames(Served(page)));
    WholePush(text, LIMIT);
    hide EventPage, PrintAll, Room, StateOf, EventsOf, PushTx, ReceiveAll, Frames;
    assert "" + text == text && text[..|text|] == text;
  }

  /** While nothing is missing, every round takes the panel a whole page further, or to the end of the history. */
  lemma RoundProgress(w: World)
    requires Sound(w) && w.client.progress.Following? && w.task.lost == {} && |w.task.history| <= MAX_SAFE && Fitting(w.task)
    ensures var cursor := w.client.cursor;
      var gain := if |w.task.history| - cursor < 200 then |w.task.history| - cursor else 200;
      && Sound(Round(w))
      && Round(w).client.cursor == cursor + gain
      && (if w.task.terminatedAt.Some? && cursor + gain == |w.task.history|
          then Round(w).client.progress == Stopped(StreamClosed) else Round(w).client.progress.Following?)
  {
    RoundSound(w);
    var t, client := w.task, w.client;
    var page := EventPage(LogOf(t), client.cursor);
    assert TaskSound(t) && ClientSound(client, t) && client.cursor <= |t.history|;
    PageComplete(LogOf(t), client.cursor);
    PageContinues(LogOf(t), client.cursor);
    PageIsTrue(t, client.cursor);
    FramesFit(page, client.cursor, t);
    hide Sound, Round, EventPage, PageTrue, TaskSound, ClientSound, Fitting, Frames, Room, EventsOf, ReceiveAll;
    PrintParses(Frames(Served(page)));
    ReadsPage(client, page, t);
    RoundState(w, page);
  }

  lemma RoundSound(w: World)
    requires Sound(w)
    ensures Sound(Round(w))
  {
    hide Sound, Next;
    StepSound(w, Drop);
    StepSound(Next(w, Drop), Connect(true));
    var served := Next(Next(Next(w, Drop), Connect(true)), Serve(true));
    StepSound(Next(Next(w, Drop), Connect(true)), Serve(true));
    if served.connection.Some? { StepSound(served, Deliver(|served.connection.value.wire|)); }
  }
}
