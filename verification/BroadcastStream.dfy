/**
The replay-then-broadcast streams of the session and process endpoints: a handler subscribes to
a broadcast channel, pages through the table, then forwards live events above a watermark.
Appends, their later broadcasts, the subscription and the page reads interleave freely.
*/
module BroadcastStream {
  import opened Wrappers
  import opened EventLog

  /** What is streamed: a session's events or a process's events, each with its own channel. */
  datatype Source = SessionEvents(id: string) | ProcessEvents(id: string) {
    function Key(): Key {
      match this
      case SessionEvents(id) => EventLog.Key(Session, id)
      case ProcessEvents(id) => EventLog.Key(Process, id)
    }

    /** The filter of the live half. */
    predicate Forwards(row: Row) {
      match this
      case SessionEvents(id) => row.event.sessionId == Some(id)
      case ProcessEvents(id) => row.event.key == EventLog.Key(Process, id)
    }

    /**
    What the owner of the channel publishes: the session manager names the session in
    both columns, or in neither; the process manager writes process events only.
    */
    predicate Publishes(event: NewEvent) {
      match this
      case SessionEvents(_) =>
        if event.key.scope == Session then event.sessionId == Some(event.key.id) else event.sessionId.None?
      case ProcessEvents(_) => event.key.scope == Process
    }
  }

  datatype Request = Request(source: Source, cursor: Option<int>, limit: nat)

  datatype Phase =
    | Idle
    | Replaying(subscribed: nat, replayCursor: Option<int>, buffer: seq<Row>)
    | Streaming(subscribed: nat, watermark: int, buffer: seq<Row>, replayed: nat, received: nat)

  /**
  `unsent` holds rows stored by the channel's owner and not broadcast yet; `sent` is the
  channel's history, of which a receiver sees everything from its subscription on.
  */
  datatype System = System(rows: seq<Row>, unsent: set<Row>, sent: seq<Row>, phase: Phase, out: seq<Row>)

  datatype Step =
    | Store(event: NewEvent)
    | Publish(event: NewEvent)
    | Send(row: Row)
    | Subscribe
    | ReadPage
    | EmitReplayed
    | Receive

  function StoreRow(sys: System, event: NewEvent): System {
    sys.(rows := Append(sys.rows, event))
  }

  function PublishRow(sys: System, event: NewEvent, source: Source): System {
    if FindById(sys.rows, event.eventId).Some? || !source.Publishes(event) then sys
    else
      sys.(rows := Append(sys.rows, event), unsent := sys.unsent + {Inserted(sys.rows, event)})
  }

  function ReadOnePage(sys: System, req: Request): System
    requires sys.phase.Replaying?
  {
    var Replaying(subscribed, replayCursor, buffer) := sys.phase;
    var page := Query(sys.rows, Some(req.source.Key()), replayCursor, req.limit);
    if page == [] then
      sys.(phase := Streaming(subscribed, replayCursor.Or(req.cursor).GetOr(0), buffer, 0, subscribed))
    else
      var last := page[|page| - 1].seqNo;
      if |page| < req.limit then
        sys.(phase := Streaming(subscribed, last, buffer + page, 0, subscribed))
      else
        sys.(phase := Replaying(subscribed, Some(last), buffer + page))
  }

  function ReceiveOne(sys: System, req: Request): System
    requires sys.phase.Streaming? && sys.phase.received < |sys.sent|
  {
    var row := sys.sent[sys.phase.received];
    sys.(phase := sys.phase.(received := sys.phase.received + 1),
         out := sys.out + if Passes(row, req.source, sys.phase.watermark) then [row] else [])
  }

  /** One critical section; a step that cannot be taken leaves the system as it is. */
  function Take1(sys: System, step: Step, req: Request): System {
    match step
    case Store(event) => StoreRow(sys, event)
    case Publish(event) => PublishRow(sys, event, req.source)
    case Send(row) =>
      if row in sys.unsent then sys.(unsent := sys.unsent - {row}, sent := sys.sent + [row]) else sys
    case Subscribe =>
      if sys.phase.Idle? then sys.(phase := Replaying(|sys.sent|, req.cursor, [])) else sys
    case ReadPage =>
      if sys.phase.Replaying? then ReadOnePage(sys, req) else sys
    case EmitReplayed =>
      if sys.phase.Streaming? && sys.phase.replayed < |sys.phase.buffer| then
        sys.(phase := sys.phase.(replayed := sys.phase.replayed + 1),
             out := sys.out + [sys.phase.buffer[sys.phase.replayed]])
      else sys
    case Receive =>
      if sys.phase.Streaming? && sys.phase.replayed == |sys.phase.buffer| && sys.phase.received < |sys.sent|
      then ReceiveOne(sys, req)
      else sys
  }

  function Run(sys: System, steps: seq<Step>, req: Request): System {
    if steps == [] then sys
    else Take1(Run(sys, steps[..|steps| - 1], req), steps[|steps| - 1], req)
  }

  predicate Passes(row: Row, source: Source, watermark: int) {
    source.Forwards(row) && row.seqNo > watermark
  }

  function Live(rows: seq<Row>, source: Source, watermark: int): seq<Row> {
    if rows == [] then []
    else
      var last := rows[|rows| - 1];
      Live(rows[..|rows| - 1], source, watermark) + if Passes(last, source, watermark) then [last] else []
  }

  lemma {:induction false} LiveMembers(rows: seq<Row>, source: Source, watermark: int, row: Row)
    ensures row in Live(rows, source, watermark) <==> row in rows && Passes(row, source, watermark)
  {
    if rows != [] {
      LiveMembers(rows[..|rows| - 1], source, watermark, row);
      assert rows == rows[..|rows| - 1] + [rows[|rows| - 1]];
    }
  }

  ghost predicate Distinct(rows: seq<Row>) {
    forall i, j :: 0 <= i < j < |rows| ==> rows[i] != rows[j]
  }

  lemma {:induction false} LiveDistinct(rows: seq<Row>, source: Source, watermark: int)
    requires Distinct(rows)
    ensures Distinct(Live(rows, source, watermark))
  {
    if rows != [] {
      var short := rows[..|rows| - 1];
      LiveDistinct(short, source, watermark);
      LiveMembers(short, source, watermark, rows[|rows| - 1]);
    }
  }

  // ---- The invariant ----

  ghost predicate ChannelOk(sys: System, source: Source) {
    && WellFormed(sys.rows)
    && Distinct(sys.sent)
    && (forall row :: row in sys.sent ==> row in sys.rows && row !in sys.unsent && source.Publishes(row.event))
    && (forall row :: row in sys.unsent ==> row in sys.rows && source.Publishes(row.event))
  }

  /** Replayed so far: an initial run of the rows beyond the client's cursor, and where it ends. */
  ghost predicate ReplayOk(rows: seq<Row>, req: Request, buffer: seq<Row>, cursor: Option<int>) {
    && buffer <= Filter(rows, Some(req.source.Key()), req.cursor)
    && cursor == if buffer == [] then req.cursor else Some(buffer[|buffer| - 1].seqNo)
  }

  function WatermarkOf(req: Request, buffer: seq<Row>): int {
    if buffer == [] then req.cursor.GetOr(0) else buffer[|buffer| - 1].seqNo
  }

  /** The buffer is the initial run of wanted rows up to the watermark; wanted rows past it are above. */
  ghost predicate Splits(rows: seq<Row>, req: Request, buffer: seq<Row>, watermark: int) {
    var all := Filter(rows, Some(req.source.Key()), req.cursor);
    && buffer <= all
    && watermark == WatermarkOf(req, buffer)
    && forall i :: |buffer| <= i < |all| ==> all[i].seqNo > watermark
  }

  ghost predicate StreamOk(sys: System, req: Request) {
    match sys.phase
    case Idle => sys.out == []
    case Replaying(subscribed, cursor, buffer) =>
      sys.out == [] && subscribed <= |sys.sent| && ReplayOk(sys.rows, req, buffer, cursor)
    case Streaming(subscribed, watermark, buffer, replayed, received) =>
      && subscribed <= received <= |sys.sent| && replayed <= |buffer|
      && (received > subscribed ==> replayed == |buffer|)
      && Splits(sys.rows, req, buffer, watermark)
      && (forall i :: 0 <= i < subscribed && sys.sent[i].event.key == req.source.Key() ==>
            sys.sent[i].seqNo <= watermark)
      && sys.out == buffer[..replayed] + Live(sys.sent[subscribed..received], req.source, watermark)
  }

  ghost predicate Inv(sys: System, req: Request) {
    ChannelOk(sys, req.source) && StreamOk(sys, req)
  }

  ghost predicate Start(sys: System, req: Request) {
    ChannelOk(sys, req.source) && sys.phase.Idle? && sys.out == [] && 1 <= req.limit <= 10_000
  }

  // ---- Each step keeps it ----

  lemma StoreKeeps(sys: System, event: NewEvent, req: Request)
    requires Inv(sys, req)
    ensures Inv(StoreRow(sys, event), req)
  {
    var next := StoreRow(sys, event);
    AppendKeeps(sys.rows, event);
    if next.rows != sys.rows {
      GrowthKeeps(sys.rows, event, req, sys.phase);
    }
  }

  ghost predicate PhaseFits(rows: seq<Row>, req: Request, phase: Phase) {
    match phase
    case Idle => true
    case Replaying(_, cursor, buffer) => ReplayOk(rows, req, buffer, cursor)
    case Streaming(_, watermark, buffer, _, _) => Splits(rows, req, buffer, watermark)
  }

  lemma NewestIsAbove(rows: seq<Row>, row: Row, req: Request, earlier: Row)
    requires WellFormed(rows + [row]) && row.event.key == req.source.Key()
    requires earlier in Filter(rows, Some(req.source.Key()), req.cursor)
    ensures row.seqNo > earlier.seqNo
  {
    var scope := Some(req.source.Key());
    FilterMembers(rows, scope, req.cursor, earlier);
    WellFormedIsOrdered(rows + [row], scope);
    var i :| 0 <= i < |rows| && rows[i] == earlier;
    assert (rows + [row])[i] == earlier && (rows + [row])[|rows|] == row;
  }

  lemma GrowthKeeps(rows: seq<Row>, event: NewEvent, req: Request, phase: Phase)
    requires WellFormed(rows) && FindById(rows, event.eventId).None? && PhaseFits(rows, req, phase)
    ensures PhaseFits(Append(rows, event), req, phase)
  {
    var scope := Some(req.source.Key());
    var row := Inserted(rows, event);
    AppendKeeps(rows, event);
    FilterSnoc(rows, row, scope, req.cursor);
    if phase.Streaming? && phase.buffer != [] && InScope(row, scope) {
      NewestIsAbove(rows, row, req, phase.buffer[|phase.buffer| - 1]);
    }
  }

  lemma PublishKeeps(sys: System, event: NewEvent, req: Request)
    requires Inv(sys, req)
    ensures Inv(PublishRow(sys, event, req.source), req)
  {
    if FindById(sys.rows, event.eventId).None? {
      StoreKeeps(sys, event, req);
      var row := Inserted(sys.rows, event);
      assert row !in sys.rows;
    }
  }

  lemma SendKeeps(sys: System, row: Row, req: Request)
    requires Inv(sys, req) && row in sys.unsent
    ensures Inv(Take1(sys, Send(row), req), req)
  {
    var next := Take1(sys, Send(row), req);
    if sys.phase.Streaming? {
      assert next.sent[sys.phase.subscribed..sys.phase.received] == sys.sent[sys.phase.subscribed..sys.phase.received];
    }
  }

  lemma SplitAtEnd(sys: System, req: Request, buffer: seq<Row>)
    requires ChannelOk(sys, req.source)
    requires buffer == Filter(sys.rows, Some(req.source.Key()), req.cursor)
    ensures
      var watermark := if buffer == [] then req.cursor.GetOr(0) else buffer[|buffer| - 1].seqNo;
      && Splits(sys.rows, req, buffer, watermark)
      && forall row :: row in sys.sent && row.event.key == req.source.Key() ==> row.seqNo <= watermark
  {
    var scope := Some(req.source.Key());
    WellFormedIsOrdered(sys.rows, scope);
    FilterAscends(sys.rows, scope, req.cursor);
    var watermark := if buffer == [] then req.cursor.GetOr(0) else buffer[|buffer| - 1].seqNo;
    if buffer != [] {
      FilterMembers(sys.rows, scope, req.cursor, buffer[|buffer| - 1]);
    }
    forall row | row in sys.sent && row.event.key == req.source.Key()
      ensures row.seqNo <= watermark
    {
      FilterMembers(sys.rows, scope, req.cursor, row);
      if row in buffer {
        var i :| 0 <= i < |buffer| && buffer[i] == row;
      }
    }
  }

  lemma ChannelStays(sys: System, next: System, source: Source)
    requires ChannelOk(sys, source) && next.rows == sys.rows && next.unsent == sys.unsent && next.sent == sys.sent
    ensures ChannelOk(next, source)
  {
  }

  /** A page holds what comes next. */
  lemma PageIsNext(rows: seq<Row>, req: Request, cursor: Option<int>, buffer: seq<Row>)
    requires WellFormed(rows) && ReplayOk(rows, req, buffer, cursor)
    ensures
      var all := Filter(rows, Some(req.source.Key()), req.cursor);
      && |buffer| <= |all| && all[..|buffer|] == buffer
      && Query(rows, Some(req.source.Key()), cursor, req.limit) == Take(all[|buffer|..], req.limit)
  {
    var scope := Some(req.source.Key());
    WellFormedIsOrdered(rows, scope);
    if buffer != [] {
      Restart(rows, scope, req.cursor, |buffer|);
    }
  }

  lemma ReadPageKeeps(sys: System, req: Request)
    requires Inv(sys, req) && sys.phase.Replaying? && req.limit >= 1
    ensures Inv(ReadOnePage(sys, req), req)
  {
    var Replaying(subscribed, cursor, buffer) := sys.phase;
    var all := Filter(sys.rows, Some(req.source.Key()), req.cursor);
    PageIsNext(sys.rows, req, cursor, buffer);
    ChannelStays(sys, ReadOnePage(sys, req), req.source);
    hide ChannelOk, Query, Filter;
    var page := Query(sys.rows, Some(req.source.Key()), cursor, req.limit);
    if page == [] {
      assert buffer == all;
      SplitAtEnd(sys, req, buffer);
    } else if |page| < req.limit {
      assert buffer + page == all;
      SplitAtEnd(sys, req, buffer + page);
    }
    assert sys.sent[subscribed..subscribed] == [];
  }

  lemma ReceiveKeeps(sys: System, req: Request)
    requires Inv(sys, req) && sys.phase.Streaming?
    requires sys.phase.replayed == |sys.phase.buffer| && sys.phase.received < |sys.sent|
    ensures Inv(ReceiveOne(sys, req), req)
  {
    var Streaming(subscribed, watermark, buffer, replayed, received) := sys.phase;
    var seen := sys.sent[subscribed..received + 1];
    ChannelStays(sys, ReceiveOne(sys, req), req.source);
    hide ChannelOk, Splits, Passes;
    assert seen[..|seen| - 1] == sys.sent[subscribed..received];
  }

  lemma StepKeeps(sys: System, step: Step, req: Request)
    requires Inv(sys, req) && req.limit >= 1
    ensures Inv(Take1(sys, step, req), req)
  {
    match step
    case Store(event) => StoreKeeps(sys, event, req);
    case Publish(event) => PublishKeeps(sys, event, req);
    case Send(row) =>
      if row in sys.unsent {
        SendKeeps(sys, row, req);
      }
    case Subscribe =>
    case ReadPage =>
      if sys.phase.Replaying? {
        ReadPageKeeps(sys, req);
      }
    case EmitReplayed =>
      if sys.phase.Streaming? && sys.phase.replayed < |sys.phase.buffer| {
        assert sys.sent[sys.phase.subscribed..sys.phase.received] == [];
      }
    case Receive =>
      if sys.phase.Streaming? && sys.phase.replayed == |sys.phase.buffer| && sys.phase.received < |sys.sent| {
        ReceiveKeeps(sys, req);
      }
  }

  lemma {:induction false} RunKeeps(sys: System, steps: seq<Step>, req: Request)
    requires Start(sys, req)
    ensures Inv(Run(sys, steps, req), req)
  {
    if steps != [] {
      RunKeeps(sys, steps[..|steps| - 1], req);
      StepKeeps(Run(sys, steps[..|steps| - 1], req), steps[|steps| - 1], req);
    }
  }

  // ---- The handoff theorem ----

  ghost predicate Wanted(row: Row, req: Request) {
    row.event.key == req.source.Key() && (req.cursor.Some? ==> row.seqNo > req.cursor.value)
  }

  lemma BufferFacts(rows: seq<Row>, req: Request, buffer: seq<Row>, watermark: int)
    requires WellFormed(rows) && Splits(rows, req, buffer, watermark)
    ensures Ascending(buffer, Some(req.source.Key())) && Distinct(buffer)
    ensures forall row :: row in buffer ==> row in rows && Wanted(row, req) && row.seqNo <= watermark
  {
    var scope := Some(req.source.Key());
    WellFormedIsOrdered(rows, scope);
    FilterAscends(rows, scope, req.cursor);
    hide WellFormed, Filter;
    forall row | row in buffer
      ensures row in rows && Wanted(row, req) && row.seqNo <= watermark
    {
      FilterMembers(rows, scope, req.cursor, row);
      var i :| 0 <= i < |buffer| && buffer[i] == row;
    }
  }

  lemma LiveFacts(sys: System, req: Request, seen: seq<Row>, watermark: int)
    requires ChannelOk(sys, req.source) && Distinct(seen) && (req.cursor.Some? ==> watermark >= req.cursor.value)
    requires forall row :: row in seen ==> row in sys.sent
    ensures Distinct(Live(seen, req.source, watermark))
    ensures forall row :: row in Live(seen, req.source, watermark) ==>
              row in sys.rows && Wanted(row, req) && row.seqNo > watermark
  {
    LiveDistinct(seen, req.source, watermark);
    forall row | row in Live(seen, req.source, watermark)
      ensures row in sys.rows && Wanted(row, req) && row.seqNo > watermark
    {
      LiveMembers(seen, req.source, watermark, row);
    }
  }

  lemma DistinctJoin(front: seq<Row>, back: seq<Row>, watermark: int)
    requires Distinct(front) && Distinct(back)
    requires forall row :: row in front ==> row.seqNo <= watermark
    requires forall row :: row in back ==> row.seqNo > watermark
    ensures Distinct(front + back)
  {
  }

  lemma WatermarkAboveCursor(rows: seq<Row>, req: Request, buffer: seq<Row>)
    requires buffer <= Filter(rows, Some(req.source.Key()), req.cursor)
    ensures req.cursor.Some? ==> WatermarkOf(req, buffer) >= req.cursor.value
  {
    if buffer != [] {
      FilterMembers(rows, Some(req.source.Key()), req.cursor, buffer[|buffer| - 1]);
    }
  }

  /** What a streaming handler has emitted: a replayed part up to the watermark, then a live part above it. */
  lemma OutFacts(sys: System, req: Request)
    requires Inv(sys, req) && sys.phase.Streaming?
    ensures
      var n := sys.phase.replayed;
      && n <= |sys.out| && Ascending(sys.out[..n], Some(req.source.Key()))
      && (forall i :: 0 <= i < n ==> sys.out[i].seqNo <= sys.phase.watermark)
      && (forall i :: n <= i < |sys.out| ==> sys.out[i].seqNo > sys.phase.watermark)
    ensures Distinct(sys.out)
    ensures forall row :: row in sys.out ==> row in sys.rows && Wanted(row, req)
  {
    var Streaming(subscribed, watermark, buffer, replayed, received) := sys.phase;
    var seen := sys.sent[subscribed..received];
    var live := Live(seen, req.source, watermark);
    BufferFacts(sys.rows, req, buffer, watermark);
    WatermarkAboveCursor(sys.rows, req, buffer);
    LiveFacts(sys, req, seen, watermark);
    hide WellFormed, ChannelOk, Splits, Live, Wanted;
    DistinctJoin(buffer[..replayed], live, watermark);
    assert sys.out[..replayed] == buffer[..replayed];
  }

  lemma WantedIsEmitted(sys: System, req: Request, row: Row)
    requires Inv(sys, req) && sys.phase.Streaming?
    requires sys.phase.replayed == |sys.phase.buffer| && sys.phase.received == |sys.sent|
    requires row in sys.sent && Wanted(row, req)
    ensures row.seqNo <= sys.phase.watermark ==> row in sys.phase.buffer
    ensures row.seqNo > sys.phase.watermark ==>
              row in Live(sys.sent[sys.phase.subscribed..], req.source, sys.phase.watermark)
  {
    var Streaming(subscribed, watermark, buffer, _, received) := sys.phase;
    FilterMembers(sys.rows, Some(req.source.Key()), req.cursor, row);
    hide WellFormed;
    if row.seqNo > watermark {
      var i :| 0 <= i < |sys.sent| && sys.sent[i] == row;
      assert sys.sent[subscribed..][i - subscribed] == row;
      LiveMembers(sys.sent[subscribed..], req.source, watermark, row);
    }
  }

  lemma {:induction false} DistinctCounts(rows: seq<Row>, row: Row)
    requires Distinct(rows)
    ensures multiset(rows)[row] == if row in rows then 1 else 0
  {
    if rows != [] {
      var short := rows[..|rows| - 1];
      assert rows == short + [rows[|rows| - 1]];
      DistinctCounts(short, row);
    }
  }

  ghost predicate Drained(sys: System) {
    sys.phase.Streaming? && sys.phase.replayed == |sys.phase.buffer| && sys.phase.received == |sys.sent|
  }

  /** Emitted so far: only wanted rows of the table, and none twice. */
  ghost predicate NoneTwice(sys: System, req: Request) {
    && (forall row :: multiset(sys.out)[row] <= 1)
    && (forall row :: row in sys.out ==> row in sys.rows && Wanted(row, req))
  }

  /** The replayed part ascends up to the watermark and everything after it is above. */
  ghost predicate TwoParts(sys: System, req: Request) {
    sys.phase.Streaming? ==>
      var n := sys.phase.replayed;
      && n <= |sys.out| && Ascending(sys.out[..n], Some(req.source.Key()))
      && (forall i :: 0 <= i < n ==> sys.out[i].seqNo <= sys.phase.watermark)
      && (forall i :: n <= i < |sys.out| ==> sys.out[i].seqNo > sys.phase.watermark)
  }

  ghost predicate AllOnce(sys: System, req: Request) {
    forall row :: row in sys.sent && Wanted(row, req) ==> multiset(sys.out)[row] == 1
  }

  lemma CountsAre01(rows: seq<Row>)
    requires Distinct(rows)
    ensures forall row :: multiset(rows)[row] == if row in rows then 1 else 0
  {
    forall row ensures multiset(rows)[row] == if row in rows then 1 else 0 {
      DistinctCounts(rows, row);
    }
  }

  lemma DrainedEmitsAll(sys: System, req: Request)
    requires Inv(sys, req) && Drained(sys)
    ensures AllOnce(sys, req)
  {
    OutFacts(sys, req);
    CountsAre01(sys.out);
    assert sys.sent[sys.phase.subscribed..sys.phase.received] == sys.sent[sys.phase.subscribed..];
    forall row | row in sys.sent && Wanted(row, req) ensures row in sys.out {
      WantedIsEmitted(sys, req, row);
    }
  }

  /**
  In every interleaving, a stream opened at a cursor never repeats an event, forwards nothing
  but its source's events beyond the cursor, replays in ascending seq order up to the watermark,
  and once it has drained its buffer and its receiver it has emitted each broadcast event beyond
  the cursor exactly once: up to the watermark by replay, the rest live.
  */
  lemma HandoffExactlyOnce(start: System, steps: seq<Step>, req: Request)
    requires Start(start, req)
    ensures NoneTwice(Run(start, steps, req), req)
    ensures TwoParts(Run(start, steps, req), req)
    ensures Drained(Run(start, steps, req)) ==> AllOnce(Run(start, steps, req), req)
  {
    var sys := Run(start, steps, req);
    RunKeeps(start, steps, req);
    if sys.phase.Streaming? {
      OutFacts(sys, req);
      CountsAre01(sys.out);
      if Drained(sys) {
        DrainedEmitsAll(sys, req);
      }
    }
  }

  // ---- The publishing side ----

  /** The session manager's store and channel. */
  class EventPublisher {
    const store: EventStore
    var sent: seq<Row>

    constructor ()
      ensures fresh(store) && store.rows == [] && sent == []
    {
      store := new EventStore();
      sent := [];
    }

    /** `append_event`: store the event, then broadcast the stored record. */
    method AppendEvent(event: NewEvent) returns (record: Row)
      requires WellFormed(store.rows)
      modifies this, store
      ensures WellFormed(store.rows) && store.rows == Append(old(store.rows), event)
      ensures FindById(store.rows, event.eventId) == Some(record)
      ensures sent == old(sent) + [record]
    {
      record := store.AppendRuntimeEvent(event);
      sent := sent + [record];
    }
  }
}
