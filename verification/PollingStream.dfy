/**
The replay-then-poll streams of the team and global endpoints: after the replay loop a task
polls the table beyond its cursor and sends each row into a bounded channel, which the client
reads once the replayed rows are out. Appends by other tasks interleave with every step.
*/
module PollingStream {
  import opened Wrappers
  import opened EventLog

  const CHANNEL_CAPACITY: nat := 128

  datatype Request = Request(scope: Option<Key>, cursor: Option<int>, limit: nat)

  /** `page` is what the polling task has read and not sent yet. */
  datatype Phase =
    | Replaying(replayCursor: Option<int>, buffer: seq<Row>)
    | Polling(buffer: seq<Row>, replayed: nat, cursor: int, page: seq<Row>, channel: seq<Row>, received: seq<Row>)

  datatype System = System(rows: seq<Row>, phase: Phase)

  datatype Step =
    | AppendEvent(event: NewEvent)
    | ReadPage
    | EmitReplayed
    | Poll
    | Send
    | Receive

  function Out(phase: Phase): seq<Row> {
    if phase.Polling? && phase.replayed <= |phase.buffer| then phase.buffer[..phase.replayed] + phase.received else []
  }

  function Max(a: int, b: int): int {
    if a < b then b else a
  }

  function ReadOnePage(sys: System, req: Request): System
    requires sys.phase.Replaying?
  {
    var Replaying(replayCursor, buffer) := sys.phase;
    var page := Query(sys.rows, req.scope, replayCursor, req.limit);
    if page == [] then
      sys.(phase := Polling(buffer, 0, replayCursor.Or(req.cursor).GetOr(0), [], [], []))
    else
      var last := Position(page[|page| - 1], req.scope);
      if |page| < req.limit then sys.(phase := Polling(buffer + page, 0, last, [], [], []))
      else sys.(phase := Replaying(Some(last), buffer + page))
  }

  /** One critical section; a step that cannot be taken leaves the system as it is. */
  function Take1(sys: System, step: Step, req: Request): System {
    match step
    case AppendEvent(event) => sys.(rows := Append(sys.rows, event))
    case ReadPage => if sys.phase.Replaying? then ReadOnePage(sys, req) else sys
    case EmitReplayed =>
      if sys.phase.Polling? && sys.phase.replayed < |sys.phase.buffer| then
        sys.(phase := sys.phase.(replayed := sys.phase.replayed + 1))
      else sys
    case Poll =>
      if sys.phase.Polling? && sys.phase.page == [] then
        sys.(phase := sys.phase.(page := Query(sys.rows, req.scope, Some(sys.phase.cursor), req.limit)))
      else sys
    case Send =>
      if sys.phase.Polling? && sys.phase.page != [] && |sys.phase.channel| < CHANNEL_CAPACITY then
        var row := sys.phase.page[0];
        sys.(phase := sys.phase.(cursor := Max(sys.phase.cursor, Position(row, req.scope)),
                                 page := sys.phase.page[1..], channel := sys.phase.channel + [row]))
      else sys
    case Receive =>
      if sys.phase.Polling? && sys.phase.replayed == |sys.phase.buffer| && sys.phase.channel != [] then
        sys.(phase := sys.phase.(channel := sys.phase.channel[1..],
                                 received := sys.phase.received + [sys.phase.channel[0]]))
      else sys
  }

  function Run(sys: System, steps: seq<Step>, req: Request): System {
    if steps == [] then sys
    else Take1(Run(sys, steps[..|steps| - 1], req), steps[|steps| - 1], req)
  }

  ghost predicate Start(sys: System, req: Request) {
    WellFormed(sys.rows) && sys.phase == Replaying(req.cursor, []) && 1 <= req.limit <= 10_000
  }

  function Wanted(rows: seq<Row>, req: Request): seq<Row> {
    Filter(rows, req.scope, req.cursor)
  }

  /** Rows already handed to the channel, in order. */
  function Handed(phase: Phase): seq<Row>
    requires phase.Polling?
  {
    phase.buffer + phase.received + phase.channel
  }

  /** Where the cursor stands after the rows of `taken`. */
  function CursorAfter(taken: seq<Row>, req: Request): int {
    if taken == [] then req.cursor.GetOr(0) else Position(taken[|taken| - 1], req.scope)
  }

  ghost predicate Inv(sys: System, req: Request) {
    WellFormed(sys.rows) &&
    match sys.phase
    case Replaying(cursor, buffer) =>
      && buffer <= Wanted(sys.rows, req)
      && cursor == if buffer == [] then req.cursor else Some(CursorAfter(buffer, req))
    case Polling(buffer, replayed, cursor, page, channel, received) =>
      && replayed <= |buffer| && (received != [] ==> replayed == |buffer|)
      && Handed(sys.phase) + page <= Wanted(sys.rows, req)
      && cursor == CursorAfter(Handed(sys.phase), req)
  }

  /** What a poll reads: the next rows after those already taken. */
  lemma PollReads(rows: seq<Row>, req: Request, taken: seq<Row>)
    requires WellFormed(rows) && taken <= Wanted(rows, req)
    ensures Filter(rows, req.scope, Some(CursorAfter(taken, req))) == Wanted(rows, req)[|taken|..]
  {
    WellFormedIsOrdered(rows, req.scope);
    if taken == [] {
      AbsentCursorIsZero(rows, req.scope);
    } else {
      Restart(rows, req.scope, req.cursor, |taken|);
    }
  }

  lemma AppendStep(sys: System, event: NewEvent, req: Request)
    requires Inv(sys, req)
    ensures Inv(Take1(sys, AppendEvent(event), req), req)
    ensures Wanted(sys.rows, req) <= Wanted(Append(sys.rows, event), req)
  {
    AppendKeeps(sys.rows, event);
    FilterSnoc(sys.rows, Inserted(sys.rows, event), req.scope, req.cursor);
  }

  lemma ReadPageStep(sys: System, req: Request)
    requires Inv(sys, req) && sys.phase.Replaying?
    ensures Inv(ReadOnePage(sys, req), req)
  {
    var Replaying(cursor, buffer) := sys.phase;
    if buffer != [] {
      PollReads(sys.rows, req, buffer);
    }
    hide WellFormed, Filter;
    var page := Query(sys.rows, req.scope, cursor, req.limit);
    Onward(Wanted(sys.rows, req), buffer, page);
    assert buffer + [] + [] == buffer && buffer + page + [] + [] == buffer + page;
  }

  lemma SendStep(sys: System, req: Request)
    requires Inv(sys, req) && sys.phase.Polling? && sys.phase.page != [] && |sys.phase.channel| < CHANNEL_CAPACITY
    ensures Inv(Take1(sys, Send, req), req)
  {
    var next := Take1(sys, Send, req).phase;
    var handed := Handed(sys.phase);
    var row := sys.phase.page[0];
    assert Handed(next) == handed + [row];
    assert Handed(next) + next.page == handed + sys.phase.page by {
      assert sys.phase.page == [row] + next.page;
    }
    hide Filter, WellFormed;
    WellFormedIsOrdered(sys.rows, req.scope);
    FilterAscends(sys.rows, req.scope, req.cursor);
    assert Wanted(sys.rows, req)[|handed|] == row;
    FilterMembers(sys.rows, req.scope, req.cursor, row);
    if handed != [] {
      assert Wanted(sys.rows, req)[|handed| - 1] == handed[|handed| - 1];
    } else {
      PositiveInScope(sys.rows, row, req.scope);
    }
  }

  lemma PositiveInScope(rows: seq<Row>, row: Row, scope: Option<Key>)
    requires Ordered(rows, scope) && row in rows
    ensures Position(row, scope) >= 1
  {
  }

  lemma StepKeeps(sys: System, step: Step, req: Request)
    requires Inv(sys, req)
    ensures Inv(Take1(sys, step, req), req)
  {
    match step
    case AppendEvent(event) => AppendStep(sys, event, req);
    case ReadPage =>
      if sys.phase.Replaying? {
        ReadPageStep(sys, req);
      }
    case EmitReplayed =>
    case Poll =>
      if sys.phase.Polling? && sys.phase.page == [] {
        PollReads(sys.rows, req, Handed(sys.phase));
      }
    case Send =>
      if sys.phase.Polling? && sys.phase.page != [] && |sys.phase.channel| < CHANNEL_CAPACITY {
        SendStep(sys, req);
      }
    case Receive =>
      if sys.phase.Polling? && sys.phase.replayed == |sys.phase.buffer| && sys.phase.channel != [] {
        assert Handed(Take1(sys, Receive, req).phase) == Handed(sys.phase);
      }
  }

  lemma {:induction false} RunKeeps(sys: System, steps: seq<Step>, req: Request)
    requires Start(sys, req)
    ensures Inv(Run(sys, steps, req), req)
  {
    if steps != [] {
      RunKeeps(sys, steps[..|steps| - 1], req);
      StepKeeps(Run(sys, steps[..|steps| - 1], req), steps[|steps| - 1], req);
    }
  }

  /**
  In every interleaving with appends, what a polling stream has emitted is an initial run, in
  order and without repeats, of the rows of its scope beyond the client's cursor.
  */
  lemma PollingIsGapFree(start: System, steps: seq<Step>, req: Request)
    requires Start(start, req)
    ensures
      var sys := Run(start, steps, req);
      && Out(sys.phase) <= Filter(sys.rows, req.scope, req.cursor)
      && Ascending(Out(sys.phase), req.scope)
  {
    var sys := Run(start, steps, req);
    RunKeeps(start, steps, req);
    WellFormedIsOrdered(sys.rows, req.scope);
    FilterAscends(sys.rows, req.scope, req.cursor);
    if sys.phase.Polling? {
      var Polling(buffer, replayed, _, page, channel, received) := sys.phase;
      assert buffer + received <= Handed(sys.phase) + page;
      if replayed < |buffer| {
        assert Out(sys.phase) == buffer[..replayed];
      } else {
        assert buffer[..replayed] == buffer;
      }
    }
  }

  /** A poll that finds fewer rows than the page size leaves nothing of the table behind. */
  lemma ShortPollCatchesUp(start: System, steps: seq<Step>, req: Request)
    requires Start(start, req)
    requires
      var sys := Run(start, steps, req);
      sys.phase.Polling? && sys.phase.page == []
    ensures
      var sys := Run(start, steps, req);
      var polled := Take1(sys, Poll, req).phase;
      var all := Filter(sys.rows, req.scope, req.cursor);
      && Handed(polled) + polled.page <= all
      && (|polled.page| < req.limit ==> Handed(polled) + polled.page == all)
      && (|polled.page| == req.limit ==> |Handed(polled) + polled.page| == |Handed(sys.phase)| + req.limit)
  {
    RunKeeps(start, steps, req);
    PollTakes(Run(start, steps, req), req);
    hide Run, Start, Inv;
  }

  lemma PollTakes(sys: System, req: Request)
    requires Inv(sys, req) && sys.phase.Polling? && sys.phase.page == [] && req.limit >= 1
    ensures
      var polled := Take1(sys, Poll, req).phase;
      var all := Filter(sys.rows, req.scope, req.cursor);
      && Handed(polled) + polled.page <= all
      && (|polled.page| < req.limit ==> Handed(polled) + polled.page == all)
      && (|polled.page| == req.limit ==> |Handed(polled) + polled.page| == |Handed(sys.phase)| + req.limit)
  {
    var handed, all := Handed(sys.phase), Wanted(sys.rows, req);
    assert handed <= all;
    PollReads(sys.rows, req, handed);
    hide Filter, WellFormed, CursorAfter;
    assert all == handed + all[|handed|..];
  }
}
