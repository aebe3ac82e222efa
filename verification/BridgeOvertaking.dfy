/**
Exactly when the lanes can fail the bridge. An event is overtaken when a later one of the same raw
session id sits in another lane and is checked first; the reader gets that far only if the events in
between that share the overtaken one's lane fit into its queue.
*/
module BridgeOvertaking {
  import opened Wrappers
  import opened BridgeLanes

  /** The events a run of steps emits, numbered from 1. */
  function Emits(steps: seq<Step>): seq<Event> {
    if steps == [] then []
    else
      var earlier, last := Emits(steps[..|steps| - 1]), steps[|steps| - 1];
      if last.Emit? then earlier + [Event(|earlier| + 1, last.name, last.sessionId, last.turnId)] else earlier
  }

  /** The events of one lane. */
  function InLane(events: seq<Event>, lane: nat, count: nat, hash: string -> nat): seq<Event> {
    if events == [] then []
    else
      var last := events[|events| - 1];
      InLane(events[..|events| - 1], lane, count, hash) + if LaneOf(last, count, hash) == lane then [last] else []
  }

  /** Event `b` can be checked while event `a` of the same session id is held back in its lane. */
  ghost predicate CanOvertake(events: seq<Event>, a: nat, b: nat, count: nat, hash: string -> nat)
    requires a < b < |events|
  {
    && events[a].sessionId.Some? && events[a].sessionId == events[b].sessionId
    && LaneOf(events[a], count, hash) != LaneOf(events[b], count, hash)
    && |InLane(events[a + 1..b], LaneOf(events[a], count, hash), count, hash)| <= LANE_CAPACITY
  }

  ghost predicate Safe(events: seq<Event>, count: nat, hash: string -> nat) {
    && (forall k :: 0 <= k < |events| ==> events[k].sessionId.Some?)
    && (forall a, b :: 0 <= a < b < |events| ==> !CanOvertake(events, a, b, count, hash))
  }

  // ---- Lanes as parts of what was read ----

  lemma {:induction false} InLaneConcat(a: seq<Event>, b: seq<Event>, lane: nat, count: nat, hash: string -> nat)
    ensures InLane(a + b, lane, count, hash) == InLane(a, lane, count, hash) + InLane(b, lane, count, hash)
  {
    if b == [] {
      assert a + b == a;
    } else {
      var short := b[..|b| - 1];
      assert (a + b)[..|a + b| - 1] == a + short;
      InLaneConcat(a, short, lane, count, hash);
    }
  }

  lemma {:induction false} InLaneMembers(events: seq<Event>, lane: nat, count: nat, hash: string -> nat, event: Event)
    ensures event in InLane(events, lane, count, hash) <==> event in events && LaneOf(event, count, hash) == lane
  {
    if events != [] {
      InLaneMembers(events[..|events| - 1], lane, count, hash, event);
      assert events == events[..|events| - 1] + [events[|events| - 1]];
    }
  }

  lemma {:induction false} InLaneGrows(events: seq<Event>, lane: nat, count: nat, hash: string -> nat)
    requires Growing(events)
    ensures Growing(InLane(events, lane, count, hash))
  {
    if events != [] {
      var short := events[..|events| - 1];
      InLaneGrows(short, lane, count, hash);
      forall event | event in InLane(short, lane, count, hash) ensures event.seqNo < events[|events| - 1].seqNo {
        InLaneMembers(short, lane, count, hash, event);
        var i :| 0 <= i < |short| && short[i] == event;
        assert events[i] == event;
      }
    }
  }

  ghost predicate EndsWith(whole: seq<Event>, end: seq<Event>) {
    |end| <= |whole| && whole[|whole| - |end|..] == end
  }

  /** What a lane holds is the end of what was read for it, within its capacity. */
  ghost predicate LaneOk(b: Bridge, i: nat, hash: string -> nat)
    requires i < |b.lanes| && b.read <= |b.emitted|
  {
    && EndsWith(InLane(b.emitted[..b.read], i, |b.lanes|, hash), Pending(b.lanes[i]))
    && |b.lanes[i].queue| <= LANE_CAPACITY
  }

  /** The last number of a session is that of one of its events that was read and checked. */
  ghost predicate LastOk(b: Bridge, session: string, hash: string -> nat)
    requires b.lanes != [] && b.read <= |b.emitted| && session in b.lastSeq
  {
    var n := b.lastSeq[session];
    && 1 <= n <= b.read && b.emitted[n - 1].sessionId == Some(session)
    && b.emitted[n - 1] !in Unchecked(b.lanes[LaneOf(b.emitted[n - 1], |b.lanes|, hash)])
  }

  ghost predicate Tracked(b: Bridge, hash: string -> nat) {
    && b.lanes != [] && b.read <= |b.emitted| && Numbered(b.emitted) && !b.failed
    && (forall i :: 0 <= i < |b.lanes| ==> LaneOk(b, i, hash))
    && (forall session :: session in b.lastSeq ==> LastOk(b, session, hash))
  }

  lemma NumberedGrows(events: seq<Event>)
    requires Numbered(events)
    ensures Growing(events)
  {
  }

  lemma EndIsInside(whole: seq<Event>, end: seq<Event>, event: Event)
    requires EndsWith(whole, end) && event in end
    ensures event in whole
  {
    assert event in whole[|whole| - |end|..];
  }

  /** A pending event was read, at the place its number says, for this lane. */
  lemma PendingWasRead(b: Bridge, i: nat, hash: string -> nat, event: Event)
    requires b.read <= |b.emitted| && Numbered(b.emitted) && i < |b.lanes| && LaneOk(b, i, hash) && event in Pending(b.lanes[i])
    ensures 1 <= event.seqNo <= b.read && b.emitted[event.seqNo - 1] == event && LaneOf(event, |b.lanes|, hash) == i
  {
    LaneEnds(b, i, hash);
    EndIsInside(InLane(b.emitted[..b.read], i, |b.lanes|, hash), Pending(b.lanes[i]), event);
    hide InLane, LaneOk, EndsWith, Pending, LaneOf;
    InLaneMembers(b.emitted[..b.read], i, |b.lanes|, hash, event);
    var k :| 0 <= k < b.read && b.emitted[k] == event;
  }

  /** In a growing list an element has one place, so the list after it is known. */
  lemma AfterIt(whole: seq<Event>, front: seq<Event>, event: Event, back: seq<Event>, queue: seq<Event>)
    requires whole == front + [event] + back && Growing(whole) && EndsWith(whole, [event] + queue)
    ensures queue == back
  {
    var k := |whole| - 1 - |queue|;
    assert whole[k..] == [event] + queue;
    assert whole[k] == event && whole[|front|] == event;
    assert k == |front|;
    assert whole[k + 1..] == queue && whole[|front| + 1..] == back;
  }

  /** What was read for a lane, around one of its events. */
  lemma AroundIt(events: seq<Event>, n: nat, read: nat, i: nat, count: nat, hash: string -> nat)
    requires n < read <= |events| && LaneOf(events[n], count, hash) == i
    ensures InLane(events[..read], i, count, hash)
         == InLane(events[..n], i, count, hash) + [events[n]] + InLane(events[n + 1..read], i, count, hash)
  {
    var event := events[n];
    assert events[..read] == events[..n] + [event] + events[n + 1..read];
    InLaneConcat(events[..n] + [event], events[n + 1..read], i, count, hash);
    InLaneConcat(events[..n], [event], i, count, hash);
    assert InLane([event], i, count, hash) == [event] by {
      assert [event][..0] == [];
    }
  }

  lemma TakenPending(lane: Lane, event: Event)
    requires lane.worker == Taken(event)
    ensures Pending(lane) == [event] + lane.queue && event in Pending(lane)
  {
  }

  lemma LaneEnds(b: Bridge, i: nat, hash: string -> nat)
    requires i < |b.lanes| && b.read <= |b.emitted| && LaneOk(b, i, hash)
    ensures EndsWith(InLane(b.emitted[..b.read], i, |b.lanes|, hash), Pending(b.lanes[i]))
  {
  }

  lemma LaneAround(events: seq<Event>, n: nat, read: nat, i: nat, count: nat, hash: string -> nat)
    requires 1 <= n <= read <= |events| && Numbered(events) && LaneOf(events[n - 1], count, hash) == i
    ensures
      var whole := InLane(events[..read], i, count, hash);
      && Growing(whole)
      && whole == InLane(events[..n - 1], i, count, hash) + [events[n - 1]] + InLane(events[n..read], i, count, hash)
  {
    AroundIt(events, n - 1, read, i, count, hash);
    NumberedGrows(events[..read]);
    hide InLane, LaneOf, Growing;
    InLaneGrows(events[..read], i, count, hash);
  }

  /** Behind the event a worker has taken, the queue holds exactly what was read for the lane since. */
  lemma QueueIsRest(b: Bridge, i: nat, hash: string -> nat, event: Event)
    requires b.read <= |b.emitted| && Numbered(b.emitted) && i < |b.lanes| && LaneOk(b, i, hash)
    requires b.lanes[i].worker == Taken(event)
    ensures 1 <= event.seqNo <= b.read && b.emitted[event.seqNo - 1] == event && LaneOf(event, |b.lanes|, hash) == i
    ensures b.lanes[i].queue == InLane(b.emitted[event.seqNo..b.read], i, |b.lanes|, hash)
  {
    hide *;
    TakenPending(b.lanes[i], event);
    LaneEnds(b, i, hash);
    PendingWasRead(b, i, hash, event);
    LaneAround(b.emitted, event.seqNo, b.read, i, |b.lanes|, hash);
    var whole := InLane(b.emitted[..b.read], i, |b.lanes|, hash);
    var front, back := InLane(b.emitted[..event.seqNo - 1], i, |b.lanes|, hash), InLane(b.emitted[event.seqNo..b.read], i, |b.lanes|, hash);
    AfterIt(whole, front, event, back, b.lanes[i].queue);
  }

  // ---- Safe lists never fail ----

  /** An event that fails its check was overtaken. */
  lemma FailureIsOvertaking(b: Bridge, i: nat, hash: string -> nat)
    requires Tracked(b, hash) && i < |b.lanes| && b.lanes[i].worker.Taken? && CheckNext(b, i).failed
    ensures !Safe(b.emitted, |b.lanes|, hash)
  {
    hide LaneOf, InLane, Numbered, EndsWith;
    var event := b.lanes[i].worker.event;
    QueueIsRest(b, i, hash, event);
    var a := event.seqNo - 1;
    if event.sessionId.Some? {
      var session := event.sessionId.value;
      assert session in b.lastSeq && LastOk(b, session, hash);
      var later := b.emitted[b.lastSeq[session] - 1];
      assert event in Unchecked(b.lanes[i]);
      assert later != event;
      Overtaken(b, i, hash, event, b.lastSeq[session] - 1);
    }
  }

  lemma Overtaken(b: Bridge, i: nat, hash: string -> nat, event: Event, k: nat)
    requires b.read <= |b.emitted| && i < |b.lanes| && 1 <= event.seqNo <= k < b.read
    requires b.emitted[event.seqNo - 1] == event && LaneOf(event, |b.lanes|, hash) == i
    requires b.lanes[i].worker == Taken(event) && |b.lanes[i].queue| <= LANE_CAPACITY
    requires b.lanes[i].queue == InLane(b.emitted[event.seqNo..b.read], i, |b.lanes|, hash)
    requires event.sessionId.Some? && b.emitted[k].sessionId == event.sessionId
    requires b.emitted[k] !in Unchecked(b.lanes[LaneOf(b.emitted[k], |b.lanes|, hash)])
    ensures CanOvertake(b.emitted, event.seqNo - 1, k, |b.lanes|, hash)
  {
    hide LaneOf, InLane;
    var n := event.seqNo;
    assert b.emitted[n..b.read] == b.emitted[n..k] + b.emitted[k..b.read];
    InLaneConcat(b.emitted[n..k], b.emitted[k..b.read], i, |b.lanes|, hash);
    InLaneMembers(b.emitted[n..b.read], i, |b.lanes|, hash, b.emitted[k]);
    assert b.emitted[n..b.read][k - n] == b.emitted[k];
  }

  /** The other lanes and sessions are as they were. */
  lemma EmitTracked(b: Bridge, event: Event, hash: string -> nat)
    requires Tracked(b, hash) && event.seqNo == |b.emitted| + 1
    ensures Tracked(b.(emitted := b.emitted + [event]), hash)
  {
    hide LaneOf, InLane;
    var next := b.(emitted := b.emitted + [event]);
    assert next.emitted[..next.read] == b.emitted[..b.read];
    forall i | 0 <= i < |next.lanes| ensures LaneOk(next, i, hash) {
      assert LaneOk(b, i, hash);
    }
    forall session | session in next.lastSeq ensures LastOk(next, session, hash) {
      assert LastOk(b, session, hash);
    }
  }

  lemma EndGrows(whole: seq<Event>, end: seq<Event>, more: seq<Event>)
    requires EndsWith(whole, end)
    ensures EndsWith(whole + more, end + more)
  {
    var k := |whole| - |end|;
    assert (whole + more)[k..] == whole[k..] + more;
  }

  lemma DispatchTracked(b: Bridge, hash: string -> nat)
    requires Tracked(b, hash) && b.read < |b.emitted|
    ensures Tracked(DispatchNext(b, hash), hash)
  {
    hide LaneOf, InLane, LaneOk;
    var next := DispatchNext(b, hash);
    if next != b {
      var event := b.emitted[b.read];
      assert next.emitted[..next.read] == b.emitted[..b.read] + [event];
      forall i | 0 <= i < |next.lanes| ensures LaneOk(next, i, hash) {
        assert LaneOk(b, i, hash);
        DispatchLane(b, i, hash);
      }
      forall session | session in next.lastSeq ensures LastOk(next, session, hash) {
        assert LastOk(b, session, hash);
      }
    }
  }

  lemma ReadOneMore(events: seq<Event>, read: nat, i: nat, count: nat, hash: string -> nat)
    requires read < |events|
    ensures InLane(events[..read + 1], i, count, hash)
         == if LaneOf(events[read], count, hash) == i then InLane(events[..read], i, count, hash) + [events[read]]
            else InLane(events[..read], i, count, hash)
  {
    hide LaneOf;
    assert events[..read + 1][..read] == events[..read];
  }

  lemma PendingGrows(whole: seq<Event>, lane: Lane, event: Event)
    requires EndsWith(whole, Pending(lane))
    ensures EndsWith(whole + [event], Pending(lane.(queue := lane.queue + [event])))
  {
    EndGrows(whole, Pending(lane), [event]);
    hide EndsWith;
    assert InHand(lane.worker) + (lane.queue + [event]) == InHand(lane.worker) + lane.queue + [event];
  }

  lemma LaneAfterDispatch(b: Bridge, i: nat, hash: string -> nat)
    requires b.read < |b.emitted| && i < |b.lanes| && DispatchNext(b, hash).read != b.read
    ensures
      var next, event, lane := DispatchNext(b, hash), b.emitted[b.read], b.lanes[i];
      && next.emitted == b.emitted && next.read == b.read + 1 && |next.lanes| == |b.lanes|
      && if LaneOf(event, |b.lanes|, hash) == i
         then |lane.queue| < LANE_CAPACITY && next.lanes[i] == lane.(queue := lane.queue + [event])
         else next.lanes[i] == lane
  {
    hide LaneOf;
  }

  lemma DispatchLane(b: Bridge, i: nat, hash: string -> nat)
    requires b.read < |b.emitted| && i < |b.lanes| && LaneOk(b, i, hash) && DispatchNext(b, hash).read != b.read
    ensures LaneOk(DispatchNext(b, hash), i, hash)
  {
    var event := b.emitted[b.read];
    var whole := InLane(b.emitted[..b.read], i, |b.lanes|, hash);
    ReadOneMore(b.emitted, b.read, i, |b.lanes|, hash);
    LaneAfterDispatch(b, i, hash);
    hide InLane, EndsWith, DispatchNext, LaneOf, Pending;
    PendingGrows(whole, b.lanes[i], event);
  }

  /** Taking and applying leave what is unchecked alone. */
  lemma SameUnchecked(b: Bridge, next: Bridge, i: nat, hash: string -> nat)
    requires Tracked(b, hash) && i < |b.lanes| && |next.lanes| == |b.lanes|
    requires next == b.(lanes := b.lanes[i := next.lanes[i]], handled := next.handled)
    requires Unchecked(next.lanes[i]) == Unchecked(b.lanes[i])
    requires EndsWith(Pending(b.lanes[i]), Pending(next.lanes[i])) && |next.lanes[i].queue| <= |b.lanes[i].queue|
    ensures Tracked(next, hash)
  {
    hide LaneOf, InLane;
    forall k | 0 <= k < |next.lanes| ensures LaneOk(next, k, hash) {
      assert LaneOk(b, k, hash);
      if k == i {
        EndOfEnd(InLane(b.emitted[..b.read], i, |b.lanes|, hash), Pending(b.lanes[i]), Pending(next.lanes[i]));
      }
    }
    forall session | session in next.lastSeq ensures LastOk(next, session, hash) {
      assert LastOk(b, session, hash);
    }
  }

  lemma EndOfEnd(whole: seq<Event>, end: seq<Event>, last: seq<Event>)
    requires EndsWith(whole, end) && EndsWith(end, last)
    ensures EndsWith(whole, last)
  {
    assert whole[|whole| - |last|..] == end[|end| - |last|..];
  }

  lemma CheckTracked(b: Bridge, i: nat, hash: string -> nat)
    requires Tracked(b, hash) && i < |b.lanes| && b.lanes[i].worker.Taken? && !CheckNext(b, i).failed
    ensures Tracked(CheckNext(b, i), hash)
  {
    hide LaneOf, LaneOk, LastOk, Numbered;
    var next, event := CheckNext(b, i), b.lanes[i].worker.event;
    QueueIsRest(b, i, hash, event);
    CheckedIsGone(b, i, hash, event);
    forall k | 0 <= k < |next.lanes| ensures LaneOk(next, k, hash) {
      assert LaneOk(b, k, hash);
      CheckLane(b, i, k, hash);
    }
    forall session | session in next.lastSeq ensures LastOk(next, session, hash) {
      if session != event.sessionId.value {
        assert LastOk(b, session, hash);
      }
      CheckLast(b, i, session, hash);
    }
  }

  lemma CheckLane(b: Bridge, i: nat, k: nat, hash: string -> nat)
    requires b.read <= |b.emitted| && i < |b.lanes| && k < |b.lanes| && b.lanes[i].worker.Taken? && !CheckNext(b, i).failed
    requires LaneOk(b, k, hash)
    ensures LaneOk(CheckNext(b, i), k, hash)
  {
    assert Pending(CheckNext(b, i).lanes[i]) == Pending(b.lanes[i]);
    hide InLane, EndsWith, Pending;
  }

  lemma CheckLast(b: Bridge, i: nat, session: string, hash: string -> nat)
    requires b.read <= |b.emitted| && i < |b.lanes| && b.lanes[i].worker.Taken? && !CheckNext(b, i).failed
    requires session in CheckNext(b, i).lastSeq
    requires
      var event := b.lanes[i].worker.event;
      && 1 <= event.seqNo <= b.read && b.emitted[event.seqNo - 1] == event && LaneOf(event, |b.lanes|, hash) == i
      && event !in b.lanes[i].queue && (session != event.sessionId.value ==> session in b.lastSeq && LastOk(b, session, hash))
    ensures LastOk(CheckNext(b, i), session, hash)
  {
    hide LaneOf;
  }

  lemma CheckedIsGone(b: Bridge, i: nat, hash: string -> nat, event: Event)
    requires Tracked(b, hash) && i < |b.lanes| && b.lanes[i].worker == Taken(event)
    ensures event !in b.lanes[i].queue
  {
    QueueIsRest(b, i, hash, event);
    InLaneMembers(b.emitted[event.seqNo..b.read], i, |b.lanes|, hash, event);
  }

  lemma StepTracked(b: Bridge, step: Step, hash: string -> nat)
    requires Tracked(b, hash) && !Take1(b, step, hash).failed
    ensures Tracked(Take1(b, step, hash), hash)
  {
    hide LaneOf, InLane, LaneOk, LastOk, Numbered;
    match step
    case Emit(name, sessionId, turnId) => EmitTracked(b, Event(|b.emitted| + 1, name, sessionId, turnId), hash);
    case Dispatch =>
      if b.read < |b.emitted| {
        DispatchTracked(b, hash);
      }
    case Take(i) =>
      if i < |b.lanes| && b.lanes[i].worker.Idle? && b.lanes[i].queue != [] {
        SameUnchecked(b, TakeNext(b, i), i, hash);
      }
    case Check(i) =>
      if i < |b.lanes| && b.lanes[i].worker.Taken? {
        CheckTracked(b, i, hash);
      }
    case Apply(i) =>
      if i < |b.lanes| && b.lanes[i].worker.Checked? {
        SameUnchecked(b, ApplyNext(b, i), i, hash);
      }
  }

  lemma StepEmits(b: Bridge, step: Step, hash: string -> nat)
    requires b.lanes != [] && !b.failed
    ensures |Take1(b, step, hash).lanes| == |b.lanes|
    ensures Take1(b, step, hash).emitted
         == b.emitted + if step.Emit? then [Event(|b.emitted| + 1, step.name, step.sessionId, step.turnId)] else []
  {
  }

  lemma SafePrefix(events: seq<Event>, k: nat, count: nat, hash: string -> nat)
    requires Safe(events, count, hash) && k <= |events|
    ensures Safe(events[..k], count, hash)
  {
    forall a, b | 0 <= a < b < |events[..k]| ensures !CanOvertake(events[..k], a, b, count, hash) {
      assert events[..k][a + 1..b] == events[a + 1..b];
      assert !CanOvertake(events, a, b, count, hash);
    }
  }

  lemma {:induction false} SafeNeverFails(count: nat, steps: seq<Step>, hash: string -> nat)
    requires count >= 1 && Safe(Emits(steps), count, hash)
    ensures
      var b := Run(NewBridge(count), steps, hash);
      Tracked(b, hash) && b.emitted == Emits(steps) && |b.lanes| == count
  {
    hide LaneOf, Safe;
    if steps == [] {
      assert NewBridge(count).emitted[..0] == [];
    } else {
      var front, last := steps[..|steps| - 1], steps[|steps| - 1];
      SafePrefix(Emits(steps), |Emits(front)|, count, hash);
      assert Emits(steps)[..|Emits(front)|] == Emits(front);
      SafeNeverFails(count, front, hash);
      var before := Run(NewBridge(count), front, hash);
      StepEmits(before, last, hash);
      if last.Check? && last.lane < |before.lanes| && before.lanes[last.lane].worker.Taken? && CheckNext(before, last.lane).failed {
        FailureIsOvertaking(before, last.lane, hash);
      }
      StepTracked(before, last, hash);
    }
  }

  // ---- Unsafe lists can fail ----

  predicate Scheduling(steps: seq<Step>) {
    forall i :: 0 <= i < |steps| ==> !steps[i].Emit?
  }

  /** Some schedule from here fails the bridge. */
  ghost predicate CanFail(b: Bridge, hash: string -> nat) {
    exists steps :: Scheduling(steps) && Run(b, steps, hash).failed
  }

  lemma FailsLater(b: Bridge, steps: seq<Step>, hash: string -> nat)
    requires Scheduling(steps) && CanFail(Run(b, steps, hash), hash)
    ensures CanFail(b, hash)
  {
    var more :| Scheduling(more) && Run(Run(b, steps, hash), more, hash).failed;
    RunJoin(b, steps, more, hash);
    assert Scheduling(steps + more);
  }

  lemma FailedCanFail(b: Bridge, hash: string -> nat)
    requires b.failed
    ensures CanFail(b, hash)
  {
    assert Scheduling([]) && Run(b, [], hash).failed;
  }

  lemma Run1(b: Bridge, step: Step, hash: string -> nat)
    ensures Run(b, [step], hash) == Take1(b, step, hash)
  {
    assert [step][..0] == [];
  }

  lemma Run2(b: Bridge, one: Step, two: Step, hash: string -> nat)
    ensures Run(b, [one, two], hash) == Take1(Take1(b, one, hash), two, hash)
  {
    RunJoin(b, [one], [two], hash);
    assert [one] + [two] == [one, two];
    Run1(b, one, hash);
    Run1(Take1(b, one, hash), two, hash);
  }

  /** The next event is dispatched to an empty lane and taken by its idle worker. */
  lemma Brought(b: Bridge, i: nat, hash: string -> nat)
    requires !b.failed && b.read < |b.emitted| && i < |b.lanes| && LaneOf(b.emitted[b.read], |b.lanes|, hash) == i
    requires b.lanes[i] == Lane([], Idle)
    ensures Run(b, [Dispatch, Take(i)], hash)
         == b.(read := b.read + 1, lanes := b.lanes[i := Lane([], Taken(b.emitted[b.read]))])
  {
    Run2(b, Dispatch, Take(i), hash);
    Dispatched(b, i, hash);
    TakenAgain(Take1(b, Dispatch, hash), i, b.emitted[b.read], hash);
    hide LaneOf, Run, Take1;
    var event := b.emitted[b.read];
    assert b.lanes[i := Lane([event], Idle)][i := Lane([], Taken(event))] == b.lanes[i := Lane([], Taken(event))];
  }

  lemma Dispatched(b: Bridge, i: nat, hash: string -> nat)
    requires !b.failed && b.read < |b.emitted| && i < |b.lanes| && LaneOf(b.emitted[b.read], |b.lanes|, hash) == i
    requires b.lanes[i] == Lane([], Idle)
    ensures Take1(b, Dispatch, hash) == b.(read := b.read + 1, lanes := b.lanes[i := Lane([b.emitted[b.read]], Idle)])
  {
    hide LaneOf;
    assert [] + [b.emitted[b.read]] == [b.emitted[b.read]];
  }

  lemma TakenAgain(b: Bridge, i: nat, event: Event, hash: string -> nat)
    requires !b.failed && i < |b.lanes| && b.lanes[i] == Lane([event], Idle)
    ensures Take1(b, Take(i), hash) == b.(lanes := b.lanes[i := Lane([], Taken(event))])
  {
    assert [event][1..] == [];
  }

  lemma Passed(b: Bridge, i: nat, event: Event, hash: string -> nat)
    requires !b.failed && i < |b.lanes| && b.lanes[i] == Lane([], Taken(event))
    ensures
      var next := Run(b, [Check(i), Apply(i)], hash);
      next.failed
      || (event.sessionId.Some?
          && next == b.(lanes := b.lanes[i := Lane([], Idle)], lastSeq := next.lastSeq, handled := next.handled))
  {
    Run2(b, Check(i), Apply(i), hash);
    var mid := CheckNext(b, i);
    if !mid.failed {
      assert mid.lanes[i] == Lane([], Checked(event));
      assert mid.lanes[i := Lane([], Idle)] == b.lanes[i := Lane([], Idle)];
    }
  }

  /** One event goes all the way through its idle lane, or fails the bridge. */
  lemma Processed(b: Bridge, i: nat, hash: string -> nat)
    requires !b.failed && b.read < |b.emitted| && i < |b.lanes| && LaneOf(b.emitted[b.read], |b.lanes|, hash) == i
    requires b.lanes[i] == Lane([], Idle)
    ensures
      var next := Run(b, [Dispatch, Take(i)] + [Check(i), Apply(i)], hash);
      next.failed
      || (b.emitted[b.read].sessionId.Some?
          && next == b.(read := b.read + 1, lastSeq := next.lastSeq, handled := next.handled))
  {
    var event := b.emitted[b.read];
    Brought(b, i, hash);
    RunJoin(b, [Dispatch, Take(i)], [Check(i), Apply(i)], hash);
    var mid := Run(b, [Dispatch, Take(i)], hash);
    Passed(mid, i, event, hash);
    assert mid.lanes[i := Lane([], Idle)] == b.lanes;
  }

  ghost predicate Resting(b: Bridge) {
    b.lanes != [] && !b.failed && b.read <= |b.emitted| && forall i :: 0 <= i < |b.lanes| ==> b.lanes[i] == Lane([], Idle)
  }

  /** An event that lacks a session id fails as soon as it is checked. */
  lemma {:induction false} MissingFails(b: Bridge, k: nat, hash: string -> nat)
    requires Resting(b) && b.read <= k < |b.emitted| && b.emitted[k].sessionId.None?
    ensures CanFail(b, hash)
    decreases k - b.read
  {
    hide LaneOf, Run, CanFail;
    var i := LaneOf(b.emitted[b.read], |b.lanes|, hash);
    var four := [Dispatch, Take(i)] + [Check(i), Apply(i)];
    Processed(b, i, hash);
    var next := Run(b, four, hash);
    if next.failed {
      FailedCanFail(next, hash);
    } else {
      MissingFails(next, k, hash);
    }
    FailsLater(b, four, hash);
  }

  /** The worker of lane `i` holds event `a`, its queue what was read for the lane since; the rest rests. */
  ghost predicate Holding(b: Bridge, a: nat, i: nat, hash: string -> nat) {
    && !b.failed && a < b.read <= |b.emitted| && i < |b.lanes| && LaneOf(b.emitted[a], |b.lanes|, hash) == i
    && b.lanes[i] == Lane(InLane(b.emitted[a + 1..b.read], i, |b.lanes|, hash), Taken(b.emitted[a]))
    && (forall k :: 0 <= k < |b.lanes| && k != i ==> b.lanes[k] == Lane([], Idle))
  }

  /** Event `b` is read, checked, and then the held event `a` fails. */
  lemma OvertakingFails(b: Bridge, a: nat, i: nat, hash: string -> nat)
    requires Holding(b, a, i, hash) && Numbered(b.emitted) && b.read < |b.emitted|
    requires b.emitted[a].sessionId.Some? && b.emitted[b.read].sessionId == b.emitted[a].sessionId
    requires LaneOf(b.emitted[b.read], |b.lanes|, hash) != i
    ensures CanFail(b, hash)
  {
    hide LaneOf, InLane, Run, CanFail;
    var j := LaneOf(b.emitted[b.read], |b.lanes|, hash);
    var two := [Dispatch, Take(j)];
    Brought(b, j, hash);
    var mid := Run(b, two, hash);
    Run1(mid, Check(j), hash);
    var checked := Run(mid, [Check(j)], hash);
    if checked.failed {
      FailedCanFail(checked, hash);
    } else {
      assert checked.lanes[i] == b.lanes[i];
      assert checked.lastSeq[b.emitted[a].sessionId.value] == b.emitted[b.read].seqNo;
      Run1(checked, Check(i), hash);
      FailedCanFail(Run(checked, [Check(i)], hash), hash);
      FailsLater(checked, [Check(i)], hash);
    }
    FailsLater(mid, [Check(j)], hash);
    FailsLater(b, two, hash);
  }

  /** One more event of the held lane goes into its queue. */
  lemma Queued(b: Bridge, a: nat, i: nat, hash: string -> nat)
    requires Holding(b, a, i, hash) && b.read < |b.emitted| && LaneOf(b.emitted[b.read], |b.lanes|, hash) == i
    requires |InLane(b.emitted[a + 1..b.read + 1], i, |b.lanes|, hash)| <= LANE_CAPACITY
    ensures Holding(Run(b, [Dispatch], hash), a, i, hash)
    ensures Run(b, [Dispatch], hash) == b.(read := b.read + 1, lanes := Run(b, [Dispatch], hash).lanes)
    ensures |Run(b, [Dispatch], hash).lanes| == |b.lanes|
  {
    hide LaneOf;
    Run1(b, Dispatch, hash);
    var more := b.emitted[a + 1..b.read + 1];
    assert more[..|more| - 1] == b.emitted[a + 1..b.read];
  }

  lemma InLanePrefix(events: seq<Event>, k: nat, lane: nat, count: nat, hash: string -> nat)
    requires k <= |events|
    ensures |InLane(events[..k], lane, count, hash)| <= |InLane(events, lane, count, hash)|
  {
    assert events == events[..k] + events[k..];
    InLaneConcat(events[..k], events[k..], lane, count, hash);
  }

  lemma NotForLane(events: seq<Event>, from: nat, k: nat, lane: nat, count: nat, hash: string -> nat)
    requires from <= k < |events| && LaneOf(events[k], count, hash) != lane
    ensures InLane(events[from..k + 1], lane, count, hash) == InLane(events[from..k], lane, count, hash)
  {
    hide LaneOf;
    assert events[from..k + 1][..k - from] == events[from..k];
  }

  lemma {:induction false} HeldIsOvertaken(b: Bridge, a: nat, k: nat, i: nat, hash: string -> nat)
    requires Holding(b, a, i, hash) && Numbered(b.emitted) && b.read <= k < |b.emitted|
    requires CanOvertake(b.emitted, a, k, |b.lanes|, hash)
    ensures CanFail(b, hash)
    decreases k - b.read
  {
    hide LaneOf, InLane, Numbered, Run, CanFail;
    if b.read == k {
      OvertakingFails(b, a, i, hash);
    } else {
      var j := LaneOf(b.emitted[b.read], |b.lanes|, hash);
      assert b.emitted[a + 1..k][..b.read - a] == b.emitted[a + 1..b.read + 1];
      InLanePrefix(b.emitted[a + 1..k], b.read - a, i, |b.lanes|, hash);
      if j == i {
        Queued(b, a, i, hash);
        HeldIsOvertaken(Run(b, [Dispatch], hash), a, k, i, hash);
        FailsLater(b, [Dispatch], hash);
      } else {
        var four := [Dispatch, Take(j)] + [Check(j), Apply(j)];
        Processed(b, j, hash);
        var next := Run(b, four, hash);
        if next.failed {
          FailedCanFail(next, hash);
        } else {
          NotForLane(b.emitted, a + 1, b.read, i, |b.lanes|, hash);
          HeldIsOvertaken(next, a, k, i, hash);
        }
        FailsLater(b, four, hash);
      }
    }
  }

  /** From rest, everything before event `a` goes through, then `a` is held back and overtaken. */
  lemma {:induction false} OvertakenFails(b: Bridge, a: nat, k: nat, hash: string -> nat)
    requires Resting(b) && Numbered(b.emitted) && b.read <= a < k < |b.emitted|
    requires CanOvertake(b.emitted, a, k, |b.lanes|, hash)
    ensures CanFail(b, hash)
    decreases a - b.read
  {
    hide LaneOf, Run, Numbered, CanFail, Scheduling, CanOvertake;
    var i := LaneOf(b.emitted[b.read], |b.lanes|, hash);
    if b.read == a {
      Brought(b, i, hash);
      var next := Run(b, [Dispatch, Take(i)], hash);
      assert next.emitted[a + 1..next.read] == [];
      HeldIsOvertaken(next, a, k, i, hash);
      FailsLater(b, [Dispatch, Take(i)], hash);
    } else {
      var four := [Dispatch, Take(i)] + [Check(i), Apply(i)];
      Processed(b, i, hash);
      var next := Run(b, four, hash);
      if next.failed {
        FailedCanFail(next, hash);
      } else {
        OvertakenFails(next, a, k, hash);
      }
      FailsLater(b, four, hash);
    }
  }

  // ---- From the start ----

  function EmitAll(events: seq<Event>): (steps: seq<Step>)
    ensures |steps| == |events|
  {
    if events == [] then []
    else
      var last := events[|events| - 1];
      EmitAll(events[..|events| - 1]) + [Emit(last.name, last.sessionId, last.turnId)]
  }

  lemma EmitOne(count: nat, short: seq<Event>, last: Event, hash: string -> nat)
    requires count >= 1 && last.seqNo == |short| + 1
    ensures Take1(NewBridge(count).(emitted := short), Emit(last.name, last.sessionId, last.turnId), hash)
         == NewBridge(count).(emitted := short + [last])
  {
  }

  lemma {:induction false} EmitAllRuns(count: nat, events: seq<Event>, hash: string -> nat)
    requires count >= 1 && Numbered(events)
    ensures Emits(EmitAll(events)) == events
    ensures Run(NewBridge(count), EmitAll(events), hash) == NewBridge(count).(emitted := events)
  {
    if events != [] {
      hide *;
      var short, last := events[..|events| - 1], events[|events| - 1];
      assert short + [last] == events;
      NumberedSplit(events);
      EmitAllRuns(count, short, hash);
      EmitAllSnoc(short, last);
      var emit := Emit(last.name, last.sessionId, last.turnId);
      RunSnoc(NewBridge(count), EmitAll(short), emit, hash);
      EmitsSnoc(EmitAll(short), last);
      EmitOne(count, short, last, hash);
    }
  }

  lemma NumberedSplit(events: seq<Event>)
    requires events != [] && Numbered(events)
    ensures Numbered(events[..|events| - 1]) && events[|events| - 1].seqNo == |events|
  {
  }

  lemma EmitAllSnoc(short: seq<Event>, last: Event)
    ensures EmitAll(short + [last]) == EmitAll(short) + [Emit(last.name, last.sessionId, last.turnId)]
  {
    assert (short + [last])[..|short|] == short;
  }

  lemma RunSnoc(b: Bridge, steps: seq<Step>, step: Step, hash: string -> nat)
    ensures Run(b, steps + [step], hash) == Take1(Run(b, steps, hash), step, hash)
  {
    hide Take1;
    assert (steps + [step])[..|steps|] == steps;
  }

  lemma EmitsSnoc(steps: seq<Step>, last: Event)
    requires last.seqNo == |Emits(steps)| + 1
    ensures Emits(steps + [Emit(last.name, last.sessionId, last.turnId)]) == Emits(steps) + [last]
  {
    assert (steps + [Emit(last.name, last.sessionId, last.turnId)])[..|steps|] == steps;
  }

  lemma {:induction false} SchedulingEmitsNothing(front: seq<Step>, steps: seq<Step>)
    requires Scheduling(steps)
    ensures Emits(front + steps) == Emits(front)
  {
    if steps == [] {
      assert front + steps == front;
    } else {
      assert (front + steps)[..|front + steps| - 1] == front + steps[..|steps| - 1];
      SchedulingEmitsNothing(front, steps[..|steps| - 1]);
    }
  }

  lemma UnsafeCanFail(count: nat, events: seq<Event>, hash: string -> nat)
    requires count >= 1 && Numbered(events) && !Safe(events, count, hash)
    ensures CanFail(NewBridge(count).(emitted := events), hash)
  {
    hide CanFail, CanOvertake;
    var b := NewBridge(count).(emitted := events);
    if k :| 0 <= k < |events| && events[k].sessionId.None? {
      MissingFails(b, k, hash);
    } else {
      var a, k :| 0 <= a < k < |events| && CanOvertake(events, a, k, count, hash);
      OvertakenFails(b, a, k, hash);
    }
  }

  /**
  For any list of emitted events, no schedule of emission, reader and lanes fails the bridge exactly when
  every event carries a session id and no event can be overtaken by a later one of the same raw id: either
  they share a lane, or more than a queue's capacity of events for the earlier one's lane lie between them.
  */
  lemma SafeExactlyWhen(count: nat, events: seq<Event>, hash: string -> nat)
    requires count >= 1 && Numbered(events)
    ensures (forall steps :: Emits(steps) == events ==> !Run(NewBridge(count), steps, hash).failed)
       <==> Safe(events, count, hash)
  {
    hide Safe, Run;
    if Safe(events, count, hash) {
      forall steps | Emits(steps) == events ensures !Run(NewBridge(count), steps, hash).failed {
        SafeNeverFails(count, steps, hash);
      }
    } else {
      UnsafeCanFail(count, events, hash);
      EmitAllRuns(count, events, hash);
      var more :| Scheduling(more) && Run(NewBridge(count).(emitted := events), more, hash).failed;
      RunJoin(NewBridge(count), EmitAll(events), more, hash);
      SchedulingEmitsNothing(EmitAll(events), more);
    }
  }

  lemma {:induction false} InLaneFits(events: seq<Event>, lane: nat, count: nat, hash: string -> nat)
    ensures |InLane(events, lane, count, hash)| <= |events|
  {
    if events != [] {
      InLaneFits(events[..|events| - 1], lane, count, hash);
    }
  }

  /** Every event carries a session id, and events of the same raw id share a lane. */
  ghost predicate SharedLanes(events: seq<Event>, count: nat, hash: string -> nat) {
    && (forall k :: 0 <= k < |events| ==> events[k].sessionId.Some?)
    && (forall a, b :: 0 <= a < b < |events| && events[a].sessionId == events[b].sessionId ==>
          LaneOf(events[a], count, hash) == LaneOf(events[b], count, hash))
  }

  /**
  Sharing lanes is always enough, and as long as a queue can hold everything between two events it is also
  needed; past that a full queue holds the reader back and the later event cannot overtake.
  */
  lemma SharedLanesAreSafe(count: nat, events: seq<Event>, hash: string -> nat)
    requires count >= 1 && Numbered(events)
    ensures SharedLanes(events, count, hash) ==>
              forall steps :: Emits(steps) == events ==> !Run(NewBridge(count), steps, hash).failed
    ensures |events| <= LANE_CAPACITY + 2 ==>
              (SharedLanes(events, count, hash)
               <==> forall steps :: Emits(steps) == events ==> !Run(NewBridge(count), steps, hash).failed)
  {
    SafeExactlyWhen(count, events, hash);
    hide LaneOf, Run, InLane, Numbered;
    if |events| <= LANE_CAPACITY + 2 && Safe(events, count, hash) {
      forall a, b | 0 <= a < b < |events| && events[a].sessionId == events[b].sessionId
        ensures LaneOf(events[a], count, hash) == LaneOf(events[b], count, hash)
      {
        assert !CanOvertake(events, a, b, count, hash);
        InLaneFits(events[a + 1..b], LaneOf(events[a], count, hash), count, hash);
      }
    }
  }
}
