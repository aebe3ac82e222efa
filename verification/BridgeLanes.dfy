/**
The Claude bridge's event path: the sidecar numbers its events, one reader hashes each to a
worker lane, and each lane handles its events one at a time. Emission, reading and the lanes'
steps interleave freely.
*/
module BridgeLanes {
  import opened Wrappers
  import opened Text

  const LANE_CAPACITY: nat := 128

  datatype Event = Event(seqNo: nat, name: string, sessionId: Option<string>, turnId: Option<string>)

  /** A lane's worker between its three steps: take an event, check its number, apply it. */
  datatype Worker = Idle | Taken(event: Event) | Checked(event: Event)

  datatype Lane = Lane(queue: seq<Event>, worker: Worker)

  datatype Bridge = Bridge(
    emitted: seq<Event>, read: nat, lanes: seq<Lane>,
    lastSeq: map<string, nat>, handled: seq<Event>, failed: bool)

  datatype Step =
    | Emit(name: string, sessionId: Option<string>, turnId: Option<string>)
    | Dispatch
    | Take(lane: nat)
    | Check(lane: nat)
    | Apply(lane: nat)

  function LaneKey(event: Event): string {
    var session := NonEmpty(event.sessionId);
    var turn := NonEmpty(event.turnId);
    if session.Some? then "session:" + session.value
    else if turn.Some? then "turn:" + turn.value
    else if Trim(event.name) != "" then "event:" + Trim(event.name)
    else "event:unknown"
  }

  function LaneIndex(key: string, count: nat, hash: string -> nat): (index: nat)
    ensures count >= 1 ==> index < count
  {
    if count <= 1 then 0 else hash(key) % count
  }

  function LaneOf(event: Event, count: nat, hash: string -> nat): (index: nat)
    ensures count >= 1 ==> index < count
  {
    LaneIndex(LaneKey(event), count, hash)
  }

  function LastSeq(lastSeq: map<string, nat>, session: string): nat {
    if session in lastSeq then lastSeq[session] else 0
  }

  function DispatchNext(b: Bridge, hash: string -> nat): Bridge
    requires b.read < |b.emitted| && |b.lanes| >= 1
  {
    var event := b.emitted[b.read];
    var i := LaneOf(event, |b.lanes|, hash);
    if |b.lanes[i].queue| >= LANE_CAPACITY then b
    else
      b.(read := b.read + 1, lanes := b.lanes[i := b.lanes[i].(queue := b.lanes[i].queue + [event])])
  }

  function TakeNext(b: Bridge, i: nat): Bridge
    requires i < |b.lanes| && b.lanes[i].queue != []
  {
    b.(lanes := b.lanes[i := Lane(b.lanes[i].queue[1..], Taken(b.lanes[i].queue[0]))])
  }

  /** The per-session check: a number that does not grow, or a missing session, fails the bridge. */
  function CheckNext(b: Bridge, i: nat): Bridge
    requires i < |b.lanes| && b.lanes[i].worker.Taken?
  {
    var event := b.lanes[i].worker.event;
    if event.sessionId.None? || event.seqNo <= LastSeq(b.lastSeq, event.sessionId.value) then b.(failed := true)
    else
      b.(lastSeq := b.lastSeq[event.sessionId.value := event.seqNo],
         lanes := b.lanes[i := b.lanes[i].(worker := Checked(event))])
  }

  function ApplyNext(b: Bridge, i: nat): Bridge
    requires i < |b.lanes| && b.lanes[i].worker.Checked?
  {
    b.(handled := b.handled + [b.lanes[i].worker.event], lanes := b.lanes[i := b.lanes[i].(worker := Idle)])
  }

  /** One step; a step that cannot be taken leaves the bridge as it is, and a failed bridge takes none. */
  function Take1(b: Bridge, step: Step, hash: string -> nat): Bridge {
    if b.failed || b.lanes == [] then b
    else
      match step
      case Emit(name, sessionId, turnId) =>
        b.(emitted := b.emitted + [Event(|b.emitted| + 1, name, sessionId, turnId)])
      case Dispatch => if b.read < |b.emitted| then DispatchNext(b, hash) else b
      case Take(i) => if i < |b.lanes| && b.lanes[i].worker.Idle? && b.lanes[i].queue != [] then TakeNext(b, i) else b
      case Check(i) => if i < |b.lanes| && b.lanes[i].worker.Taken? then CheckNext(b, i) else b
      case Apply(i) => if i < |b.lanes| && b.lanes[i].worker.Checked? then ApplyNext(b, i) else b
  }

  function Run(b: Bridge, steps: seq<Step>, hash: string -> nat): Bridge {
    if steps == [] then b
    else Take1(Run(b, steps[..|steps| - 1], hash), steps[|steps| - 1], hash)
  }

  function NewBridge(count: nat): Bridge {
    Bridge([], 0, seq(count, i => Lane([], Idle)), map[], [], false)
  }

  predicate NamesSession(sessionId: Option<string>) {
    NonEmpty(sessionId).Some?
  }

  // ---- Per-session views ----

  function Of(events: seq<Event>, session: string): seq<Event> {
    if events == [] then []
    else (if events[0].sessionId == Some(session) then [events[0]] else []) + Of(events[1..], session)
  }

  lemma {:induction false} OfConcat(a: seq<Event>, b: seq<Event>, session: string)
    ensures Of(a + b, session) == Of(a, session) + Of(b, session)
  {
    if a == [] {
      assert a + b == b;
    } else {
      OfConcat(a[1..], b, session);
      assert (a + b)[0] == a[0] && (a + b)[1..] == a[1..] + b;
      var head := if a[0].sessionId == Some(session) then [a[0]] else [];
      assert head + (Of(a[1..], session) + Of(b, session)) == head + Of(a[1..], session) + Of(b, session);
    }
  }

  lemma {:induction false} OfMembers(events: seq<Event>, session: string, event: Event)
    ensures event in Of(events, session) <==> event in events && event.sessionId == Some(session)
  {
    if events != [] {
      OfMembers(events[1..], session, event);
      assert events == [events[0]] + events[1..];
    }
  }

  function InHand(worker: Worker): seq<Event> {
    match worker
    case Idle => []
    case Taken(event) => [event]
    case Checked(event) => [event]
  }

  function Unchecked(lane: Lane): seq<Event> {
    (if lane.worker.Taken? then [lane.worker.event] else []) + lane.queue
  }

  /** What a lane holds and has not applied. */
  function Pending(lane: Lane): seq<Event> {
    InHand(lane.worker) + lane.queue
  }

  function HomeLane(session: string, count: nat, hash: string -> nat): (index: nat)
    ensures count >= 1 ==> index < count
  {
    LaneIndex("session:" + Trim(session), count, hash)
  }

  /** The lane every event of a session goes through. */
  function Home(b: Bridge, session: string, hash: string -> nat): Lane
    requires b.lanes != []
  {
    b.lanes[HomeLane(session, |b.lanes|, hash)]
  }

  ghost predicate Numbered(events: seq<Event>) {
    forall i :: 0 <= i < |events| ==> events[i].seqNo == i + 1
  }

  ghost predicate Growing(events: seq<Event>) {
    forall i, j :: 0 <= i < j < |events| ==> events[i].seqNo < events[j].seqNo
  }

  ghost predicate AllAbove(events: seq<Event>, bound: nat) {
    forall event :: event in events ==> event.seqNo > bound
  }

  /** Nothing of a session is lost, copied or reordered on its way through the one lane it uses. */
  ghost predicate Conserved(b: Bridge, session: string, hash: string -> nat)
    requires b.lanes != [] && b.read <= |b.emitted|
  {
    Of(b.handled, session) + Of(Pending(Home(b, session, hash)), session) + Of(b.emitted[b.read..], session)
    == Of(b.emitted, session)
  }

  ghost predicate UncheckedAbove(b: Bridge, session: string, hash: string -> nat)
    requires b.lanes != [] && b.read <= |b.emitted|
  {
    && AllAbove(Of(Unchecked(Home(b, session, hash)), session), LastSeq(b.lastSeq, session))
    && AllAbove(Of(b.emitted[b.read..], session), LastSeq(b.lastSeq, session))
    && LastSeq(b.lastSeq, session) <= |b.emitted|
  }

  ghost predicate SessionOk(b: Bridge, session: string, hash: string -> nat)
    requires b.lanes != [] && b.read <= |b.emitted|
  {
    Conserved(b, session, hash) && UncheckedAbove(b, session, hash)
  }

  ghost predicate Routed(event: Event, i: nat, count: nat, hash: string -> nat) {
    NamesSession(event.sessionId) && HomeLane(event.sessionId.value, count, hash) == i
  }

  /** Emission numbers its events from 1, each names a session, and lanes hold only events they are home to. */
  ghost predicate Frame(b: Bridge, hash: string -> nat) {
    && b.lanes != [] && b.read <= |b.emitted| && !b.failed
    && Numbered(b.emitted)
    && (forall event :: event in b.emitted ==> NamesSession(event.sessionId))
    && (forall i, event :: 0 <= i < |b.lanes| && event in Pending(b.lanes[i]) ==> Routed(event, i, |b.lanes|, hash))
  }

  ghost predicate Inv(b: Bridge, hash: string -> nat) {
    Frame(b, hash) && forall session :: SessionOk(b, session, hash)
  }

  lemma {:induction false} OfGrows(events: seq<Event>, session: string)
    requires Growing(events)
    ensures Growing(Of(events, session))
  {
    if events != [] {
      OfGrows(events[1..], session);
      forall event | event in Of(events[1..], session) ensures event.seqNo > events[0].seqNo {
        OfMembers(events[1..], session, event);
      }
    }
  }

  // ---- Each step keeps the invariant ----

  lemma EmitSession(b: Bridge, event: Event, hash: string -> nat, session: string)
    requires Frame(b, hash) && SessionOk(b, session, hash) && event.seqNo == |b.emitted| + 1
    ensures SessionOk(b.(emitted := b.emitted + [event]), session, hash)
  {
    hide Of, HomeLane, Pending, Unchecked, Numbered, NamesSession;
    var next := b.(emitted := b.emitted + [event]);
    assert next.emitted[b.read..] == b.emitted[b.read..] + [event];
    OfConcat(b.emitted, [event], session);
    OfConcat(b.emitted[b.read..], [event], session);
    OfOne(event, session);
    EmitRight(Of(b.handled, session), Of(Pending(Home(b, session, hash)), session), Of(b.emitted[b.read..], session), Of([event], session));
  }

  lemma EmitRight(h: seq<Event>, p: seq<Event>, u: seq<Event>, event: seq<Event>)
    ensures h + p + (u + event) == h + p + u + event
  {
  }

  lemma HomeIsLane(event: Event, count: nat, hash: string -> nat)
    requires NamesSession(event.sessionId)
    ensures LaneOf(event, count, hash) == HomeLane(event.sessionId.value, count, hash)
  {
  }

  lemma OfOne(event: Event, session: string)
    ensures Of([event], session) == if event.sessionId == Some(session) then [event] else []
  {
  }

  lemma MoveLeft(h: seq<Event>, p: seq<Event>, event: seq<Event>, u: seq<Event>)
    ensures h + (p + event) + u == h + p + (event + u)
    ensures h + (event + p) + u == h + event + p + u
  {
  }

  /** Appending to a lane's queue, or moving its head along, seen through the per-session filter. */
  lemma QueueGrows(lane: Lane, event: Event, session: string)
    ensures
      var lane' := lane.(queue := lane.queue + [event]);
      && Of(Pending(lane'), session) == Of(Pending(lane), session) + Of([event], session)
      && Of(Unchecked(lane'), session) == Of(Unchecked(lane), session) + Of([event], session)
  {
    var lane' := lane.(queue := lane.queue + [event]);
    assert Pending(lane') == Pending(lane) + [event];
    assert Unchecked(lane') == Unchecked(lane) + [event];
    OfConcat(Pending(lane), [event], session);
    OfConcat(Unchecked(lane), [event], session);
  }

  /** What a dispatch does to the one lane and the unread events of a session. */
  lemma DispatchView(b: Bridge, hash: string -> nat, session: string)
    requires Frame(b, hash) && b.read < |b.emitted| && DispatchNext(b, hash) != b
    ensures
      var next, moved := DispatchNext(b, hash), Of([b.emitted[b.read]], session);
      && Of(Pending(Home(next, session, hash)), session) == Of(Pending(Home(b, session, hash)), session) + moved
      && Of(Unchecked(Home(next, session, hash)), session) == Of(Unchecked(Home(b, session, hash)), session) + moved
  {
    var event := b.emitted[b.read];
    HomeIsLane(event, |b.lanes|, hash);
    OfOne(event, session);
    QueueGrows(Home(b, session, hash), event, session);
  }

  lemma DispatchSession(b: Bridge, hash: string -> nat, session: string)
    requires Frame(b, hash) && SessionOk(b, session, hash) && b.read < |b.emitted|
    ensures SessionOk(DispatchNext(b, hash), session, hash)
  {
    hide Of, HomeLane, Pending, Unchecked, NamesSession;
    if DispatchNext(b, hash) != b {
      var event, rest := b.emitted[b.read], b.emitted[b.read + 1..];
      DispatchView(b, hash, session);
      OfOne(event, session);
      assert b.emitted[b.read..] == [event] + rest;
      OfConcat([event], rest, session);
      MoveLeft(Of(b.handled, session), Of(Pending(Home(b, session, hash)), session),
               Of([event], session), Of(rest, session));
    }
  }

  lemma TakeSession(b: Bridge, i: nat, hash: string -> nat, session: string)
    requires Frame(b, hash) && SessionOk(b, session, hash)
    requires i < |b.lanes| && b.lanes[i].worker.Idle? && b.lanes[i].queue != []
    ensures SessionOk(TakeNext(b, i), session, hash)
  {
    var next := TakeNext(b, i);
    assert Pending(next.lanes[i]) == Pending(b.lanes[i]);
    assert Unchecked(next.lanes[i]) == Unchecked(b.lanes[i]);
  }

  lemma {:induction false} Later(front: seq<Event>, event: Event, back: seq<Event>)
    requires Growing(front + [event] + back)
    ensures AllAbove(back, event.seqNo)
  {
    var all := front + [event] + back;
    forall later | later in back ensures later.seqNo > event.seqNo {
      var k :| 0 <= k < |back| && back[k] == later;
      assert all[|front|] == event && all[|front| + 1 + k] == later;
    }
  }

  lemma SessionSplit(b: Bridge, event: Event, hash: string -> nat, session: string)
    requires Frame(b, hash) && SessionOk(b, session, hash) && event.sessionId == Some(session)
    requires Home(b, session, hash).worker == Taken(event)
    ensures Of(b.emitted, session)
         == Of(b.handled, session) + [event] + (Of(Home(b, session, hash).queue, session) + Of(b.emitted[b.read..], session))
  {
    var lane := Home(b, session, hash);
    OfFirst(event, lane.queue, session);
    hide HomeLane, Of, UncheckedAbove;
    Regroup(Of(b.handled, session), event, Of(lane.queue, session), Of(b.emitted[b.read..], session));
  }

  lemma OfFirst(event: Event, queue: seq<Event>, session: string)
    requires event.sessionId == Some(session)
    ensures Of([event] + queue, session) == [event] + Of(queue, session)
  {
    assert ([event] + queue)[1..] == queue;
  }

  lemma Regroup(front: seq<Event>, event: Event, queued: seq<Event>, unread: seq<Event>)
    ensures front + ([event] + queued) + unread == front + [event] + (queued + unread)
  {
  }

  /** In a session's emission order, what follows an event that is about to be checked is above it. */
  lemma RestIsAbove(b: Bridge, event: Event, hash: string -> nat, session: string)
    requires Frame(b, hash) && SessionOk(b, session, hash) && event.sessionId == Some(session)
    requires Home(b, session, hash).worker == Taken(event)
    ensures AllAbove(Of(Home(b, session, hash).queue, session), event.seqNo)
    ensures AllAbove(Of(b.emitted[b.read..], session), event.seqNo)
    ensures event.seqNo <= |b.emitted|
  {
    var lane := Home(b, session, hash);
    var front, queued, unread := Of(b.handled, session), Of(lane.queue, session), Of(b.emitted[b.read..], session);
    SessionSplit(b, event, hash, session);
    hide Of, HomeLane;
    OfGrows(b.emitted, session);
    Later(front, event, queued + unread);
    assert event in Of(b.emitted, session);
    OfMembers(b.emitted, session, event);
  }

  lemma CheckSession(b: Bridge, i: nat, hash: string -> nat, session: string)
    requires Inv(b, hash) && i < |b.lanes| && b.lanes[i].worker.Taken?
    ensures !CheckNext(b, i).failed
    ensures SessionOk(CheckNext(b, i), session, hash)
  {
    hide Of, HomeLane, Numbered;
    var next := CheckNext(b, i);
    var lane := b.lanes[i];
    var event := lane.worker.event;
    assert event in Pending(lane);
    var own := event.sessionId.value;
    assert SessionOk(b, own, hash) && SessionOk(b, session, hash);
    OfMembers(Unchecked(lane), own, event);
    assert !next.failed;
    assert Pending(next.lanes[i]) == Pending(lane);
    assert Unchecked(lane) == [event] + lane.queue && Unchecked(next.lanes[i]) == lane.queue;
    if session == own {
      RestIsAbove(b, event, hash, session);
    } else {
      OfConcat([event], lane.queue, session);
    }
  }

  lemma ApplyView(b: Bridge, i: nat, hash: string -> nat, session: string)
    requires Frame(b, hash) && i < |b.lanes| && b.lanes[i].worker.Checked?
    ensures
      var next, moved := ApplyNext(b, i), Of([b.lanes[i].worker.event], session);
      && Of(Pending(Home(b, session, hash)), session) == moved + Of(Pending(Home(next, session, hash)), session)
      && Of(next.handled, session) == Of(b.handled, session) + moved
  {
    var event, queue := b.lanes[i].worker.event, b.lanes[i].queue;
    assert event in Pending(b.lanes[i]);
    OfConcat(b.handled, [event], session);
    OfOne(event, session);
    OfConcat([event], queue, session);
    assert Pending(b.lanes[i].(worker := Idle)) == queue;
  }

  lemma ApplySession(b: Bridge, i: nat, hash: string -> nat, session: string)
    requires Frame(b, hash) && SessionOk(b, session, hash) && i < |b.lanes| && b.lanes[i].worker.Checked?
    ensures SessionOk(ApplyNext(b, i), session, hash)
  {
    ApplyView(b, i, hash, session);
    MoveLeft(Of(b.handled, session), Of(Pending(Home(ApplyNext(b, i), session, hash)), session),
             Of([b.lanes[i].worker.event], session), Of(b.emitted[b.read..], session));
    assert Unchecked(b.lanes[i].(worker := Idle)) == Unchecked(b.lanes[i]);
  }

  lemma EmitKeeps(b: Bridge, step: Step, hash: string -> nat)
    requires Inv(b, hash) && step.Emit? && NamesSession(step.sessionId)
    ensures Inv(Take1(b, step, hash), hash)
  {
    var event := Event(|b.emitted| + 1, step.name, step.sessionId, step.turnId);
    forall session ensures SessionOk(Take1(b, step, hash), session, hash) {
      EmitSession(b, event, hash, session);
    }
  }

  lemma DispatchKeeps(b: Bridge, hash: string -> nat)
    requires Inv(b, hash) && b.read < |b.emitted|
    ensures Inv(DispatchNext(b, hash), hash)
  {
    HomeIsLane(b.emitted[b.read], |b.lanes|, hash);
    forall session ensures SessionOk(DispatchNext(b, hash), session, hash) {
      DispatchSession(b, hash, session);
    }
  }

  lemma TakeKeeps(b: Bridge, i: nat, hash: string -> nat)
    requires Inv(b, hash) && i < |b.lanes| && b.lanes[i].worker.Idle? && b.lanes[i].queue != []
    ensures Inv(TakeNext(b, i), hash)
  {
    assert Pending(TakeNext(b, i).lanes[i]) == Pending(b.lanes[i]);
    forall session ensures SessionOk(TakeNext(b, i), session, hash) {
      TakeSession(b, i, hash, session);
    }
  }

  lemma CheckKeeps(b: Bridge, i: nat, hash: string -> nat)
    requires Inv(b, hash) && i < |b.lanes| && b.lanes[i].worker.Taken?
    ensures Inv(CheckNext(b, i), hash)
  {
    forall session ensures !CheckNext(b, i).failed && SessionOk(CheckNext(b, i), session, hash) {
      CheckSession(b, i, hash, session);
    }
    CheckSession(b, i, hash, "");
    assert Pending(CheckNext(b, i).lanes[i]) == Pending(b.lanes[i]);
  }

  lemma ApplyKeeps(b: Bridge, i: nat, hash: string -> nat)
    requires Inv(b, hash) && i < |b.lanes| && b.lanes[i].worker.Checked?
    ensures Inv(ApplyNext(b, i), hash)
  {
    var next := ApplyNext(b, i);
    assert Pending(b.lanes[i]) == [b.lanes[i].worker.event] + Pending(next.lanes[i]);
    forall session ensures SessionOk(next, session, hash) {
      ApplySession(b, i, hash, session);
    }
  }

  lemma StepKeeps(b: Bridge, step: Step, hash: string -> nat)
    requires Inv(b, hash) && (step.Emit? ==> NamesSession(step.sessionId))
    ensures Inv(Take1(b, step, hash), hash)
  {
    match step
    case Emit(_, _, _) => EmitKeeps(b, step, hash);
    case Dispatch =>
      if b.read < |b.emitted| {
        DispatchKeeps(b, hash);
      }
    case Take(i) =>
      if i < |b.lanes| && b.lanes[i].worker.Idle? && b.lanes[i].queue != [] {
        TakeKeeps(b, i, hash);
      }
    case Check(i) =>
      if i < |b.lanes| && b.lanes[i].worker.Taken? {
        CheckKeeps(b, i, hash);
      }
    case Apply(i) =>
      if i < |b.lanes| && b.lanes[i].worker.Checked? {
        ApplyKeeps(b, i, hash);
      }
  }

  lemma {:induction false} RunKeeps(count: nat, steps: seq<Step>, hash: string -> nat)
    requires count >= 1 && forall step :: step in steps && step.Emit? ==> NamesSession(step.sessionId)
    ensures Inv(Run(NewBridge(count), steps, hash), hash)
  {
    if steps == [] {
      assert NewBridge(count).emitted[0..] == [];
    } else {
      RunKeeps(count, steps[..|steps| - 1], hash);
      StepKeeps(Run(NewBridge(count), steps[..|steps| - 1], hash), steps[|steps| - 1], hash);
    }
  }

  ghost predicate AllDrained(b: Bridge) {
    b.read == |b.emitted| && forall i :: 0 <= i < |b.lanes| ==> Pending(b.lanes[i]) == []
  }

  /**
  When every event names a session, no schedule of reader and workers fails the bridge: what has
  been handled of each session is an initial run of what was emitted for it, and all of it once
  the reader and the lanes are drained.
  */
  lemma LanesKeepSessionOrder(count: nat, steps: seq<Step>, hash: string -> nat, session: string)
    requires count >= 1 && forall step :: step in steps && step.Emit? ==> NamesSession(step.sessionId)
    ensures
      var b := Run(NewBridge(count), steps, hash);
      && !b.failed
      && Of(b.handled, session) <= Of(b.emitted, session)
      && (AllDrained(b) ==> Of(b.handled, session) == Of(b.emitted, session))
  {
    RunKeeps(count, steps, hash);
    var b := Run(NewBridge(count), steps, hash);
    assert SessionOk(b, session, hash);
    if AllDrained(b) {
      assert b.emitted[b.read..] == [];
    }
  }

  lemma {:induction false} RunJoin(b: Bridge, front: seq<Step>, back: seq<Step>, hash: string -> nat)
    ensures Run(b, front + back, hash) == Run(Run(b, front, hash), back, hash)
  {
    if back == [] {
      assert front + back == front;
    } else {
      var short := back[..|back| - 1];
      assert (front + back)[..|front + back| - 1] == front + short;
      RunJoin(b, front, short, hash);
    }
  }

  // ---- The shared sequence table ----

  class SequenceTable {
    var lastSeq: map<string, nat>
    var closed: bool

    constructor ()
      ensures lastSeq == map[] && !closed
    {
      lastSeq, closed := map[], false;
    }

    /** The locked check of one event: admit it and record its number, or close the bridge. */
    method Admit(event: Event) returns (admitted: bool)
      modifies this
      ensures admitted <==> event.sessionId.Some? && event.seqNo > LastSeq(old(lastSeq), event.sessionId.value)
      ensures lastSeq == if admitted then old(lastSeq)[event.sessionId.value := event.seqNo] else old(lastSeq)
      ensures closed <==> old(closed) || !admitted
    {
      if event.sessionId.None? {
        closed := true;
        return false;
      }
      var previous := if event.sessionId.value in lastSeq then lastSeq[event.sessionId.value] else 0;
      if event.seqNo <= previous {
        closed := true;
        return false;
      }
      lastSeq := lastSeq[event.sessionId.value := event.seqNo];
      admitted := true;
    }
  }
}
