/**
The turn table of one ACP session entry, while that entry lives: the active turn, approvals that
hold a turn back, stored results, and the one-shot waiters of `wait_for_turn`. Every critical
section under the sessions lock is one step, and the steps of concurrent calls interleave freely.
*/
module AcpTurns {
  import opened Wrappers

  type Id = string

  datatype Status = Completed | Interrupted | Failed

  datatype TurnResult = TurnResult(turnId: Id, status: Status, detail: string)

  datatype Decision = Accept | Decline

  /** The session entry. `waiters` maps a turn to the wait calls parked on it. */
  datatype Entry = Entry(
    active: Option<Id>, pending: map<Id, Id>, completed: map<Id, TurnResult>, waiters: map<Id, seq<Id>>)

  function WaitersOf(entry: Entry, turn: Id): seq<Id> {
    if turn in entry.waiters then entry.waiters[turn] else []
  }

  predicate Busy(entry: Entry) {
    entry.active.Some? || entry.pending != map[]
  }

  /** `complete_turn`: the first result wins, clears the turn everywhere and takes its waiters out. */
  function Complete(entry: Entry, turn: Id, result: TurnResult): (Entry, seq<Id>) {
    if turn in entry.completed then (entry, [])
    else
      (Entry(if entry.active == Some(turn) then None else entry.active,
             map a | a in entry.pending && entry.pending[a] != turn :: entry.pending[a],
             entry.completed[turn := result],
             entry.waiters - {turn}),
       WaitersOf(entry, turn))
  }

  function Park(entry: Entry, turn: Id, call: Id): Entry {
    entry.(waiters := entry.waiters[turn := WaitersOf(entry, turn) + [call]])
  }

  predicate Holds(entry: Entry, turn: Id) {
    entry.active == Some(turn) || turn in entry.pending.Values
  }

  // ---- The entry as the provider keeps it ----

  class AcpSessionState {
    var activeTurn: Option<Id>
    var pendingApprovals: map<Id, Id>
    var completedTurns: map<Id, TurnResult>
    var waiters: map<Id, seq<Id>>

    ghost function Snapshot(): Entry
      reads this
    {
      Entry(activeTurn, pendingApprovals, completedTurns, waiters)
    }

    constructor ()
      ensures Snapshot() == Entry(None, map[], map[], map[])
    {
      activeTurn, pendingApprovals, completedTurns, waiters := None, map[], map[], map[];
    }

    /** The section of `send_turn`; without an approval the slot is only checked, not taken. */
    method SendTurn(turn: Id, approval: Option<Id>) returns (accepted: bool)
      modifies this
      ensures accepted <==> !Busy(old(Snapshot()))
      ensures Snapshot() == if accepted && approval.Some? then old(Snapshot()).(pending := map[approval.value := turn])
                            else old(Snapshot())
    {
      if activeTurn.Some? || pendingApprovals != map[] {
        return false;
      }
      if approval.Some? {
        pendingApprovals := pendingApprovals[approval.value := turn];
      }
      accepted := true;
    }

    /** The section of `execute_turn`: take the slot if it is still free. */
    method ExecuteTurn(turn: Id) returns (started: bool)
      modifies this
      ensures started <==> !Busy(old(Snapshot()))
      ensures Snapshot() == if started then old(Snapshot()).(active := Some(turn)) else old(Snapshot())
    {
      if activeTurn.Some? || pendingApprovals != map[] {
        return false;
      }
      activeTurn := Some(turn);
      started := true;
    }

    method CompleteTurn(turn: Id, result: TurnResult) returns (drained: seq<Id>)
      modifies this
      ensures (Snapshot(), drained) == Complete(old(Snapshot()), turn, result)
    {
      if turn in completedTurns {
        return [];
      }
      if activeTurn == Some(turn) {
        activeTurn := None;
      }
      var left, kept := pendingApprovals.Keys, map[];
      while left != {}
        invariant left <= pendingApprovals.Keys
        invariant kept == map a | a in pendingApprovals && a !in left && pendingApprovals[a] != turn :: pendingApprovals[a]
        decreases left
      {
        var a :| a in left;
        left := left - {a};
        if pendingApprovals[a] != turn {
          kept := kept[a := pendingApprovals[a]];
        }
      }
      assert kept == Complete(old(Snapshot()), turn, result).0.pending;
      pendingApprovals := kept;
      completedTurns := completedTurns[turn := result];
      drained := if turn in waiters then waiters[turn] else [];
      waiters := waiters - {turn};
    }

    /** The section of `respond_approval`: the approval must exist and name the turn. */
    method TakeApproval(approval: Id, turn: Id) returns (taken: bool)
      modifies this
      ensures taken <==> approval in old(pendingApprovals) && old(pendingApprovals)[approval] == turn
      ensures Snapshot() == if taken then old(Snapshot()).(pending := old(pendingApprovals) - {approval})
                            else old(Snapshot())
    {
      if approval !in pendingApprovals || pendingApprovals[approval] != turn {
        return false;
      }
      pendingApprovals := pendingApprovals - {approval};
      taken := true;
    }

    /** The second section of `wait_for_turn`: a result stored meanwhile is returned, otherwise park. */
    method Register(turn: Id, call: Id) returns (stored: Option<TurnResult>)
      modifies this
      ensures stored == if turn in old(completedTurns) then Some(old(completedTurns)[turn]) else None
      ensures Snapshot() == if stored.Some? then old(Snapshot()) else Park(old(Snapshot()), turn, call)
    {
      if turn in completedTurns {
        return Some(completedTurns[turn]);
      }
      var parked := if turn in waiters then waiters[turn] else [];
      waiters := waiters[turn := parked + [call]];
      stored := None;
    }
  }

  // ---- All calls together ----

  /**
  `starting`: accepted by `send_turn` or an approval and not yet executed; `finishing`: turns some
  task will complete (its prompt returned, a permission request or a close saw it active);
  `declining`: declined and not yet completed; `lost`: turns whose `execute_turn` found the slot
  taken. `asked` maps each wait call to its turn, `checked` holds calls between their two
  sections, `draining` the results on their way, `returned` what calls got, `gone` calls that
  timed out.
  */
  datatype Provider = Provider(
    entry: Entry, issued: set<Id>, starting: set<Id>, finishing: set<Id>, declining: set<Id>, lost: set<Id>,
    asked: map<Id, Id>, checked: set<Id>, draining: map<Id, TurnResult>, returned: map<Id, TurnResult>, gone: set<Id>)

  datatype Step =
    | SendTurn(turn: Id, held: Option<Id>)
    | Execute(turn: Id)
    | NoticeActive
    | Finish(turn: Id, status: Status, detail: string)
    | Respond(approval: Id, turn: Id, decision: Decision)
    | WaitCheck(call: Id, turn: Id)
    | WaitRegister(call: Id)
    | Deliver(call: Id)
    | GiveUp(call: Id)

  function Drain(draining: map<Id, TurnResult>, calls: seq<Id>, result: TurnResult): map<Id, TurnResult> {
    map c | c in draining.Keys + (set x | x in calls) :: if c in calls then result else draining[c]
  }

  function SendStep(p: Provider, turn: Id, approval: Option<Id>): Provider {
    if turn in p.issued then p
    else if Busy(p.entry) then p.(issued := p.issued + {turn})
    else if approval.Some? then
      p.(issued := p.issued + {turn}, entry := p.entry.(pending := map[approval.value := turn]))
    else p.(issued := p.issued + {turn}, starting := p.starting + {turn})
  }

  function ExecuteStep(p: Provider, turn: Id): Provider
    requires turn in p.starting
  {
    if Busy(p.entry) then p.(starting := p.starting - {turn}, lost := p.lost + {turn})
    else
      p.(starting := p.starting - {turn}, finishing := p.finishing + {turn},
         entry := p.entry.(active := Some(turn)))
  }

  function FinishStep(p: Provider, turn: Id, result: TurnResult): Provider {
    var (entry, drained) := Complete(p.entry, turn, result);
    p.(entry := entry, declining := p.declining - {turn}, draining := Drain(p.draining, drained, result))
  }

  function RespondStep(p: Provider, approval: Id, turn: Id, decision: Decision): Provider
    requires approval in p.entry.pending && p.entry.pending[approval] == turn
  {
    var p' := p.(entry := p.entry.(pending := p.entry.pending - {approval}));
    if decision.Decline? then p'.(declining := p.declining + {turn}) else p'.(starting := p.starting + {turn})
  }

  function WaitCheckStep(p: Provider, call: Id, turn: Id): Provider {
    if call in p.asked then p
    else if turn in p.entry.completed then
      p.(asked := p.asked[call := turn], returned := p.returned[call := p.entry.completed[turn]])
    else if Holds(p.entry, turn) then p.(asked := p.asked[call := turn], checked := p.checked + {call})
    else p
  }

  function RegisterStep(p: Provider, call: Id): Provider
    requires call in p.checked && call in p.asked
  {
    var turn := p.asked[call];
    if turn in p.entry.completed then
      p.(checked := p.checked - {call}, returned := p.returned[call := p.entry.completed[turn]])
    else p.(checked := p.checked - {call}, entry := Park(p.entry, turn, call))
  }

  /**
  One critical section; a step that cannot be taken leaves the provider as it is. Turn ids and wait
  calls are new when they first appear. `GiveUp` is a timed-out call that drops its receiver: its
  sender stays where it is, and a send to it goes nowhere.
  */
  function Take1(p: Provider, step: Step): Provider {
    match step
    case SendTurn(turn, approval) => SendStep(p, turn, approval)
    case Execute(turn) => if turn in p.starting then ExecuteStep(p, turn) else p
    case NoticeActive => if p.entry.active.Some? then p.(finishing := p.finishing + {p.entry.active.value}) else p
    case Finish(turn, status, detail) =>
      if turn in p.finishing || turn in p.declining then
        FinishStep(p, turn, TurnResult(turn, if turn in p.declining then Interrupted else status, detail))
      else p
    case Respond(approval, turn, decision) =>
      if approval in p.entry.pending && p.entry.pending[approval] == turn then RespondStep(p, approval, turn, decision)
      else p
    case WaitCheck(call, turn) => WaitCheckStep(p, call, turn)
    case WaitRegister(call) => if call in p.checked && call in p.asked then RegisterStep(p, call) else p
    case Deliver(call) =>
      if call !in p.draining then p
      else if call in p.gone then p.(draining := p.draining - {call})
      else p.(draining := p.draining - {call}, returned := p.returned[call := p.draining[call]])
    case GiveUp(call) => p.(gone := p.gone + {call})
  }

  function Run(p: Provider, steps: seq<Step>): Provider {
    if steps == [] then p else Take1(Run(p, steps[..|steps| - 1]), steps[|steps| - 1])
  }

  function NewProvider(): Provider {
    Provider(Entry(None, map[], map[], map[]), {}, {}, {}, {}, {}, map[], {}, map[], map[], {})
  }

  // ---- The invariant ----

  /** The active turn and the pending approvals together number at most one. */
  ghost predicate SlotOk(entry: Entry) {
    && (entry.active.Some? ==> entry.pending == map[])
    && (forall a, b :: a in entry.pending && b in entry.pending ==> a == b)
  }

  /** The turns that have the session's slot. */
  function Occupants(entry: Entry): set<Id> {
    (if entry.active.Some? then {entry.active.value} else {}) + entry.pending.Values
  }

  function Everywhere(p: Provider): set<Id> {
    p.starting + Occupants(p.entry) + p.declining + p.lost + p.entry.completed.Keys
  }

  /** No turn is in two places, and every turn anywhere was issued. */
  ghost predicate OnePlace(p: Provider) {
    && p.starting !! Occupants(p.entry) !! p.declining !! p.lost !! p.entry.completed.Keys
    && Everywhere(p) <= p.issued
  }

  ghost predicate ResultsOk(p: Provider) {
    && (forall t :: t in p.finishing ==> p.entry.active == Some(t) || t in p.entry.completed)
    && (forall t :: t in p.entry.completed ==> p.entry.completed[t].turnId == t)
  }

  ghost predicate Parked(p: Provider, call: Id)
    requires call in p.asked
  {
    call in WaitersOf(p.entry, p.asked[call])
  }

  ghost predicate HasResult(p: Provider, call: Id, result: TurnResult) {
    call in p.asked && p.asked[call] in p.entry.completed && result == p.entry.completed[p.asked[call]]
  }

  ghost predicate WaitersOk(p: Provider) {
    && (forall t, c :: t in p.entry.waiters && c in p.entry.waiters[t] ==> c in p.asked && p.asked[c] == t)
    && (forall t :: t in p.entry.waiters ==> t !in p.entry.completed)
    && (forall c :: c in p.checked ==> c in p.asked)
    && (forall c :: c in p.draining ==> HasResult(p, c, p.draining[c]))
    && (forall c :: c in p.returned ==> HasResult(p, c, p.returned[c]))
  }

  /** No wait call drops out of sight, and the turn it waits for is somewhere. */
  ghost predicate CallOk(p: Provider, call: Id)
    requires call in p.asked
  {
    && (call in p.checked || Parked(p, call) || call in p.draining || call in p.returned || call in p.gone)
    && p.asked[call] in Everywhere(p)
  }

  ghost predicate TableOk(p: Provider) {
    SlotOk(p.entry) && OnePlace(p) && ResultsOk(p)
  }

  ghost predicate WaitingOk(p: Provider) {
    WaitersOk(p) && forall c :: c in p.asked ==> CallOk(p, c)
  }

  ghost predicate Inv(p: Provider) {
    TableOk(p) && WaitingOk(p)
  }

  // ---- Each step keeps it ----

  /** Waiting is unaffected when no waiter, call or result changes and no turn disappears. */
  lemma WaitingStays(p: Provider, next: Provider)
    requires WaitingOk(p) && Everywhere(p) <= Everywhere(next)
    requires next.asked == p.asked && next.checked == p.checked && next.draining == p.draining
    requires next.returned == p.returned && p.gone <= next.gone
    requires next.entry.waiters == p.entry.waiters && next.entry.completed == p.entry.completed
    ensures WaitingOk(next)
  {
    forall c | c in next.asked ensures CallOk(next, c) {
      assert CallOk(p, c);
    }
  }

  lemma TableStays(p: Provider, next: Provider)
    requires TableOk(p) && next.entry.active == p.entry.active && next.entry.pending == p.entry.pending
    requires next.entry.completed == p.entry.completed && next.issued == p.issued && next.starting == p.starting
    requires next.declining == p.declining && next.lost == p.lost
    requires next.finishing == p.finishing
          || (p.entry.active.Some? && next.finishing == p.finishing + {p.entry.active.value})
    ensures TableOk(next) && Everywhere(next) == Everywhere(p)
  {
  }

  lemma SendKeeps(p: Provider, turn: Id, held: Option<Id>)
    requires Inv(p)
    ensures Inv(SendStep(p, turn, held))
  {
    var next := SendStep(p, turn, held);
    if turn !in p.issued {
      if !Busy(p.entry) {
        assert Occupants(p.entry) == {};
        if held.Some? {
          assert next.entry.pending[held.value] == turn;
          assert Occupants(next.entry) == {turn};
        }
      }
      WaitingStays(p, next);
    }
  }

  lemma ExecuteKeeps(p: Provider, turn: Id)
    requires Inv(p) && turn in p.starting
    ensures Inv(ExecuteStep(p, turn))
  {
    var next := ExecuteStep(p, turn);
    if !Busy(p.entry) {
      assert Occupants(p.entry) == {} && Occupants(next.entry) == {turn};
    }
    WaitingStays(p, next);
  }

  lemma CompleteFrees(entry: Entry, turn: Id, result: TurnResult)
    requires turn !in entry.completed
    ensures Occupants(Complete(entry, turn, result).0) == Occupants(entry) - {turn}
  {
    var next := Complete(entry, turn, result).0;
    forall t | t in entry.pending.Values && t != turn ensures t in next.pending.Values {
      var a :| a in entry.pending && entry.pending[a] == t;
      assert a in next.pending && next.pending[a] == t;
    }
  }

  lemma FinishTable(p: Provider, turn: Id, result: TurnResult)
    requires TableOk(p) && turn !in p.entry.completed
    requires (turn in p.finishing || turn in p.declining) && result.turnId == turn
    ensures TableOk(FinishStep(p, turn, result))
    ensures Everywhere(FinishStep(p, turn, result)) == Everywhere(p)
  {
    CompleteFrees(p.entry, turn, result);
    assert turn in Everywhere(p);
  }

  lemma FinishWaiting(p: Provider, turn: Id, result: TurnResult)
    requires WaitingOk(p) && turn !in p.entry.completed
    requires Everywhere(FinishStep(p, turn, result)) == Everywhere(p)
    ensures WaitingOk(FinishStep(p, turn, result))
  {
    hide Everywhere;
    var next := FinishStep(p, turn, result);
    FinishWaiters(p, turn, result);
    forall c | c in next.asked ensures CallOk(next, c) {
      hide WaitersOk;
      assert CallOk(p, c);
    }
  }

  lemma FinishWaiters(p: Provider, turn: Id, result: TurnResult)
    requires WaitersOk(p) && turn !in p.entry.completed
    ensures WaitersOk(FinishStep(p, turn, result))
  {
    var next := FinishStep(p, turn, result);
    DrainedHaveResult(p, turn, result);
    assert next.entry.waiters == p.entry.waiters - {turn};
    assert forall t :: t in p.entry.completed ==> next.entry.completed[t] == p.entry.completed[t];
    hide Complete, Drain;
  }

  /** Everyone drained waited for the turn that now has its result. */
  lemma DrainedHaveResult(p: Provider, turn: Id, result: TurnResult)
    requires WaitersOk(p) && turn !in p.entry.completed
    ensures
      var next := FinishStep(p, turn, result);
      forall c :: c in next.draining ==> HasResult(next, c, next.draining[c])
  {
  }

  lemma FinishKeeps(p: Provider, turn: Id, result: TurnResult)
    requires Inv(p) && (turn in p.finishing || turn in p.declining) && result.turnId == turn
    ensures Inv(FinishStep(p, turn, result))
  {
    if turn in p.entry.completed {
      assert p.declining - {turn} == p.declining;
      assert FinishStep(p, turn, result).draining == p.draining;
    } else {
      FinishTable(p, turn, result);
      FinishWaiting(p, turn, result);
    }
  }

  lemma RespondKeeps(p: Provider, approval: Id, turn: Id, decision: Decision)
    requires Inv(p) && approval in p.entry.pending && p.entry.pending[approval] == turn
    ensures Inv(RespondStep(p, approval, turn, decision))
  {
    var next := RespondStep(p, approval, turn, decision);
    assert next.entry.pending == map[];
    assert Occupants(next.entry) == {};
    assert Occupants(p.entry) == {turn} by {
      assert forall a :: a in p.entry.pending ==> a == approval;
    }
    WaitingStays(p, next);
  }

  lemma WaitCheckWaiters(p: Provider, call: Id, turn: Id)
    requires WaitersOk(p) && call !in p.asked
    ensures WaitersOk(WaitCheckStep(p, call, turn))
  {
    assert call !in p.checked && call !in p.draining && call !in p.returned;
    AskWaiters(p, call, turn);
  }

  lemma AskWaiters(p: Provider, call: Id, turn: Id)
    requires WaitersOk(p) && call !in p.asked && call !in p.draining && call !in p.returned
    ensures WaitersOk(p.(asked := p.asked[call := turn]))
  {
  }

  lemma WaitCheckCalls(p: Provider, next: Provider, call: Id, c: Id)
    requires WaitingOk(p) && c in p.asked && call !in p.asked
    requires next.asked.Keys == p.asked.Keys + {call} && next.asked[c] == p.asked[c]
    requires p.checked <= next.checked && p.returned.Keys <= next.returned.Keys
    requires next.entry == p.entry && next.draining == p.draining && next.gone == p.gone
    requires Everywhere(next) == Everywhere(p)
    ensures CallOk(next, c)
  {
    assert CallOk(p, c);
  }

  lemma WaitCheckWaiting(p: Provider, call: Id, turn: Id)
    requires WaitingOk(p) && call !in p.asked && Everywhere(WaitCheckStep(p, call, turn)) == Everywhere(p)
    ensures WaitingOk(WaitCheckStep(p, call, turn))
  {
    var next := WaitCheckStep(p, call, turn);
    WaitCheckWaiters(p, call, turn);
    if next != p {
      assert turn in Everywhere(p);
      forall c | c in next.asked && c != call ensures CallOk(next, c) {
        WaitCheckCalls(p, next, call, c);
      }
      assert CallOk(next, call);
    }
  }

  lemma WaitCheckKeeps(p: Provider, call: Id, turn: Id)
    requires Inv(p)
    ensures Inv(WaitCheckStep(p, call, turn))
  {
    TableStays(p, WaitCheckStep(p, call, turn));
    if call !in p.asked {
      WaitCheckWaiting(p, call, turn);
    }
  }

  lemma RegisterWaiting(p: Provider, call: Id)
    requires WaitingOk(p) && call in p.checked && call in p.asked
    requires Everywhere(RegisterStep(p, call)) == Everywhere(p)
    ensures WaitingOk(RegisterStep(p, call))
  {
    hide Everywhere;
    var next := RegisterStep(p, call);
    RegisterWaiters(p, call);
    forall c | c in next.asked ensures CallOk(next, c) {
      hide WaitersOk;
      assert CallOk(p, c);
    }
  }

  lemma RegisterWaiters(p: Provider, call: Id)
    requires WaitersOk(p) && call in p.checked && call in p.asked
    ensures WaitersOk(RegisterStep(p, call))
  {
  }

  lemma RegisterKeeps(p: Provider, call: Id)
    requires Inv(p) && call in p.checked && call in p.asked
    ensures Inv(RegisterStep(p, call))
  {
    TableStays(p, RegisterStep(p, call));
    RegisterWaiting(p, call);
  }

  lemma DeliverWaiting(p: Provider, call: Id)
    requires WaitingOk(p) && Everywhere(Take1(p, Deliver(call))) == Everywhere(p)
    ensures WaitingOk(Take1(p, Deliver(call)))
  {
    hide Everywhere;
    var next := Take1(p, Deliver(call));
    DeliverWaiters(p, call);
    forall c | c in next.asked ensures CallOk(next, c) {
      hide WaitersOk;
      assert CallOk(p, c);
    }
  }

  lemma DeliverWaiters(p: Provider, call: Id)
    requires WaitersOk(p)
    ensures WaitersOk(Take1(p, Deliver(call)))
  {
  }

  lemma DeliverKeeps(p: Provider, call: Id)
    requires Inv(p)
    ensures Inv(Take1(p, Deliver(call)))
  {
    TableStays(p, Take1(p, Deliver(call)));
    DeliverWaiting(p, call);
  }

  lemma StepKeeps(p: Provider, step: Step)
    requires Inv(p)
    ensures Inv(Take1(p, step))
  {
    match step
    case SendTurn(turn, held) => SendKeeps(p, turn, held);
    case Execute(turn) =>
      if turn in p.starting {
        ExecuteKeeps(p, turn);
      }
    case Finish(turn, status, detail) =>
      if turn in p.finishing || turn in p.declining {
        FinishKeeps(p, turn, TurnResult(turn, if turn in p.declining then Interrupted else status, detail));
      }
    case Respond(approval, turn, decision) =>
      if approval in p.entry.pending && p.entry.pending[approval] == turn {
        RespondKeeps(p, approval, turn, decision);
      }
    case WaitCheck(call, turn) => WaitCheckKeeps(p, call, turn);
    case WaitRegister(call) =>
      if call in p.checked && call in p.asked {
        RegisterKeeps(p, call);
      }
    case NoticeActive =>
      TableStays(p, Take1(p, step));
      WaitingStays(p, Take1(p, step));
    case Deliver(call) => DeliverKeeps(p, call);
    case GiveUp(_) =>
      TableStays(p, Take1(p, step));
      WaitingStays(p, Take1(p, step));
  }

  lemma {:induction false} RunKeeps(p: Provider, steps: seq<Step>)
    requires Inv(p)
    ensures Inv(Run(p, steps))
  {
    if steps != [] {
      RunKeeps(p, steps[..|steps| - 1]);
      StepKeeps(Run(p, steps[..|steps| - 1]), steps[|steps| - 1]);
    }
  }

  // ---- What the table promises ----

  lemma {:induction false} AtMostOneKey(m: map<Id, Id>)
    requires forall a, b :: a in m && b in m ==> a == b
    ensures |m| <= 1
  {
    if a :| a in m {
      assert m.Keys == {a};
    }
  }

  /** At most one turn is active or held by an approval, at any time. */
  lemma SlotIsExclusive(steps: seq<Step>)
    ensures
      var entry := Run(NewProvider(), steps).entry;
      (if entry.active.Some? then 1 else 0) + |entry.pending| <= 1
  {
    RunKeeps(NewProvider(), steps);
    AtMostOneKey(Run(NewProvider(), steps).entry.pending);
  }

  /** A stored result is never overwritten or removed. */
  lemma {:induction false} ResultsAreFinal(p: Provider, steps: seq<Step>, turn: Id)
    requires turn in p.entry.completed
    ensures
      var later := Run(p, steps);
      turn in later.entry.completed && later.entry.completed[turn] == p.entry.completed[turn]
  {
    if steps != [] {
      ResultsAreFinal(p, steps[..|steps| - 1], turn);
      hide Take1;
      ResultStays(Run(p, steps[..|steps| - 1]), steps[|steps| - 1], turn);
    }
  }

  lemma ResultStays(p: Provider, step: Step, turn: Id)
    requires turn in p.entry.completed
    ensures turn in Take1(p, step).entry.completed && Take1(p, step).entry.completed[turn] == p.entry.completed[turn]
  {
  }

  /**
  No wake-up is lost: once a turn has a result nothing is parked on it, every call that asked for
  it has the result or is about to, unless it timed out or is still before its second look, and
  whatever a call gets is exactly the stored result.
  */
  lemma NoLostWakeUp(steps: seq<Step>, call: Id)
    requires call in Run(NewProvider(), steps).asked
    ensures
      var p := Run(NewProvider(), steps);
      var turn := p.asked[call];
      && (turn in p.entry.completed ==>
            && turn !in p.entry.waiters
            && (call in p.checked || call in p.draining || call in p.returned || call in p.gone))
      && (call in p.draining ==> HasResult(p, call, p.draining[call]))
      && (call in p.returned ==> HasResult(p, call, p.returned[call]))
  {
    RunKeeps(NewProvider(), steps);
    assert CallOk(Run(NewProvider(), steps), call);
  }

  /** A parked call waits for a turn that is still on its way to a result, or for one that lost the slot. */
  lemma ParkedCallsWait(steps: seq<Step>, call: Id)
    requires call in Run(NewProvider(), steps).asked && Parked(Run(NewProvider(), steps), call)
    ensures
      var p := Run(NewProvider(), steps);
      var turn := p.asked[call];
      Holds(p.entry, turn) || turn in p.starting || turn in p.declining || turn in p.lost
  {
    RunKeeps(NewProvider(), steps);
    var p := Run(NewProvider(), steps);
    assert CallOk(p, call);
    assert p.asked[call] in p.entry.waiters;
  }

  /** A lost turn never gets a result, so a call parked on it can only time out. */
  lemma {:induction false} LostTurnsStayLost(p: Provider, steps: seq<Step>, turn: Id)
    requires Inv(p) && turn in p.lost
    ensures turn in Run(p, steps).lost && turn !in Run(p, steps).entry.completed
  {
    if steps == [] {
      assert TableOk(p);
    } else {
      hide Take1;
      LostTurnsStayLost(p, steps[..|steps| - 1], turn);
      LostStays(Run(p, steps[..|steps| - 1]), steps[|steps| - 1], turn);
      RunKeeps(p, steps);
      assert TableOk(Run(p, steps));
    }
  }

  lemma LostStays(p: Provider, step: Step, turn: Id)
    requires turn in p.lost
    ensures turn in Take1(p, step).lost
  {
  }

  // ---- Who gets the slot between an accepted approval and the start of its turn ----

  lemma {:induction false} RunJoin(p: Provider, front: seq<Step>, back: seq<Step>)
    ensures Run(p, front + back) == Run(Run(p, front), back)
  {
    if back == [] {
      assert front + back == front;
    } else {
      assert (front + back)[..|front + back| - 1] == front + back[..|back| - 1];
      RunJoin(p, front, back[..|back| - 1]);
    }
  }

  lemma Run1(p: Provider, step: Step)
    ensures Run(p, [step]) == Take1(p, step)
  {
    assert [step][..0] == [];
  }

  /** The steps by which a turn comes to hold the slot: it is started, or accepted and held for approval. */
  predicate TakesSlot(p: Provider, step: Step, turn: Id) {
    && !Busy(p.entry)
    && ((step == Execute(turn) && turn in p.starting)
        || (step.SendTurn? && step.turn == turn && step.held.Some? && turn !in p.issued))
  }

  lemma NewHolder(p: Provider, step: Step, turn: Id)
    requires !Holds(p.entry, turn) && Holds(Take1(p, step).entry, turn)
    ensures TakesSlot(p, step, turn)
  {
  }

  /** Some step of the run gave the slot to the turn, and the turn has held it ever since. */
  ghost predicate TookAndKept(p: Provider, steps: seq<Step>, turn: Id) {
    exists i :: 0 <= i < |steps| && TookAt(p, steps, turn, i)
  }

  ghost predicate TookAt(p: Provider, steps: seq<Step>, turn: Id, i: nat)
    requires i < |steps|
  {
    && TakesSlot(Run(p, steps[..i]), steps[i], turn)
    && forall k :: i < k <= |steps| ==> Holds(Run(p, steps[..k]).entry, turn)
  }

  lemma {:induction false} HolderTookSlot(p: Provider, steps: seq<Step>, turn: Id)
    requires !Holds(p.entry, turn) && Holds(Run(p, steps).entry, turn)
    ensures TookAndKept(p, steps, turn)
  {
    hide Take1, Holds, TakesSlot;
    var front := steps[..|steps| - 1];
    assert steps[..|steps|] == steps;
    if Holds(Run(p, front).entry, turn) {
      HolderTookSlot(p, front, turn);
      var i :| 0 <= i < |front| && TookAt(p, front, turn, i);
      assert front[..i] == steps[..i];
      forall k | i < k <= |steps| ensures Holds(Run(p, steps[..k]).entry, turn) {
        if k < |steps| {
          assert front[..k] == steps[..k];
        }
      }
      assert TookAt(p, steps, turn, i);
    } else {
      NewHolder(Run(p, front), steps[|steps| - 1], turn);
      assert TookAt(p, steps, turn, |steps| - 1);
    }
  }

  /** Only its own start takes a turn out of the starting ones. */
  lemma {:induction false} StartingStays(p: Provider, steps: seq<Step>, turn: Id)
    requires turn in p.starting && Execute(turn) !in steps
    ensures turn in Run(p, steps).starting
  {
    if steps != [] {
      StartingStays(p, steps[..|steps| - 1], turn);
      StartingStep(Run(p, steps[..|steps| - 1]), steps[|steps| - 1], turn);
      hide Take1;
    }
  }

  lemma StartingStep(p: Provider, step: Step, turn: Id)
    requires turn in p.starting && step != Execute(turn)
    ensures turn in Take1(p, step).starting
  {
  }

  /** An approval is accepted, other steps follow, and then its turn is started. */
  function AcceptAndStart(approval: Id, turn: Id, mid: seq<Step>): seq<Step> {
    [Respond(approval, turn, Accept)] + mid + [Execute(turn)]
  }

  lemma AcceptedTurnStarts(p: Provider, approval: Id, turn: Id, mid: seq<Step>)
    requires Inv(p) && approval in p.entry.pending && p.entry.pending[approval] == turn && Execute(turn) !in mid
    ensures
      var accepted := RespondStep(p, approval, turn, Accept);
      var q := Run(accepted, mid);
      && Inv(accepted) && !Busy(accepted.entry)
      && Inv(q) && turn in q.starting
      && Run(p, AcceptAndStart(approval, turn, mid)) == ExecuteStep(q, turn)
  {
    var accepted := RespondStep(p, approval, turn, Accept);
    RespondKeeps(p, approval, turn, Accept);
    assert accepted.entry.pending == map[];
    hide Inv, Busy;
    Run1(p, Respond(approval, turn, Accept));
    RunKeeps(accepted, mid);
    StartingStays(accepted, mid, turn);
    RunJoin(p, [Respond(approval, turn, Accept)], mid);
    RunJoin(p, [Respond(approval, turn, Accept)] + mid, [Execute(turn)]);
    Run1(Run(accepted, mid), Execute(turn));
  }

  lemma BusyHasHolder(entry: Entry)
    ensures Busy(entry) <==> exists turn :: Holds(entry, turn)
  {
    if entry.active.Some? {
      assert Holds(entry, entry.active.value);
    } else if a :| a in entry.pending {
      assert entry.pending[a] in entry.pending.Values;
      assert Holds(entry, entry.pending[a]);
    }
  }

  /** A starting turn does not hold the slot yet. */
  lemma StartingHoldsNothing(p: Provider, turn: Id)
    requires Inv(p) && turn in p.starting
    ensures !Holds(p.entry, turn) && turn !in p.lost
  {
    assert OnePlace(p);
    assert Holds(p.entry, turn) ==> turn in Occupants(p.entry);
  }

  /**
  An accepted turn loses the slot exactly when, between the acceptance and its start, another turn took
  the slot and still holds it; otherwise it becomes the active turn.
  */
  lemma AcceptedTurnIsLostExactlyWhen(p: Provider, approval: Id, turn: Id, mid: seq<Step>)
    requires Inv(p) && approval in p.entry.pending && p.entry.pending[approval] == turn && Execute(turn) !in mid
    ensures
      var accepted := RespondStep(p, approval, turn, Accept);
      var after := Run(p, AcceptAndStart(approval, turn, mid));
      && (turn in after.lost <==> exists other :: other != turn && TookAndKept(accepted, mid, other))
      && (turn !in after.lost <==> after.entry.active == Some(turn))
  {
    var accepted := RespondStep(p, approval, turn, Accept);
    AcceptedTurnStarts(p, approval, turn, mid);
    var q := Run(accepted, mid);
    StartingHoldsNothing(q, turn);
    BusyHasHolder(q.entry);
    BusyHasHolder(accepted.entry);
    hide Inv, Run, TakesSlot, AcceptAndStart, RespondStep, Holds;
    if other :| Holds(q.entry, other) {
      HolderTookSlot(accepted, mid, other);
    }
    if other :| other != turn && TookAndKept(accepted, mid, other) {
      KeptToTheEnd(accepted, mid, other);
    }
    assert Busy(q.entry) ==> q.entry.active != Some(turn) by {
      StillNotActive(q, turn);
    }
  }

  lemma StillNotActive(q: Provider, turn: Id)
    requires !Holds(q.entry, turn)
    ensures q.entry.active != Some(turn)
  {
  }

  lemma KeptToTheEnd(p: Provider, steps: seq<Step>, turn: Id)
    requires TookAndKept(p, steps, turn)
    ensures Holds(Run(p, steps).entry, turn)
  {
    assert steps[..|steps|] == steps;
    var i :| 0 <= i < |steps| && TookAt(p, steps, turn, i);
  }

  predicate Sends(steps: seq<Step>) {
    exists i :: 0 <= i < |steps| && steps[i].SendTurn?
  }

  lemma {:induction false} NothingElseStarts(p: Provider, mid: seq<Step>, turn: Id)
    requires p.starting <= {turn} && !Busy(p.entry) && Execute(turn) !in mid && !Sends(mid)
    ensures Run(p, mid).starting <= {turn} && !Busy(Run(p, mid).entry)
  {
    if mid != [] {
      var front, last := mid[..|mid| - 1], mid[|mid| - 1];
      assert forall i :: 0 <= i < |front| ==> front[i] == mid[i];
      assert last in mid && !last.SendTurn?;
      NothingElseStarts(p, front, turn);
      QuietSlot(Run(p, front), last, turn);
      hide Take1;
    }
  }

  lemma QuietSlot(p: Provider, step: Step, turn: Id)
    requires p.starting <= {turn} && !Busy(p.entry) && step != Execute(turn) && !step.SendTurn?
    ensures Take1(p, step).starting <= {turn} && !Busy(Take1(p, step).entry)
  {
  }

  /** In particular it keeps the slot when no other send is in flight at the response or arrives before its start. */
  lemma NoOverlapKeepsTheSlot(p: Provider, approval: Id, turn: Id, mid: seq<Step>)
    requires Inv(p) && approval in p.entry.pending && p.entry.pending[approval] == turn && Execute(turn) !in mid
    requires p.starting == {} && !Sends(mid)
    ensures Run(p, AcceptAndStart(approval, turn, mid)).entry.active == Some(turn)
  {
    AcceptedTurnStarts(p, approval, turn, mid);
    NothingElseStarts(RespondStep(p, approval, turn, Accept), mid, turn);
  }

  /** And it does lose it to any send that is new at the response and started first. */
  lemma OverlappingSendTakesTheSlot(p: Provider, approval: Id, turn: Id, other: Id)
    requires Inv(p) && approval in p.entry.pending && p.entry.pending[approval] == turn && other !in p.issued
    ensures turn in Run(p, AcceptAndStart(approval, turn, [SendTurn(other, None), Execute(other)])).lost
  {
    var accepted := RespondStep(p, approval, turn, Accept);
    var mid := [SendTurn(other, None), Execute(other)];
    assert OnePlace(p) && turn in Everywhere(p) && turn != other;
    AcceptedTurnStarts(p, approval, turn, mid);
    assert mid == [SendTurn(other, None)] + [Execute(other)];
    RunJoin(accepted, [SendTurn(other, None)], [Execute(other)]);
    Run1(accepted, SendTurn(other, None));
    Run1(Take1(accepted, SendTurn(other, None)), Execute(other));
  }
}
