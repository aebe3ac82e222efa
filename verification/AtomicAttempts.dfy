/** An attempt taken alone is one schedule of the machine's locked sections. */
module AtomicAttempts {
  import opened Wrappers
  import opened TeamIndex
  import opened TeamState
  import opened Injection
  import opened DeliveryMachine
  import opened DeliveryRuns
  import Calls = DeliveryCalls

  /** The task runs `k` sections in a row. */
  ghost function Drive(m: Machine, t: nat, env: Env, k: nat): Machine
    decreases k
  {
    if k == 0 then m else Drive(Take1(m, Advance(t, env)), t, env, k - 1)
  }

  function Advances(t: nat, env: Env, k: nat): seq<Step> {
    if k == 0 then [] else [Advance(t, env)] + Advances(t, env, k - 1)
  }

  lemma {:induction false} DriveIsRun(m: Machine, t: nat, env: Env, k: nat)
    ensures Run(m, Advances(t, env, k)) == Drive(m, t, env, k)
    decreases k
  {
    if k > 0 {
      RunAppend(m, [Advance(t, env)], Advances(t, env, k - 1));
      Run1(m, Advance(t, env));
      DriveIsRun(Take1(m, Advance(t, env)), t, env, k - 1);
    }
  }

  /** The task has returned, and left the state `s`. */
  ghost predicate Returned(m: Machine, after: Machine, t: nat, r: Id, s: State) {
    after.s == s && after.tasks == m.tasks - {t} && after.guards == m.guards - {r} && after.routes == m.routes
  }

  lemma {:induction false} IdleStays(m: Machine, t: nat, env: Env, k: nat)
    requires t !in m.tasks
    ensures Drive(m, t, env, k) == m
  {
    if k > 0 {
      IdleStays(m, t, env, k - 1);
    }
  }

  lemma FinishReturns(m: Machine, t: nat, env: Env, k: nat, r: Id, s: State, accepted: seq<Id>)
    requires k > 0 && Take1(m, Advance(t, env)) == Finish(m.(s := s, accepted := accepted), t, r)
    ensures Returned(m, Drive(m, t, env, k), t, r, s)
  {
    IdleStays(Take1(m, Advance(t, env)), t, env, k - 1);
  }

  /** One section at the same task, then on from there. */
  lemma Onward(m: Machine, t: nat, env: Env, k: nat, r: Id, s: State, mid: State, pc: Pc, accepted: seq<Id>)
    requires k > 0 && t in m.tasks && Take1(m, Advance(t, env)) == At(m.(s := mid, accepted := accepted), t, pc)
    requires Returned(At(m.(s := mid, accepted := accepted), t, pc), Drive(At(m.(s := mid, accepted := accepted), t, pc), t, env, k - 1), t, r, s)
    ensures Returned(m, Drive(m, t, env, k), t, r, s)
  {
    assert m.tasks[t := pc] - {t} == m.tasks - {t};
  }

  lemma StampingReturns(m: Machine, t: nat, env: Env, k: nat, id: Id, r: Id, turn: Id)
    requires k > 0 && t in m.tasks && m.tasks[t] == Stamping(id, r, turn)
    ensures Returned(m, Drive(m, t, env, k), t, r, Stamp(m.s, id, turn))
  {
    FinishReturns(m, t, env, k, r, Stamp(m.s, id, turn), m.accepted);
  }

  lemma MoveToState(w: Calls.World, d: Delivery, next: Status, strategy: Option<string>, code: Option<string>)
    ensures Calls.MoveTo(w, d, next, strategy, code).0.s == Transition(w.s, d, next, strategy, code).0
    ensures Calls.MoveTo(w, d, next, strategy, code).1 == Transition(w.s, d, next, strategy, code).1
  {
  }

  lemma WriteReturns(m: Machine, t: nat, env: Env, k: nat, d: Delivery, next: Status, code: Option<string>)
    requires k > 0 && Take1(m, Advance(t, env)) == WriteLast(m, t, d, next, code)
    ensures Returned(m, Drive(m, t, env, k), t, d.recipient, Transition(m.s, d, next, None, code).0)
  {
    FinishReturns(m, t, env, k, d.recipient, Transition(m.s, d, next, None, code).0, m.accepted);
  }

  /** What a write returns carries the id it was asked about. */
  lemma TransitionId(s: State, d: Delivery, next: Status, strategy: Option<string>)
    requires Transition(s, d, next, strategy, None).1.Ok? && (d.id in s.deliveries ==> s.deliveries[d.id].id == d.id)
    ensures Transition(s, d, next, strategy, None).1.value.id == d.id
  {
  }

  lemma SettlingReturns(m: Machine, t: nat, env: Env, k: nat, d: Delivery, answer: SendAnswer, w: Calls.World)
    requires k > 1 && t in m.tasks && m.tasks[t] == Settling(d, answer) && w.s == m.s
    requires d.id in m.s.deliveries ==> m.s.deliveries[d.id].id == d.id
    ensures Returned(m, Drive(m, t, env, k), t, d.recipient, Calls.Conclude(w, d, answer).0.s)
  {
    hide Transition;
    hide Calls.MoveTo;
    hide Stamp;
    assert Take1(m, Advance(t, env)) == Settle(m, t, Settling(d, answer));
    match answer {
      case Accepted(turn) =>
        var (s, r) := Transition(m.s, d, Injected, Some("runtime_send_turn"), None);
        MoveToState(w, d, Injected, Some("runtime_send_turn"), None);
        if r.Err? {
          FinishReturns(m, t, env, k, d.recipient, m.s, m.accepted);
          RefusedWrites(m.s, d, Injected, Some("runtime_send_turn"));
        } else {
          TransitionId(m.s, d, Injected, Some("runtime_send_turn"));
          var next := At(m.(s := s), t, Stamping(d.id, d.recipient, turn));
          StampingReturns(next, t, env, k - 1, d.id, d.recipient, turn);
          Onward(m, t, env, k, d.recipient, Stamp(s, d.id, turn), s, Stamping(d.id, d.recipient, turn), m.accepted);
        }
      case OwnershipRejected =>
        MoveToState(w, d, Deferred, None, Some("turn_ownership_rejected"));
        WriteReturns(m, t, env, k, d, Deferred, Some("turn_ownership_rejected"));
      case ProviderRejected =>
        MoveToState(w, d, Failed, None, Some("provider_rejected"));
        WriteReturns(m, t, env, k, d, Failed, Some("provider_rejected"));
    }
  }

  /** A refused write changes nothing. */
  lemma RefusedWrites(s: State, d: Delivery, next: Status, strategy: Option<string>)
    requires Transition(s, d, next, strategy, None).1.Err?
    ensures Transition(s, d, next, strategy, None).0 == s
  {
  }

  lemma SendingReturns(m: Machine, t: nat, env: Env, k: nat, d: Delivery, w: Calls.World)
    requires k > 2 && t in m.tasks && m.tasks[t] == Sending(d) && w.s == m.s
    requires d.id in m.s.deliveries ==> m.s.deliveries[d.id].id == d.id
    ensures Returned(m, Drive(m, t, env, k), t, d.recipient, Calls.Conclude(w, d, env.send).0.s)
  {
    hide Calls.Conclude;
    var accepted := SendTurn(m, t, d, env.send).accepted;
    var next := At(m.(accepted := accepted), t, Settling(d, env.send));
    assert Take1(m, Advance(t, env)) == next;
    SettlingReturns(next, t, env, k - 1, d, env.send, w);
    Onward(m, t, env, k, d.recipient, Calls.Conclude(w, d, env.send).0.s, m.s, Settling(d, env.send), accepted);
  }

  /** A claim of a live record returns a live record of the same route. */
  lemma ClaimResult(s: State, d: Delivery)
    requires d.id in s.deliveries && s.deliveries[d.id] == d && Transition(s, d, Injecting, None, None).1.Ok?
    ensures
      var (after, r) := Transition(s, d, Injecting, None, None);
      SameRoute(r.value, d) && d.id in after.deliveries && after.deliveries[d.id].id == d.id
  {
  }

  lemma ClaimingReturns(m: Machine, t: nat, env: Env, k: nat, d: Delivery, w: Calls.World)
    requires k > 3 && t in m.tasks && m.tasks[t] == Claiming(d) && w.s == m.s
    requires d.id in m.s.deliveries && m.s.deliveries[d.id] == d
    ensures Returned(m, Drive(m, t, env, k), t, d.recipient, Calls.ClaimAndSend(w, d, env.send).0.s)
  {
    hide Transition;
    hide Calls.Conclude;
    hide Calls.MoveTo;
    var (s, r) := Transition(m.s, d, Injecting, None, None);
    MoveToState(w, d, Injecting, None, None);
    assert Take1(m, Advance(t, env)) == Claim(m, t, d);
    if r.Err? {
      RefusedWrites(m.s, d, Injecting, None);
      FinishReturns(m, t, env, k, d.recipient, m.s, m.accepted);
    } else {
      ClaimResult(m.s, d);
      var next := At(m.(s := s), t, Sending(r.value));
      var w1 := Calls.MoveTo(w, d, Injecting, None, None).0;
      SendingReturns(next, t, env, k - 1, r.value, w1);
      Onward(m, t, env, k, d.recipient, Calls.Conclude(w1, r.value, env.send).0.s, s, Sending(r.value), m.accepted);
    }
  }

  lemma MovingReturns(m: Machine, t: nat, env: Env, k: nat, d: Delivery, next: Status, code: Option<string>)
    requires k > 0 && t in m.tasks && m.tasks[t] == Moving(d, next, code)
    ensures Returned(m, Drive(m, t, env, k), t, d.recipient, Transition(m.s, d, next, None, code).0)
  {
    WriteReturns(m, t, env, k, d, next, code);
  }

  /** The part of an attempt after the queue was found clear. */
  function Decided(w: Calls.World, d: Delivery, msg: Message, trigger: Trigger, env: Env): State {
    match Decide(d, msg, trigger, env)
    case Stop => w.s
    case Move(next, code) => Transition(w.s, d, next, None, code).0
    case Proceed => Calls.ClaimAndSend(w, d, env.send).0.s
  }

  lemma ClearReturns(m: Machine, t: nat, env: Env, k: nat, d: Delivery, msg: Message, trigger: Trigger, w: Calls.World)
    requires k > 4 && t in m.tasks && m.tasks[t] == Clear(d, msg, trigger) && w.s == m.s
    requires d.id in m.s.deliveries && m.s.deliveries[d.id] == d
    ensures Returned(m, Drive(m, t, env, k), t, d.recipient, Decided(w, d, msg, trigger, env))
  {
    hide Transition;
    hide Calls.ClaimAndSend;
    assert Take1(m, Advance(t, env)) == Choose(m, t, Clear(d, msg, trigger), env);
    match Decide(d, msg, trigger, env) {
      case Stop => FinishReturns(m, t, env, k, d.recipient, m.s, m.accepted);
      case Move(next, code) =>
        MovingReturns(At(m, t, Moving(d, next, code)), t, env, k - 1, d, next, code);
        Onward(m, t, env, k, d.recipient, Transition(m.s, d, next, None, code).0, m.s, Moving(d, next, code), m.accepted);
      case Proceed =>
        ClaimingReturns(At(m, t, Claiming(d)), t, env, k - 1, d, w);
        Onward(m, t, env, k, d.recipient, Calls.ClaimAndSend(w, d, env.send).0.s, m.s, Claiming(d), m.accepted);
    }
  }

  /** The part of an attempt after the record was found open. */
  function Looked(w: Calls.World, d: Delivery, msg: Message, trigger: Trigger, env: Env): State {
    if Blocker(w.s, d).None? then Decided(w, d, msg, trigger, env)
    else if d.status.Pending? then Transition(w.s, d, Deferred, None, None).0
    else w.s
  }

  lemma LookingReturns(m: Machine, t: nat, env: Env, k: nat, d: Delivery, msg: Message, trigger: Trigger, w: Calls.World)
    requires k > 5 && t in m.tasks && m.tasks[t] == Looking(d, msg, trigger) && w.s == m.s
    requires d.id in m.s.deliveries && m.s.deliveries[d.id] == d
    ensures Returned(m, Drive(m, t, env, k), t, d.recipient, Looked(w, d, msg, trigger, env))
  {
    hide Transition;
    hide Decided;
    assert Take1(m, Advance(t, env)) == LookAhead(m, t, Looking(d, msg, trigger));
    if Blocker(m.s, d).None? {
      ClearReturns(At(m, t, Clear(d, msg, trigger)), t, env, k - 1, d, msg, trigger, w);
      Onward(m, t, env, k, d.recipient, Decided(w, d, msg, trigger, env), m.s, Clear(d, msg, trigger), m.accepted);
    } else if d.status.Pending? {
      MovingReturns(At(m, t, Moving(d, Deferred, None)), t, env, k - 1, d, Deferred, None);
      Onward(m, t, env, k, d.recipient, Transition(m.s, d, Deferred, None, None).0, m.s, Moving(d, Deferred, None), m.accepted);
    } else {
      FinishReturns(m, t, env, k, d.recipient, m.s, m.accepted);
    }
  }

  /** The call, read along the sections. */
  lemma InjectBySections(w: Calls.World, id: Id, trigger: Trigger, env: Env)
    requires id in w.s.deliveries
    ensures
      var d := w.s.deliveries[id];
      Calls.Inject(w, id, trigger, env).0.s
      == if d.message !in w.s.messages || !IsOpen(d.status) then w.s
         else Looked(w, d, w.s.messages[d.message], trigger, env)
  {
    hide Transition;
    hide Calls.ClaimAndSend;
    hide Calls.MoveTo;
    hide Blocker;
    var d := w.s.deliveries[id];
    MoveToState(w, d, Deferred, None, None);
    if d.message in w.s.messages {
      match Decide(d, w.s.messages[d.message], trigger, env) {
        case Move(next, code) => MoveToState(w, d, next, None, code);
        case _ =>
      }
    }
  }

  lemma LockedReturns(m: Machine, t: nat, env: Env, k: nat, id: Id, trigger: Trigger, w: Calls.World)
    requires k > 6 && t in m.tasks && id in m.s.deliveries && m.tasks[t] == Locked(id, m.s.deliveries[id].recipient, trigger)
    requires w.s == m.s && m.s.deliveries[id].id == id
    ensures Returned(m, Drive(m, t, env, k), t, m.s.deliveries[id].recipient, Calls.Inject(w, id, trigger, env).0.s)
  {
    hide Calls.Inject;
    hide Looked;
    var d := m.s.deliveries[id];
    InjectBySections(w, id, trigger, env);
    assert Take1(m, Advance(t, env)) == LookUp(m, t, Locked(id, d.recipient, trigger));
    if d.message !in m.s.messages || !IsOpen(d.status) {
      FinishReturns(m, t, env, k, d.recipient, m.s, m.accepted);
    } else {
      var msg := m.s.messages[d.message];
      LookingReturns(At(m, t, Looking(d, msg, trigger)), t, env, k - 1, d, msg, trigger, w);
      Onward(m, t, env, k, d.recipient, Looked(w, d, msg, trigger, env), m.s, Looking(d, msg, trigger), m.accepted);
    }
  }

  /** An attempt from its spawning to its return, with no other step in between. */
  function WholeAttempt(t: nat, id: Id, trigger: Trigger, env: Env, k: nat): seq<Step> {
    [Spawn(t, id, trigger), Acquire(t)] + Advances(t, env, k)
  }

  /** The machine with an attempt just past its guard. */
  function Entering(m: Machine, t: nat, id: Id, r: Id, trigger: Trigger): Machine {
    m.(tasks := m.tasks[t := Locked(id, r, trigger)], guards := m.guards[r := t])
  }

  lemma EnteringReturns(m: Machine, t: nat, id: Id, r: Id, trigger: Trigger, after: Machine, s: State)
    requires t !in m.tasks && r !in m.guards && Returned(Entering(m, t, id, r, trigger), after, t, r, s)
    ensures after.s == s && after.tasks == m.tasks && after.guards == m.guards && after.routes == m.routes
  {
  }

  /**
  The call and its sections agree: run without interruption, the sections of an attempt, of which
  there are at most seven, end in the state the call computes, with the table and the guards as they
  were.
  */
  lemma CallsAreSchedules(m: Machine, t: nat, id: Id, trigger: Trigger, env: Env, w: Calls.World, k: nat)
    requires RepInv(m.s) && id in m.s.deliveries && t !in m.tasks && m.s.deliveries[id].recipient !in m.guards && w.s == m.s
    requires k >= 7
    ensures
      var after := Run(m, WholeAttempt(t, id, trigger, env, k));
      && after.s == Calls.Inject(w, id, trigger, env).0.s
      && after.tasks == m.tasks && after.guards == m.guards && after.routes == m.routes
  {
    var r := m.s.deliveries[id].recipient;
    var locked := Entering(m, t, id, r, trigger);
    assert m.s.deliveries[id].id == id by {
      assert LinksOk(m.s);
    }
    hide RepInv, Take1, Drive, Advances, Run;
    hide Calls.Inject;
    Entered(m, t, id, trigger);
    LockedReturns(locked, t, env, k, id, trigger, w);
    DriveIsRun(locked, t, env, k);
    RunAppend(m, [Spawn(t, id, trigger), Acquire(t)], Advances(t, env, k));
    EnteringReturns(m, t, id, r, trigger, Drive(locked, t, env, k), Calls.Inject(w, id, trigger, env).0.s);
  }

  lemma Entered(m: Machine, t: nat, id: Id, trigger: Trigger)
    requires id in m.s.deliveries && t !in m.tasks && m.s.deliveries[id].recipient !in m.guards
    ensures Run(m, [Spawn(t, id, trigger), Acquire(t)]) == Entering(m, t, id, m.s.deliveries[id].recipient, trigger)
  {
    hide Run;
    var r := m.s.deliveries[id].recipient;
    Run2(m, Spawn(t, id, trigger), Acquire(t));
    assert Take1(m, Spawn(t, id, trigger)) == At(m, t, Waiting(id, r, trigger));
    assert m.tasks[t := Waiting(id, r, trigger)][t := Locked(id, r, trigger)] == m.tasks[t := Locked(id, r, trigger)];
  }
}
