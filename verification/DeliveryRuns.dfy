/**
What every run of the delivery machine keeps, whatever the interleaving: the representation
invariant, one task per recipient past the guard, and the status graph of deliveries.
*/
module DeliveryRuns {
  import opened Wrappers
  import opened TeamIndex
  import opened TeamState
  import opened Injection
  import opened DeliveryMachine

  /** What a task may rely on about the live records. */
  ghost predicate PcOk(s: State, pc: Pc) {
    match pc
    case Waiting(_, _, _) => true
    case Locked(_, _, _) => true
    case Looking(d, _, _) => Unclaimed(s, d)
    case Clear(d, _, _) => Unclaimed(s, d)
    case Moving(d, next, _) => Unclaimed(s, d) && (next.Deferred? || next.Failed?)
    case Claiming(d) => Unclaimed(s, d)
    case Sending(d) => Claimed(s, d)
    case Settling(d, _) => Claimed(s, d)
    case Stamping(id, _, _) => id in s.deliveries ==> s.deliveries[id].status.Injected?
  }

  /** An open snapshot; meanwhile the delivery may have been cancelled, retried or dropped. */
  ghost predicate Unclaimed(s: State, d: Delivery) {
    && IsOpen(d.status)
    && (d.id in s.deliveries ==> IsOpen(s.deliveries[d.id].status) || s.deliveries[d.id].status.Cancelled?)
  }

  /** What a claim returned: the injecting record, or the live one when the write lost its race. */
  ghost predicate Claimed(s: State, d: Delivery) {
    && (d.status.Injecting? || IsOpen(d.status) || d.status.Cancelled?)
    && (d.status.Injecting? && d.id in s.deliveries ==> s.deliveries[d.id].status.Injecting?)
  }

  /** A task knows its delivery's recipient, and past `Waiting` it is the holder of that recipient's guard. */
  ghost predicate TaskOk(m: Machine, t: nat)
    requires t in m.tasks
  {
    var pc := m.tasks[t];
    && Subject(pc) in m.routes && m.routes[Subject(pc)] == Recipient(pc)
    && (!pc.Waiting? ==> Recipient(pc) in m.guards && m.guards[Recipient(pc)] == t)
    && PcOk(m.s, pc)
  }

  ghost predicate Base(m: Machine) {
    && RepInv(m.s) && RoutesOk(m.s, m.routes) && AllClean(m.s)
    && forall t :: t in m.tasks ==> TaskOk(m, t)
  }

  /** No calls in flight: clean records that satisfy the representation invariant. */
  ghost predicate Start(m: Machine) {
    RepInv(m.s) && RoutesOk(m.s, m.routes) && AllClean(m.s) && m.tasks == map[] && m.accepted == []
  }

  /** The task a step advances, if it does. */
  predicate Runs(m: Machine, step: Step, t: nat) {
    step.Advance? && step.task == t && t in m.tasks && !m.tasks[t].Waiting?
  }

  function Mover(m: Machine, step: Step): Option<Id> {
    if step.Advance? && Runs(m, step, step.task) then Some(Recipient(m.tasks[step.task])) else None
  }

  function RetriedBy(step: Step): Option<Id> {
    if step.RetryDelivery? then Some(step.id) else None
  }

  // ---- One section of a task ----

  lemma SubjectIsRouted(m: Machine, t: nat)
    requires RoutesOk(m.s, m.routes) && t in m.tasks && TaskOk(m, t)
    ensures Subject(m.tasks[t]) in m.s.deliveries ==>
              m.s.deliveries[Subject(m.tasks[t])].recipient == Recipient(m.tasks[t])
  {
  }

  lemma NextChanges(m: Machine, t: nat, env: Env)
    requires RoutesOk(m.s, m.routes) && t in m.tasks && TaskOk(m, t) && !m.tasks[t].Waiting?
    ensures Changes(m.s, Next(m, t, m.tasks[t], env).s, m.routes, Some(Recipient(m.tasks[t])), None)
  {
    var pc := m.tasks[t];
    SubjectIsRouted(m, t);
    NothingChanges(m.s, m.s, m.routes, Some(Recipient(pc)), None);
    hide Changes, RoutesOk, Decide, Blocker;
    match pc {
      case Moving(d, next, code) => TransitionChanges(m.s, d, next, None, code, m.routes);
      case Claiming(d) => TransitionChanges(m.s, d, Injecting, None, None, m.routes);
      case Settling(d, Accepted(_)) => TransitionChanges(m.s, d, Injected, Some("runtime_send_turn"), None, m.routes);
      case Settling(d, OwnershipRejected) =>
        TransitionChanges(m.s, d, Deferred, None, Some("turn_ownership_rejected"), m.routes);
      case Settling(d, ProviderRejected) => TransitionChanges(m.s, d, Failed, None, Some("provider_rejected"), m.routes);
      case Stamping(id, recipient, turn) => StampChanges(m.s, id, turn, m.routes, Some(recipient));
      case _ =>
    }
  }

  lemma NextKeepsRep(m: Machine, t: nat, env: Env)
    requires RepInv(m.s) && t in m.tasks && !m.tasks[t].Waiting?
    ensures RepInv(Next(m, t, m.tasks[t], env).s)
  {
    hide RepInv, Transition, Stamp;
    match m.tasks[t] {
      case Moving(d, next, code) => TransitionKeeps(m.s, d, next, None, code);
      case Claiming(d) => TransitionKeeps(m.s, d, Injecting, None, None);
      case Settling(d, Accepted(_)) => TransitionKeeps(m.s, d, Injected, Some("runtime_send_turn"), None);
      case Settling(d, OwnershipRejected) => TransitionKeeps(m.s, d, Deferred, None, Some("turn_ownership_rejected"));
      case Settling(d, ProviderRejected) => TransitionKeeps(m.s, d, Failed, None, Some("provider_rejected"));
      case Stamping(id, recipient, turn) => StampKeeps(m.s, id, turn);
      case _ =>
    }
  }

  lemma TransitionClean(s: State, d: Delivery, next: Status, strategy: Option<string>, code: Option<string>)
    requires AllClean(s)
    ensures AllClean(Transition(s, d, next, strategy, code).0)
  {
  }

  lemma NextClean(m: Machine, t: nat, env: Env)
    requires AllClean(m.s) && t in m.tasks && TaskOk(m, t) && !m.tasks[t].Waiting?
    ensures AllClean(Next(m, t, m.tasks[t], env).s)
  {
    match m.tasks[t] {
      case Moving(d, next, code) => TransitionClean(m.s, d, next, None, code);
      case Claiming(d) => TransitionClean(m.s, d, Injecting, None, None);
      case Settling(d, Accepted(_)) => TransitionClean(m.s, d, Injected, Some("runtime_send_turn"), None);
      case Settling(d, OwnershipRejected) => TransitionClean(m.s, d, Deferred, None, Some("turn_ownership_rejected"));
      case Settling(d, ProviderRejected) => TransitionClean(m.s, d, Failed, None, Some("provider_rejected"));
      case _ =>
    }
  }

  /** From `m` to `next`, the table and the guards differ at most at task `t` and recipient `r`. */
  ghost predicate Framed(m: Machine, next: Machine, t: nat, r: Id) {
    && next.routes == m.routes && next.tasks.Keys <= m.tasks.Keys
    && (forall u :: u in m.tasks && u != t ==> u in next.tasks && next.tasks[u] == m.tasks[u])
    && (forall x :: x in m.guards && x != r ==> x in next.guards && next.guards[x] == m.guards[x])
    && (t in next.tasks ==> next.guards == m.guards)
  }

  /** Every section of a task ends by moving it on under its guard, or by dropping task and guard. */
  ghost predicate MovesOn(m: Machine, next: Machine, t: nat, r: Id) {
    next == Finish(m.(s := next.s, accepted := next.accepted), t, r)
    || exists pc :: next == At(m.(s := next.s, accepted := next.accepted), t, pc)
  }

  lemma MovesOnIsFramed(m: Machine, next: Machine, t: nat, r: Id)
    requires t in m.tasks && MovesOn(m, next, t, r)
    ensures Framed(m, next, t, r)
  {
  }

  lemma Moves(m: Machine, s: State, accepted: seq<Id>, t: nat, r: Id, pc: Pc)
    ensures MovesOn(m, At(m.(s := s, accepted := accepted), t, pc), t, r)
  {
    var next := At(m.(s := s, accepted := accepted), t, pc);
    assert next == At(m.(s := next.s, accepted := next.accepted), t, pc);
  }

  lemma LookUpMoves(m: Machine, t: nat, pc: Pc)
    requires pc.Locked?
    ensures MovesOn(m, LookUp(m, t, pc), t, pc.recipient)
  {
    if pc.id in m.s.deliveries && m.s.deliveries[pc.id].message in m.s.messages && IsOpen(m.s.deliveries[pc.id].status) {
      var d := m.s.deliveries[pc.id];
      Moves(m, m.s, m.accepted, t, pc.recipient, Looking(d, m.s.messages[d.message], pc.trigger));
    }
  }

  lemma LookAheadMoves(m: Machine, t: nat, pc: Pc)
    requires pc.Looking?
    ensures MovesOn(m, LookAhead(m, t, pc), t, pc.d.recipient)
  {
    Moves(m, m.s, m.accepted, t, pc.d.recipient, Clear(pc.d, pc.m, pc.trigger));
    Moves(m, m.s, m.accepted, t, pc.d.recipient, Moving(pc.d, Deferred, None));
  }

  lemma ChooseMoves(m: Machine, t: nat, pc: Pc, env: Env)
    requires pc.Clear?
    ensures MovesOn(m, Choose(m, t, pc, env), t, pc.d.recipient)
  {
    match Decide(pc.d, pc.m, pc.trigger, env) {
      case Stop =>
      case Move(next, code) => Moves(m, m.s, m.accepted, t, pc.d.recipient, Moving(pc.d, next, code));
      case Proceed => Moves(m, m.s, m.accepted, t, pc.d.recipient, Claiming(pc.d));
    }
  }

  lemma ClaimMoves(m: Machine, t: nat, d: Delivery)
    ensures MovesOn(m, Claim(m, t, d), t, d.recipient)
  {
    var (s, r) := Transition(m.s, d, Injecting, None, None);
    if r.Ok? {
      Moves(m, s, m.accepted, t, d.recipient, Sending(r.value));
    }
  }

  lemma SettleMoves(m: Machine, t: nat, pc: Pc)
    requires pc.Settling?
    ensures MovesOn(m, Settle(m, t, pc), t, pc.d.recipient)
  {
    if pc.answer.Accepted? {
      var (s, r) := Transition(m.s, pc.d, Injected, Some("runtime_send_turn"), None);
      Moves(m, s, m.accepted, t, pc.d.recipient, Stamping(pc.d.id, pc.d.recipient, pc.answer.turn));
    }
  }

  lemma NextFrame(m: Machine, t: nat, env: Env)
    requires t in m.tasks && !m.tasks[t].Waiting?
    ensures Framed(m, Next(m, t, m.tasks[t], env), t, Recipient(m.tasks[t]))
  {
    var pc := m.tasks[t];
    match pc {
      case Locked(_, _, _) => LookUpMoves(m, t, pc);
      case Looking(_, _, _) => LookAheadMoves(m, t, pc);
      case Clear(_, _, _) => ChooseMoves(m, t, pc, env);
      case Moving(_, _, _) =>
      case Claiming(d) => ClaimMoves(m, t, d);
      case Sending(d) =>
        Moves(m, m.s, SendTurn(m, t, d, env.send).accepted, t, d.recipient, Settling(d, env.send));
      case Settling(_, _) => SettleMoves(m, t, pc);
      case Stamping(_, _, _) =>
    }
    MovesOnIsFramed(m, Next(m, t, pc, env), t, Recipient(pc));
  }

  /** A place an attempt may go on to from `was`. */
  ghost predicate Follows(s: State, was: Pc, pc: Pc) {
    Subject(pc) == Subject(was) && Recipient(pc) == Recipient(was) && !pc.Waiting? && PcOk(s, pc)
  }

  lemma ClaimFollows(m: Machine, t: nat, d: Delivery)
    requires RoutesOk(m.s, m.routes) && Unclaimed(m.s, d)
    requires d.id in m.s.deliveries ==> m.s.deliveries[d.id].recipient == d.recipient
    requires t in Claim(m, t, d).tasks
    ensures Follows(Claim(m, t, d).s, Claiming(d), Claim(m, t, d).tasks[t])
  {
  }

  lemma SettleFollows(m: Machine, t: nat, pc: Pc)
    requires pc.Settling? && Claimed(m.s, pc.d) && t in Settle(m, t, pc).tasks
    ensures Follows(Settle(m, t, pc).s, pc, Settle(m, t, pc).tasks[t])
  {
    if pc.answer.Accepted? {
      var (s, r) := Transition(m.s, pc.d, Injected, Some("runtime_send_turn"), None);
      assert r.Ok?;
      assert pc.d.status.Injecting?;
    }
  }

  /** What the running task goes on to, it goes on to correctly. */
  lemma NextFollows(m: Machine, t: nat, env: Env)
    requires RoutesOk(m.s, m.routes) && t in m.tasks && TaskOk(m, t) && !m.tasks[t].Waiting?
    requires t in Next(m, t, m.tasks[t], env).tasks
    ensures Follows(Next(m, t, m.tasks[t], env).s, m.tasks[t], Next(m, t, m.tasks[t], env).tasks[t])
  {
    var pc := m.tasks[t];
    SubjectIsRouted(m, t);
    match pc {
      case Claiming(d) => ClaimFollows(m, t, d);
      case Settling(_, _) => SettleFollows(m, t, pc);
      case _ =>
    }
  }

  lemma NextTaskOk(m: Machine, t: nat, env: Env)
    requires RoutesOk(m.s, m.routes) && t in m.tasks && TaskOk(m, t) && !m.tasks[t].Waiting?
    requires t in Next(m, t, m.tasks[t], env).tasks
    ensures TaskOk(Next(m, t, m.tasks[t], env), t)
  {
    NextFollows(m, t, env);
    NextFrame(m, t, env);
  }

  /** The one record a section may write. */
  lemma NextWrites(m: Machine, t: nat, env: Env)
    requires t in m.tasks && !m.tasks[t].Waiting?
    ensures
      var after := Next(m, t, m.tasks[t], env).s;
      match m.tasks[t]
      case Moving(r, next, code) => after == Transition(m.s, r, next, None, code).0
      case Claiming(r) => after == m.s || after == Transition(m.s, r, Injecting, None, None).0
      case Settling(r, Accepted(_)) => after == m.s || after == Transition(m.s, r, Injected, Some("runtime_send_turn"), None).0
      case Settling(r, OwnershipRejected) => after == Transition(m.s, r, Deferred, None, Some("turn_ownership_rejected")).0
      case Settling(r, ProviderRejected) => after == Transition(m.s, r, Failed, None, Some("provider_rejected")).0
      case Stamping(id, _, turn) => after == Stamp(m.s, id, turn)
      case _ => after == m.s
  {
    hide Transition, Stamp, Blocker, Decide;
  }

  lemma TransitionWrites(s: State, r: Delivery, next: Status, strategy: Option<string>, code: Option<string>, d: Id)
    requires d in s.deliveries
    ensures
      var after := Transition(s, r, next, strategy, code).0.deliveries;
      d in after && (after[d] == s.deliveries[d] || (d == r.id && after[d].status == next))
  {
    var after := Transition(s, r, next, strategy, code).0;
    if after != s {
      assert after.deliveries == s.deliveries[r.id := Moved(s.deliveries[r.id], next, strategy, code)];
    }
  }

  /** A write that finds the status it expects takes effect. */
  lemma TransitionResult(s: State, d: Delivery, next: Status, strategy: Option<string>, code: Option<string>)
    requires d.id in s.deliveries && IsValidTransition(d.status, next) && s.deliveries[d.id].status == d.status
    ensures
      var (after, r) := Transition(s, d, next, strategy, code);
      d.id in after.deliveries && after.deliveries[d.id].status == next && r.Ok? && r.value.status == next
  {
  }

  /** A section writes no record but its own delivery's. */
  lemma OthersUntouched(m: Machine, t: nat, env: Env, d: Id)
    requires t in m.tasks && !m.tasks[t].Waiting? && d in m.s.deliveries && Subject(m.tasks[t]) != d
    ensures
      var after := Next(m, t, m.tasks[t], env).s.deliveries;
      d in after && after[d] == m.s.deliveries[d]
  {
    NextWrites(m, t, env);
    hide Transition, Next;
    match m.tasks[t] {
      case Moving(r, next, code) => TransitionWrites(m.s, r, next, None, code, d);
      case Claiming(r) => TransitionWrites(m.s, r, Injecting, None, None, d);
      case Settling(r, Accepted(_)) => TransitionWrites(m.s, r, Injected, Some("runtime_send_turn"), None, d);
      case Settling(r, OwnershipRejected) => TransitionWrites(m.s, r, Deferred, None, Some("turn_ownership_rejected"), d);
      case Settling(r, ProviderRejected) => TransitionWrites(m.s, r, Failed, None, Some("provider_rejected"), d);
      case _ =>
    }
  }

  // ---- One step ----

  lemma TaskIsOk(m: Machine, t: nat)
    requires Base(m) && t in m.tasks
    ensures TaskOk(m, t) && RoutesOk(m.s, m.routes)
  {
  }

  /** A step that advances no task leaves every task and holder where it was. */
  lemma CallFrame(m: Machine, step: Step)
    requires !step.Advance?
    ensures
      var next := Take1(m, step);
      && next.accepted == m.accepted
      && (forall t :: t in m.tasks && !m.tasks[t].Waiting? ==> t in next.tasks && next.tasks[t] == m.tasks[t])
      && (forall t :: t in next.tasks && t !in m.tasks ==> next.tasks[t].Waiting?)
      && (forall t :: t in m.tasks && t in next.tasks && next.tasks[t] != m.tasks[t] ==>
            next.tasks[t].Locked? && Subject(next.tasks[t]) == Subject(m.tasks[t]))
      && (forall r :: r in m.guards ==> r in next.guards && next.guards[r] == m.guards[r])
  {
  }

  /** The steps that leave every delivery and every queue alone. */
  predicate LeavesDeliveries(step: Step) {
    step.NewTeam? || step.Join? || step.Leave? || step.Lead? || step.Spawn? || step.Acquire?
  }

  lemma DeliveriesLeft(m: Machine, step: Step)
    requires LeavesDeliveries(step)
    ensures Take1(m, step).s.deliveries == m.s.deliveries && Take1(m, step).s.recipientDeliveries == m.s.recipientDeliveries
  {
  }

  lemma CreateStep(m: Machine, step: Step)
    requires step.Create?
    ensures Take1(m, step) == m || (Grows(m.s, Take1(m, step).s, step.ids) && NewIds(m, step.message, step.ids))
  {
    if Take1(m, step) != m {
      CreateGrows(m.s, step.team, step.admitted, step.message, step.ids, step.body);
    }
  }

  lemma QuietChanges(m: Machine, step: Step)
    requires LeavesDeliveries(step)
    ensures Changes(m.s, Take1(m, step).s, m.routes, None, None)
  {
    hide Changes;
    DeliveriesLeft(m, step);
    NothingChanges(m.s, Take1(m, step).s, m.routes, None, None);
  }

  lemma CreateStepChanges(m: Machine, step: Step)
    requires step.Create?
    ensures Changes(m.s, Take1(m, step).s, m.routes, None, None)
  {
    CreateStep(m, step);
    hide Changes, Grows, Take1;
    if Take1(m, step) == m {
      NothingChanges(m.s, m.s, m.routes, None, None);
    } else {
      GrowthChanges(m.s, Take1(m, step).s, step.ids, m.routes);
    }
  }

  lemma DeleteStepChanges(m: Machine, step: Step)
    requires step.Delete?
    ensures Changes(m.s, Take1(m, step).s, m.routes, None, None)
  {
    hide Changes, DeleteTeam;
    NothingChanges(m.s, m.s, m.routes, None, None);
    if DeleteTeam(m.s, step.team).Ok? {
      DeleteChanges(m.s, step.team, m.routes);
    }
  }

  lemma CancelStepChanges(m: Machine, step: Step)
    requires step.CancelMessage?
    ensures Changes(m.s, Take1(m, step).s, m.routes, None, None)
  {
    hide Changes, Cancel;
    NothingChanges(m.s, m.s, m.routes, None, None);
    if Cancel(m.s, step.team, step.message).Ok? {
      CancelChanges(m.s, step.team, step.message, m.routes);
    }
  }

  lemma RetryStepChanges(m: Machine, step: Step)
    requires RoutesOk(m.s, m.routes) && step.RetryDelivery?
    ensures Changes(m.s, Take1(m, step).s, m.routes, None, Some(step.id))
  {
    hide Changes, Retry;
    NothingChanges(m.s, m.s, m.routes, None, Some(step.id));
    if Retry(m.s, step.team, step.id).Ok? {
      RetryChanges(m.s, step.team, step.id, m.routes);
    }
  }

  lemma CallChanges(m: Machine, step: Step)
    requires RoutesOk(m.s, m.routes) && !step.Advance?
    ensures Changes(m.s, Take1(m, step).s, m.routes, None, RetriedBy(step))
  {
    hide Changes, Take1, RoutesOk;
    match step {
      case Create(_, _, _, _, _) => CreateStepChanges(m, step);
      case Delete(_) => DeleteStepChanges(m, step);
      case CancelMessage(_, _) => CancelStepChanges(m, step);
      case RetryDelivery(_, _) => RetryStepChanges(m, step);
      case _ => QuietChanges(m, step);
    }
  }

  lemma StepChanges(m: Machine, step: Step)
    requires Base(m)
    ensures Changes(m.s, Take1(m, step).s, m.routes, Mover(m, step), RetriedBy(step))
  {
    hide RepInv, Changes, AllClean, Next, RoutesOk;
    if step.Advance? {
      if Runs(m, step, step.task) {
        NextChanges(m, step.task, step.env);
      } else {
        NothingChanges(m.s, m.s, m.routes, None, None);
      }
    } else {
      CallChanges(m, step);
    }
  }

  lemma StepKeepsRep(m: Machine, step: Step)
    requires RepInv(m.s)
    ensures RepInv(Take1(m, step).s)
  {
    hide RepInv, Next;
    if Take1(m, step).s != m.s {
      match step {
        case NewTeam(team, name, lead, agents, sessions, now) => CreateTeamKeeps(m.s, team, name, lead, agents, sessions, now);
        case Join(team, agent, sessions, now) => JoinKeeps(m.s, team, agent, sessions, now);
        case Leave(team, agent, heir, now) => RemoveMemberKeeps(m.s, team, agent, heir, now);
        case Lead(team, agent, now) => SetLeadKeeps(m.s, team, agent, now);
        case Delete(team) => DeleteTeamKeeps(m.s, team);
        case Create(team, admitted, message, ids, body) => CreateMessageKeeps(m.s, team, admitted, message, ids, body);
        case CancelMessage(team, message) => CancelKeeps(m.s, team, message);
        case RetryDelivery(team, id) => RetryKeeps(m.s, team, id);
        case Advance(task, env) => NextKeepsRep(m, task, env);
        case _ =>
      }
    }
  }

  lemma CancelClean(s: State, team: Id, message: Id)
    requires AllClean(s) && Cancel(s, team, message).Ok?
    ensures AllClean(Cancel(s, team, message).value)
  {
  }

  lemma StepClean(m: Machine, step: Step)
    requires Base(m)
    ensures AllClean(Take1(m, step).s)
  {
    if LeavesDeliveries(step) {
      DeliveriesLeft(m, step);
    } else if step.Create? {
      CreateStep(m, step);
    } else if step.CancelMessage? {
      if Take1(m, step) != m {
        CancelClean(m.s, step.team, step.message);
      }
    } else if step.Advance? {
      if Runs(m, step, step.task) {
        assert TaskOk(m, step.task);
        NextClean(m, step.task, step.env);
      }
    }
  }

  /** Routes only grow. */
  ghost predicate RoutesGrow(m: Machine, next: Machine) {
    forall d :: d in m.routes ==> d in next.routes && next.routes[d] == m.routes[d]
  }

  lemma StepRoutes(m: Machine, step: Step)
    requires Base(m)
    ensures RoutesGrow(m, Take1(m, step)) && RoutesOk(Take1(m, step).s, Take1(m, step).routes)
  {
    var next := Take1(m, step);
    StepChanges(m, step);
    StepKeepsRep(m, step);
    assert LinksOk(next.s);
    if step.Create? {
      CreateRoutes(m, step);
    } else {
      StepAddsNothing(m, step);
      SameRoutes(m, step);
    }
    hide RepInv, Take1, TaskOk;
    RoutesFollow(m.s, next.s, m.routes, next.routes, Mover(m, step), RetriedBy(step));
  }

  lemma RoutesFollow(s: State, next: State, routes: map<Id, Id>, later: map<Id, Id>, mover: Option<Id>, retried: Option<Id>)
    requires RoutesOk(s, routes) && Changes(s, next, routes, mover, retried) && LinksOk(next)
    requires forall d :: d in routes ==> d in later && later[d] == routes[d]
    requires forall d :: d in next.deliveries && d !in s.deliveries ==> d in later && later[d] == next.deliveries[d].recipient
    ensures RoutesOk(next, later)
  {
  }

  lemma SameRoutes(m: Machine, step: Step)
    requires !step.Create?
    ensures Take1(m, step).routes == m.routes
  {
    if step.Advance? && Runs(m, step, step.task) {
      NextFrame(m, step.task, step.env);
      hide Next;
    }
  }

  lemma CreateRoutes(m: Machine, step: Step)
    requires step.Create?
    ensures
      var next := Take1(m, step);
      && RoutesGrow(m, next)
      && (forall d :: d in next.s.deliveries && d !in m.s.deliveries ==> d in next.routes && next.routes[d] == next.s.deliveries[d].recipient)
  {
    CreateStep(m, step);
    hide CreateMessage;
  }

  lemma StepAddsNothing(m: Machine, step: Step)
    requires !step.Create?
    ensures Take1(m, step).s.deliveries.Keys <= m.s.deliveries.Keys
  {
    if LeavesDeliveries(step) {
      DeliveriesLeft(m, step);
    } else if step.Advance? && Runs(m, step, step.task) {
      NextAddsNothing(m, step.task, step.env);
    }
  }

  lemma NextAddsNothing(m: Machine, t: nat, env: Env)
    requires t in m.tasks && !m.tasks[t].Waiting?
    ensures Next(m, t, m.tasks[t], env).s.deliveries.Keys == m.s.deliveries.Keys
  {
    match m.tasks[t] {
      case Moving(d, next, code) => TransitionAddsNothing(m.s, d, next, None, code);
      case Claiming(d) => TransitionAddsNothing(m.s, d, Injecting, None, None);
      case Settling(d, Accepted(_)) => TransitionAddsNothing(m.s, d, Injected, Some("runtime_send_turn"), None);
      case Settling(d, OwnershipRejected) => TransitionAddsNothing(m.s, d, Deferred, None, Some("turn_ownership_rejected"));
      case Settling(d, ProviderRejected) => TransitionAddsNothing(m.s, d, Failed, None, Some("provider_rejected"));
      case _ =>
    }
  }

  lemma TransitionAddsNothing(s: State, d: Delivery, next: Status, strategy: Option<string>, code: Option<string>)
    ensures Transition(s, d, next, strategy, code).0.deliveries.Keys == s.deliveries.Keys
  {
    var after := Transition(s, d, next, strategy, code).0;
    if after != s {
      var moved := Moved(s.deliveries[d.id], next, strategy, code);
      assert after.deliveries == s.deliveries[d.id := moved];
    }
  }

  lemma TaskStays(m: Machine, next: Machine, t: nat, mover: Option<Id>, retried: Option<Id>)
    requires RoutesOk(m.s, m.routes) && t in m.tasks && TaskOk(m, t) && t in next.tasks && next.tasks[t] == m.tasks[t]
    requires Changes(m.s, next.s, m.routes, mover, retried) && RoutesGrow(m, next)
    requires !m.tasks[t].Waiting? ==>
               && mover != Some(Recipient(m.tasks[t]))
               && Recipient(m.tasks[t]) in next.guards && next.guards[Recipient(m.tasks[t])] == t
    ensures TaskOk(next, t)
  {
    SubjectIsRouted(m, t);
  }

  /** Two tasks past the guard have different recipients. */
  lemma GuardsExclude(m: Machine, t: nat, u: nat)
    requires Base(m) && t in m.tasks && u in m.tasks && !m.tasks[t].Waiting? && !m.tasks[u].Waiting?
    requires Recipient(m.tasks[t]) == Recipient(m.tasks[u])
    ensures t == u
  {
    assert TaskOk(m, t) && TaskOk(m, u);
  }

  lemma AdvanceTasks(m: Machine, step: Step, u: nat)
    requires Base(m) && step.Advance? && Runs(m, step, step.task) && u in Take1(m, step).tasks
    ensures TaskOk(Take1(m, step), u)
  {
    var t, next := step.task, Take1(m, step);
    assert TaskOk(m, t);
    if u == t {
      NextTaskOk(m, t, step.env);
    } else {
      NextFrame(m, t, step.env);
      assert TaskOk(m, u);
      NextChanges(m, t, step.env);
      if !m.tasks[u].Waiting? && Recipient(m.tasks[u]) == Recipient(m.tasks[t]) {
        GuardsExclude(m, t, u);
      }
      TaskStays(m, next, u, Mover(m, step), None);
    }
  }

  lemma CallTasks(m: Machine, step: Step, u: nat)
    requires Base(m) && !step.Advance? && u in Take1(m, step).tasks
    ensures TaskOk(Take1(m, step), u)
  {
    hide RepInv, Changes;
    var next := Take1(m, step);
    if u in m.tasks && next.tasks[u] == m.tasks[u] {
      assert TaskOk(m, u);
      StepChanges(m, step);
      StepRoutes(m, step);
      TaskStays(m, next, u, None, RetriedBy(step));
    } else if step.Acquire? {
      assert TaskOk(m, u);
    } else {
      assert step.Spawn? && step.id in m.routes;
    }
  }

  lemma StepKeepsBase(m: Machine, step: Step)
    requires Base(m)
    ensures Base(Take1(m, step))
  {
    StepKeepsRep(m, step);
    StepClean(m, step);
    StepRoutes(m, step);
    forall u | u in Take1(m, step).tasks ensures TaskOk(Take1(m, step), u) {
      if step.Advance? {
        if Runs(m, step, step.task) {
          AdvanceTasks(m, step, u);
        }
      } else {
        CallTasks(m, step, u);
      }
    }
  }

  // ---- Whole runs ----

  lemma {:induction false} RunAppend(m: Machine, a: seq<Step>, b: seq<Step>)
    ensures Run(m, a + b) == Run(Run(m, a), b)
  {
    if b == [] {
      assert a + b == a;
    } else {
      assert (a + b)[..|a + b| - 1] == a + b[..|b| - 1];
      RunAppend(m, a, b[..|b| - 1]);
    }
  }

  lemma Run2(m: Machine, a: Step, b: Step)
    ensures Run(m, [a, b]) == Take1(Take1(m, a), b)
  {
    assert [a, b][..1] == [a] && [a][..0] == [];
    assert Run(m, [a]) == Take1(Run(m, []), a);
  }

  lemma Run1(m: Machine, a: Step)
    ensures Run(m, [a]) == Take1(m, a)
  {
    assert [a][..0] == [];
    assert Run(m, []) == m;
  }

  lemma {:induction false} RunKeepsBase(m: Machine, steps: seq<Step>)
    requires Base(m)
    ensures Base(Run(m, steps))
  {
    if steps != [] {
      RunKeepsBase(m, steps[..|steps| - 1]);
      StepKeepsBase(Run(m, steps[..|steps| - 1]), steps[|steps| - 1]);
    }
  }

  /** Under every interleaving the nine maps agree, and no two tasks work on one recipient at a time. */
  lemma EveryRunKeepsTheMaps(m: Machine, steps: seq<Step>)
    requires Start(m)
    ensures RepInv(Run(m, steps).s) && AllClean(Run(m, steps).s)
    ensures
      var tasks := Run(m, steps).tasks;
      forall t, u :: t in tasks && u in tasks && t != u && !tasks[t].Waiting? && !tasks[u].Waiting? ==>
        Recipient(tasks[t]) != Recipient(tasks[u])
  {
    RunKeepsBase(m, steps);
    var tasks := Run(m, steps).tasks;
    forall t, u | t in tasks && u in tasks && t != u && !tasks[t].Waiting? && !tasks[u].Waiting?
      ensures Recipient(tasks[t]) != Recipient(tasks[u])
    {
      if Recipient(tasks[t]) == Recipient(tasks[u]) {
        GuardsExclude(Run(m, steps), t, u);
      }
    }
  }

  lemma StartIsBase(m: Machine)
    requires Start(m)
    ensures Base(m)
  {
  }

  lemma StatusStep(m: Machine, step: Step, d: Id)
    requires Base(m) && d in m.s.deliveries && d in Take1(m, step).s.deliveries
    ensures Edge(m.s.deliveries[d].status, Take1(m, step).s.deliveries[d].status, RetriedBy(step) == Some(d))
  {
    hide Base, Take1, RoutesOk, Edge, QuietStatus;
    StepChanges(m, step);
  }

  /**
  The status graph: after any run, whatever step comes next, a delivery's status stays, follows
  an edge of `is_valid_transition`, is cancelled from an open status, or is put back to pending by
  its own retry. So failed is entered only from injecting and left only by retry.
  */
  lemma StatusGraph(m: Machine, steps: seq<Step>, step: Step, d: Id)
    requires Start(m)
    requires d in Run(m, steps).s.deliveries && d in Take1(Run(m, steps), step).s.deliveries
    ensures
      var was := Run(m, steps).s.deliveries[d].status;
      var now := Take1(Run(m, steps), step).s.deliveries[d].status;
      && (was == now || IsValidTransition(was, now) || (IsOpen(was) && now.Cancelled?)
          || (step.RetryDelivery? && step.id == d && (was.Failed? || was.Deferred?) && now.Pending?))
      && (now.Failed? && !was.Failed? ==> was.Injecting?)
      && (was.Failed? && !now.Failed? ==> step.RetryDelivery? && step.id == d && now.Pending?)
  {
    StartIsBase(m);
    hide Start, Base, Run, Take1;
    RunKeepsBase(m, steps);
    StatusStep(Run(m, steps), step, d);
    EdgeMeans(Run(m, steps).s.deliveries[d].status, Take1(Run(m, steps), step).s.deliveries[d].status, RetriedBy(step) == Some(d));
    hide Edge;
  }

  /** What an edge can be. */
  lemma EdgeMeans(was: Status, now: Status, retry: bool)
    requires Edge(was, now, retry)
    ensures was == now || IsValidTransition(was, now) || (IsOpen(was) && now.Cancelled?)
            || (retry && (was.Failed? || was.Deferred?) && now.Pending?)
    ensures now.Failed? && !was.Failed? ==> was.Injecting?
    ensures was.Failed? && !now.Failed? ==> retry && now.Pending?
  {
  }

  ghost predicate Settled(m: Machine, d: Id, status: Status) {
    d in m.routes && (d in m.s.deliveries ==> m.s.deliveries[d].status == status)
  }

  lemma SettledChange(m: Machine, next: Machine, d: Id, status: Status, mover: Option<Id>, retried: Option<Id>)
    requires Settled(m, d, status) && (status.Injected? || status.Cancelled?)
    requires Changes(m.s, next.s, m.routes, mover, retried) && RoutesGrow(m, next)
    ensures Settled(next, d, status)
  {
  }

  lemma SettledStep(m: Machine, step: Step, d: Id, status: Status)
    requires Base(m) && Settled(m, d, status) && (status.Injected? || status.Cancelled?)
    ensures Settled(Take1(m, step), d, status)
  {
    StepRoutes(m, step);
    StepChanges(m, step);
    SettledChange(m, Take1(m, step), d, status, Mover(m, step), RetriedBy(step));
  }

  /** Known ids stay known, so an id that was dropped never names another delivery. */
  lemma {:induction false} FinalInRuns(m: Machine, steps: seq<Step>, d: Id, status: Status)
    requires Base(m) && Settled(m, d, status) && (status.Injected? || status.Cancelled?)
    ensures Settled(Run(m, steps), d, status)
  {
    if steps != [] {
      RunKeepsBase(m, steps[..|steps| - 1]);
      FinalInRuns(m, steps[..|steps| - 1], d, status);
      SettledStep(Run(m, steps[..|steps| - 1]), steps[|steps| - 1], d, status);
    }
  }

  /** Injected and cancelled are absorbing: as long as the delivery exists it keeps that status. */
  lemma FinalStatusesStay(m: Machine, earlier: seq<Step>, later: seq<Step>, d: Id)
    requires Start(m) && d in Run(m, earlier).s.deliveries && d in Run(Run(m, earlier), later).s.deliveries
    requires Run(m, earlier).s.deliveries[d].status.Injected? || Run(m, earlier).s.deliveries[d].status.Cancelled?
    ensures Run(Run(m, earlier), later).s.deliveries[d].status == Run(m, earlier).s.deliveries[d].status
  {
    RunKeepsBase(m, earlier);
    FinalInRuns(Run(m, earlier), later, d, Run(m, earlier).s.deliveries[d].status);
  }

  /** A turn id is only ever on an injected delivery, an error code only on a failed one. */
  lemma MarksFollowStatus(m: Machine, steps: seq<Step>, d: Id)
    requires Start(m) && d in Run(m, steps).s.deliveries
    ensures
      var record := Run(m, steps).s.deliveries[d];
      (record.turn.Some? ==> record.status.Injected?) && (record.errorCode.Some? ==> record.status.Failed?)
  {
    RunKeepsBase(m, steps);
  }
}
