/**
Per-recipient order. In every interleaving at most one delivery of a recipient is injecting, and
whatever is injecting has only terminal deliveries ahead of it in its recipient's queue, as long as
no retry puts one back ahead of a delivery that is already past its look at the queue.
*/
module DeliveryOrder {
  import opened Wrappers
  import opened TeamIndex
  import opened TeamState
  import opened Injection
  import opened DeliveryMachine
  import opened DeliveryRuns

  ghost predicate InTurn(s: State, d: Id) {
    d in s.deliveries ==> AheadTerminal(s, d)
  }

  /** Every injecting delivery is first among the open ones of its recipient. */
  ghost predicate InjectingInTurn(s: State) {
    forall d :: d in s.deliveries && s.deliveries[d].status.Injecting? ==> AheadTerminal(s, d)
  }

  // ---- Retries that jump the queue ----

  /** The record still has the status the attempt has seen, so a claim would succeed. */
  predicate Current(s: State, d: Delivery) {
    d.id in s.deliveries && s.deliveries[d.id].status == d.status
  }

  /** The delivery is injecting, or an attempt past its look at the queue can still claim it. */
  ghost predicate Going(m: Machine, d: Id)
    requires d in m.s.deliveries
  {
    m.s.deliveries[d].status.Injecting? || exists t :: t in m.tasks && MayClaim(m, t, d)
  }

  predicate MayClaim(m: Machine, t: nat, d: Id)
    requires t in m.tasks
  {
    (m.tasks[t].Clear? || m.tasks[t].Claiming?) && m.tasks[t].d.id == d && Current(m.s, m.tasks[t].d)
  }

  predicate Reopens(m: Machine, step: Step) {
    step.RetryDelivery? && Retry(m.s, step.team, step.id).Ok?
  }

  /** A retry that is not refused, of a delivery ahead of one that is going. */
  ghost predicate JumpsQueue(m: Machine, step: Step) {
    Reopens(m, step) && exists d :: Behind(m.s, step.id, d) && Going(m, d)
  }

  ghost predicate Behind(s: State, a: Id, d: Id) {
    d in s.deliveries && Ahead(QueueOf(s, s.deliveries[d].recipient), a, d)
  }

  ghost predicate NoneJumps(m: Machine, steps: seq<Step>) {
    steps == []
    || (NoneJumps(m, steps[..|steps| - 1]) && !JumpsQueue(Run(m, steps[..|steps| - 1]), steps[|steps| - 1]))
  }

  // ---- The invariant ----

  /** Since the snapshot the delivery has at most been cancelled or put back to pending. */
  ghost predicate Drifted(s: State, d: Delivery) {
    d.id in s.deliveries ==>
      s.deliveries[d.id].status == d.status || s.deliveries[d.id].status.Cancelled? || s.deliveries[d.id].status.Pending?
  }

  /** What an attempt has found clear and can still claim is in turn. */
  ghost predicate TaskInTurn(m: Machine, t: nat)
    requires t in m.tasks
  {
    var pc := m.tasks[t];
    && (pc.Looking? || pc.Clear? || pc.Claiming? ==> Drifted(m.s, pc.d))
    && ((pc.Clear? || pc.Claiming?) && Current(m.s, pc.d) ==> AheadTerminal(m.s, pc.d.id))
  }

  ghost predicate Ordered(m: Machine) {
    InjectingInTurn(m.s) && forall t :: t in m.tasks ==> TaskInTurn(m, t)
  }

  lemma AheadLasts(s: State, next: State, routes: map<Id, Id>, mover: Option<Id>, retried: Option<Id>, d: Id, a: Id)
    requires Changes(s, next, routes, mover, retried) && retried != Some(a)
    requires d in s.deliveries && AheadTerminal(s, d) && a in s.deliveries && a in next.deliveries
    requires Ahead(QueueOf(next, s.deliveries[d].recipient), a, d)
    ensures IsTerminal(next.deliveries[a].status)
  {
    assert Ahead(QueueOf(s, s.deliveries[d].recipient), a, d);
    assert IsTerminal(s.deliveries[a].status);
  }

  /** Being first in line lasts: nothing gets ahead, and what is terminal stays so unless it is retried. */
  lemma InTurnLasts(s: State, next: State, routes: map<Id, Id>, mover: Option<Id>, retried: Option<Id>, d: Id)
    requires RepInv(s) && Changes(s, next, routes, mover, retried)
    requires d in s.deliveries && AheadTerminal(s, d)
    requires retried.Some? ==> !Behind(s, retried.value, d)
    ensures InTurn(next, d)
  {
    if d in next.deliveries {
      var r := s.deliveries[d].recipient;
      assert SameRoute(s.deliveries[d], next.deliveries[d]);
      forall a | Ahead(QueueOf(next, r), a, d) && a in next.deliveries ensures IsTerminal(next.deliveries[a].status) {
        assert Ahead(QueueOf(s, r), a, d);
        QueuedExists(s, r, a, d);
        AheadLasts(s, next, routes, mover, retried, d, a);
      }
    }
  }

  lemma QueuedExists(s: State, r: Id, a: Id, d: Id)
    requires RepInv(s) && Ahead(QueueOf(s, r), a, d)
    ensures a in s.deliveries && s.deliveries[a].recipient == r
  {
    assert ColumnOk(s, ByRecipient);
    assert a in QueueOf(s, r);
    assert a in Owners(s.deliveries, ByRecipient);
  }

  lemma RefusedChangesNothing(m: Machine, step: Step)
    requires step.RetryDelivery? && !Reopens(m, step)
    ensures Take1(m, step) == m
  {
  }

  /** What is going stays in turn through a step that does not jump the queue. */
  lemma GoingStaysInTurn(m: Machine, step: Step, d: Id)
    requires Base(m) && !JumpsQueue(m, step) && d in m.s.deliveries && Going(m, d) && AheadTerminal(m.s, d)
    ensures InTurn(Take1(m, step).s, d)
  {
    StepChanges(m, step);
    hide Going, Behind, Take1, Changes;
    if step.RetryDelivery? && !Reopens(m, step) {
      RefusedChangesNothing(m, step);
    } else {
      InTurnLasts(m.s, Take1(m, step).s, m.routes, Mover(m, step), RetriedBy(step), d);
    }
  }

  // ---- What may become injecting ----

  lemma OnlyMoversInject(s: State, next: State, routes: map<Id, Id>, mover: Option<Id>, retried: Option<Id>, d: Id)
    requires Changes(s, next, routes, mover, retried) && d in next.deliveries && next.deliveries[d].status.Injecting?
    ensures d in s.deliveries && (s.deliveries[d].status.Injecting? || mover == Some(s.deliveries[d].recipient))
  {
  }

  /** Only a claim with a snapshot that is still true makes a delivery injecting. */
  lemma OnlyClaimsInject(m: Machine, step: Step, d: Id)
    requires Base(m) && d in Take1(m, step).s.deliveries && Take1(m, step).s.deliveries[d].status.Injecting?
    ensures d in m.s.deliveries
    ensures m.s.deliveries[d].status.Injecting?
         || (step.Advance? && Runs(m, step, step.task) && m.tasks[step.task].Claiming? && MayClaim(m, step.task, d))
  {
    hide RepInv, Next, Changes, Edge, QuietStatus, TaskOk, RoutesOk, AllClean;
    StepChanges(m, step);
    OnlyMoversInject(m.s, Take1(m, step).s, m.routes, Mover(m, step), RetriedBy(step), d);
    if !m.s.deliveries[d].status.Injecting? {
      ClaimerPlace(m, step.task);
      NextInjects(m, step.task, step.env, d);
    }
  }

  lemma ClaimerPlace(m: Machine, t: nat)
    requires Base(m) && t in m.tasks
    ensures PcOk(m.s, m.tasks[t])
  {
    assert TaskOk(m, t);
  }

  /** A write that takes effect finds the status it expects. */
  lemma InjectsWhenCurrent(s: State, r: Delivery)
    requires r.id in s.deliveries && !s.deliveries[r.id].status.Injecting? && IsOpen(r.status)
    requires
      var after := Transition(s, r, Injecting, None, None).0.deliveries;
      r.id in after && after[r.id].status.Injecting?
    ensures Current(s, r)
  {
  }

  lemma NextInjects(m: Machine, t: nat, env: Env, d: Id)
    requires t in m.tasks && !m.tasks[t].Waiting? && PcOk(m.s, m.tasks[t]) && d in m.s.deliveries
    requires !m.s.deliveries[d].status.Injecting?
    requires d in Next(m, t, m.tasks[t], env).s.deliveries && Next(m, t, m.tasks[t], env).s.deliveries[d].status.Injecting?
    ensures m.tasks[t].Claiming? && MayClaim(m, t, d)
  {
    NextWrites(m, t, env);
    hide Transition, Next;
    match m.tasks[t] {
      case Moving(r, next, code) => TransitionWrites(m.s, r, next, None, code, d);
      case Claiming(r) =>
        TransitionWrites(m.s, r, Injecting, None, None, d);
        InjectsWhenCurrent(m.s, r);
      case Settling(r, Accepted(_)) => TransitionWrites(m.s, r, Injected, Some("runtime_send_turn"), None, d);
      case Settling(r, OwnershipRejected) => TransitionWrites(m.s, r, Deferred, None, Some("turn_ownership_rejected"), d);
      case Settling(r, ProviderRejected) => TransitionWrites(m.s, r, Failed, None, Some("provider_rejected"), d);
      case _ =>
    }
  }

  lemma InjectingStep(m: Machine, step: Step)
    requires Base(m) && Ordered(m) && !JumpsQueue(m, step)
    ensures InjectingInTurn(Take1(m, step).s)
  {
    var next := Take1(m, step).s;
    hide Base, JumpsQueue, Take1, Current;
    forall d | d in next.deliveries && next.deliveries[d].status.Injecting? ensures AheadTerminal(next, d) {
      OnlyClaimsInject(m, step, d);
      if !m.s.deliveries[d].status.Injecting? {
        assert TaskInTurn(m, step.task);
      }
      GoingStaysInTurn(m, step, d);
    }
  }

  // ---- The attempts ----

  lemma UnblockedInTurn(s: State, d: Delivery)
    requires RepInv(s) && Blocker(s, d).None?
    requires d.id in s.deliveries ==> s.deliveries[d.id].recipient == d.recipient
    ensures InTurn(s, d.id)
  {
    if d.id in s.deliveries {
      assert LinksOk(s);
      NoBlockerMeansFirst(s, d.id);
    }
  }

  /** A place about to claim is reached from one that was, or by finding no blocker. */
  lemma NextInTurn(m: Machine, t: nat, env: Env)
    requires RepInv(m.s) && RoutesOk(m.s, m.routes) && t in m.tasks && TaskOk(m, t) && TaskInTurn(m, t) && !m.tasks[t].Waiting?
    requires t in Next(m, t, m.tasks[t], env).tasks
    ensures TaskInTurn(Next(m, t, m.tasks[t], env), t)
  {
    SubjectIsRouted(m, t);
    var pc := m.tasks[t];
    if pc.Locked? {
      LookUpInTurn(m, t, pc);
    } else if pc.Looking? {
      LookInTurn(m, t, pc);
    } else if pc.Clear? {
      ChooseInTurn(m, t, pc, env);
    } else if pc.Settling? {
      SettleInTurn(m, t, pc);
    } else if pc.Claiming? {
      assert Claim(m, t, pc.d).tasks[t].Sending?;
    }
  }

  lemma LookUpInTurn(m: Machine, t: nat, pc: Pc)
    requires pc.Locked? && RoutesOk(m.s, m.routes) && t in m.tasks && m.tasks[t] == pc && t in LookUp(m, t, pc).tasks
    ensures TaskInTurn(LookUp(m, t, pc), t)
  {
  }

  lemma SettleInTurn(m: Machine, t: nat, pc: Pc)
    requires pc.Settling? && t in Settle(m, t, pc).tasks
    ensures TaskInTurn(Settle(m, t, pc), t)
  {
  }

  lemma LookInTurn(m: Machine, t: nat, pc: Pc)
    requires RepInv(m.s) && pc.Looking? && Drifted(m.s, pc.d) && t in LookAhead(m, t, pc).tasks
    requires pc.d.id in m.s.deliveries ==> m.s.deliveries[pc.d.id].recipient == pc.d.recipient
    ensures TaskInTurn(LookAhead(m, t, pc), t)
  {
    if Blocker(m.s, pc.d).None? {
      UnblockedInTurn(m.s, pc.d);
    }
  }

  lemma ChooseInTurn(m: Machine, t: nat, pc: Pc, env: Env)
    requires pc.Clear? && t in m.tasks && m.tasks[t] == pc && TaskInTurn(m, t) && t in Choose(m, t, pc, env).tasks
    ensures TaskInTurn(Choose(m, t, pc, env), t)
  {
  }

  lemma DriftLasts(s: State, next: State, routes: map<Id, Id>, mover: Option<Id>, retried: Option<Id>, d: Delivery)
    requires RoutesOk(s, routes) && d.id in routes && routes[d.id] == d.recipient && mover != Some(d.recipient)
    requires Unclaimed(s, d) && Drifted(s, d) && Changes(s, next, routes, mover, retried)
    ensures Drifted(next, d)
  {
  }

  /** A snapshot that is true after a step of others was true before it. */
  lemma WasCurrent(s: State, next: State, routes: map<Id, Id>, mover: Option<Id>, retried: Option<Id>, d: Delivery)
    requires RoutesOk(s, routes) && d.id in routes && routes[d.id] == d.recipient && mover != Some(d.recipient)
    requires Unclaimed(s, d) && Drifted(s, d) && Changes(s, next, routes, mover, retried)
    requires Current(next, d)
    ensures Current(s, d)
  {
  }

  lemma OtherInTurn(m: Machine, step: Step, t: nat)
    requires Base(m) && Ordered(m) && !JumpsQueue(m, step) && t in m.tasks && t in Take1(m, step).tasks
    requires Take1(m, step).tasks[t] == m.tasks[t]
    requires !m.tasks[t].Waiting? ==> Mover(m, step) != Some(Recipient(m.tasks[t]))
    ensures TaskInTurn(Take1(m, step), t)
  {
    var pc, next := m.tasks[t], Take1(m, step).s;
    StepChanges(m, step);
    assert TaskOk(m, t) && TaskInTurn(m, t);
    hide Base, RepInv, Changes, AheadTerminal, JumpsQueue, Take1, RoutesOk, Drifted, Current;
    if pc.Looking? || pc.Clear? || pc.Claiming? {
      TaskIsOk(m, t);
      DriftLasts(m.s, next, m.routes, Mover(m, step), RetriedBy(step), pc.d);
      if !pc.Looking? && Current(next, pc.d) {
        WasCurrent(m.s, next, m.routes, Mover(m, step), RetriedBy(step), pc.d);
        ClaimableStaysInTurn(m, step, t);
      }
    }
  }

  lemma ClaimableStaysInTurn(m: Machine, step: Step, t: nat)
    requires Base(m) && !JumpsQueue(m, step) && t in m.tasks && TaskInTurn(m, t)
    requires (m.tasks[t].Clear? || m.tasks[t].Claiming?) && Current(m.s, m.tasks[t].d)
    ensures InTurn(Take1(m, step).s, m.tasks[t].d.id)
  {
    assert MayClaim(m, t, m.tasks[t].d.id);
    GoingStaysInTurn(m, step, m.tasks[t].d.id);
  }

  lemma TasksStep(m: Machine, step: Step, t: nat)
    requires Base(m) && Ordered(m) && !JumpsQueue(m, step) && t in Take1(m, step).tasks
    ensures TaskInTurn(Take1(m, step), t)
  {
    hide RepInv, Next, InjectingInTurn, AheadTerminal, JumpsQueue, Drifted, Current;
    var next := Take1(m, step);
    if step.Advance? && Runs(m, step, step.task) {
      if t == step.task {
        assert TaskOk(m, t) && TaskInTurn(m, t);
        NextInTurn(m, t, step.env);
      } else {
        NextFrame(m, step.task, step.env);
        if !m.tasks[t].Waiting? && Recipient(m.tasks[t]) == Recipient(m.tasks[step.task]) {
          GuardsExclude(m, step.task, t);
        }
        OtherInTurn(m, step, t);
      }
    } else if t in m.tasks && next.tasks[t] == m.tasks[t] {
      OtherInTurn(m, step, t);
    }
  }

  lemma {:induction false} RunKeepsOrder(m: Machine, steps: seq<Step>)
    requires Base(m) && Ordered(m) && NoneJumps(m, steps)
    ensures Base(Run(m, steps)) && Ordered(Run(m, steps))
  {
    hide Base, InjectingInTurn, JumpsQueue;
    if steps != [] {
      var earlier, last := steps[..|steps| - 1], steps[|steps| - 1];
      RunKeepsOrder(m, earlier);
      StepKeepsBase(Run(m, earlier), last);
      InjectingStep(Run(m, earlier), last);
      forall t | t in Run(m, steps).tasks ensures TaskInTurn(Run(m, steps), t) {
        TasksStep(Run(m, earlier), last, t);
      }
    }
  }

  /** Of two deliveries in one queue one is ahead. */
  lemma OneIsAhead(s: State, a: Id, b: Id)
    requires RepInv(s) && a in s.deliveries && b in s.deliveries && a != b
    requires s.deliveries[a].recipient == s.deliveries[b].recipient
    ensures Ahead(QueueOf(s, s.deliveries[a].recipient), a, b) || Ahead(QueueOf(s, s.deliveries[a].recipient), b, a)
  {
    var queue := QueueOf(s, s.deliveries[a].recipient);
    assert ColumnOk(s, ByRecipient);
    assert a in Owners(s.deliveries, ByRecipient) && b in Owners(s.deliveries, ByRecipient);
    var i :| 0 <= i < |queue| && queue[i] == a;
    var j :| 0 <= j < |queue| && queue[j] == b;
    assert i < j || j < i;
  }

  /**
  First in, first out: in any run in which no retry jumps the queue, from a state in which injecting
  deliveries are in turn, everything ahead of an injecting delivery in its recipient's queue is
  terminal, and at most one delivery of a recipient is injecting.
  */
  lemma FirstInFirstOut(m: Machine, steps: seq<Step>, d: Id)
    requires Start(m) && InjectingInTurn(m.s) && NoneJumps(m, steps)
    requires d in Run(m, steps).s.deliveries && Run(m, steps).s.deliveries[d].status.Injecting?
    ensures AheadTerminal(Run(m, steps).s, d)
    ensures
      var deliveries := Run(m, steps).s.deliveries;
      forall x :: x in deliveries && x != d && deliveries[x].recipient == deliveries[d].recipient ==>
        !deliveries[x].status.Injecting?
  {
    RunKeepsOrder(m, steps);
    var s := Run(m, steps).s;
    forall x | x in s.deliveries && x != d && s.deliveries[x].recipient == s.deliveries[d].recipient
      ensures !s.deliveries[x].status.Injecting?
    {
      OneIsAhead(s, x, d);
    }
  }

  /** A delivery enters injecting only when everything ahead of it was terminal already before that step. */
  lemma EntersInTurn(m: Machine, steps: seq<Step>, step: Step, d: Id)
    requires Start(m) && InjectingInTurn(m.s) && NoneJumps(m, steps)
    requires d in Take1(Run(m, steps), step).s.deliveries && Take1(Run(m, steps), step).s.deliveries[d].status.Injecting?
    requires d in Run(m, steps).s.deliveries && !Run(m, steps).s.deliveries[d].status.Injecting?
    ensures AheadTerminal(Run(m, steps).s, d) && IsOpen(Run(m, steps).s.deliveries[d].status)
  {
    RunKeepsOrder(m, steps);
    var before := Run(m, steps);
    hide Run, Take1, Base, InjectingInTurn;
    OnlyClaimsInject(before, step, d);
    assert TaskInTurn(before, step.task);
    ClaimerPlace(before, step.task);
  }

  // ---- One at a time ----

  /** The holder of its recipient's guard is sending the delivery, or is about to record the answer. */
  ghost predicate Held(m: Machine, d: Id)
    requires d in m.s.deliveries
  {
    var r := m.s.deliveries[d].recipient;
    && r in m.guards && m.guards[r] in m.tasks
    && var pc := m.tasks[m.guards[r]];
       (pc.Sending? || pc.Settling?) && pc.d.id == d && pc.d.recipient == r && pc.d.status.Injecting?
  }

  ghost predicate InjectingAreHeld(m: Machine) {
    forall d :: d in m.s.deliveries && m.s.deliveries[d].status.Injecting? ==> Held(m, d)
  }

  lemma ClaimHolds(m: Machine, t: nat, d: Id)
    requires RoutesOk(m.s, m.routes) && t in m.tasks && TaskOk(m, t) && m.tasks[t].Claiming? && MayClaim(m, t, d)
    ensures d in Claim(m, t, m.tasks[t].d).s.deliveries && Held(Claim(m, t, m.tasks[t].d), d)
  {
  }

  lemma SettleEnds(m: Machine, t: nat, pc: Pc)
    requires pc.Settling? && pc.d.status.Injecting? && pc.d.id in m.s.deliveries && m.s.deliveries[pc.d.id].status == pc.d.status
    ensures
      var next := Settle(m, t, pc).s.deliveries;
      pc.d.id in next && !next[pc.d.id].status.Injecting?
  {
    hide Transition;
    match pc.answer {
      case Accepted(_) => TransitionResult(m.s, pc.d, Injected, Some("runtime_send_turn"), None);
      case OwnershipRejected => TransitionResult(m.s, pc.d, Deferred, None, Some("turn_ownership_rejected"));
      case ProviderRejected => TransitionResult(m.s, pc.d, Failed, None, Some("provider_rejected"));
    }
  }

  /** The holder goes on to record the answer, and then the delivery is no longer injecting. */
  lemma HolderGoesOn(m: Machine, t: nat, env: Env, d: Id)
    requires t in m.tasks && TaskOk(m, t) && d in m.s.deliveries && m.s.deliveries[d].status.Injecting?
    requires Held(m, d) && m.guards[m.s.deliveries[d].recipient] == t
    ensures
      var next := Next(m, t, m.tasks[t], env);
      d in next.s.deliveries && (next.s.deliveries[d].status.Injecting? ==> Held(next, d))
  {
    var pc := m.tasks[t];
    if pc.Settling? {
      SettleEnds(m, t, pc);
    }
  }

  lemma AdvanceHolds(m: Machine, t: nat, env: Env, d: Id)
    requires Base(m) && t in m.tasks && !m.tasks[t].Waiting? && d in m.s.deliveries && m.s.deliveries[d].status.Injecting? && Held(m, d)
    ensures
      var next := Next(m, t, m.tasks[t], env);
      d in next.s.deliveries && (next.s.deliveries[d].status.Injecting? ==> Held(next, d))
  {
    var h := m.guards[m.s.deliveries[d].recipient];
    TaskIsOk(m, t);
    if t == h {
      HolderGoesOn(m, t, env, d);
    } else {
      if Recipient(m.tasks[t]) == m.s.deliveries[d].recipient {
        GuardsExclude(m, t, h);
      }
      NextFrame(m, t, env);
      SubjectIsRouted(m, t);
      OthersUntouched(m, t, env, d);
      hide Base, Next, TaskOk;
    }
  }

  lemma CallHolds(m: Machine, step: Step, d: Id)
    requires Base(m) && !step.Advance? && d in m.s.deliveries && Held(m, d)
    requires d in Take1(m, step).s.deliveries
    ensures Held(Take1(m, step), d)
  {
    StepChanges(m, step);
    CallFrame(m, step);
    hide Base, Take1;
    assert SameRoute(m.s.deliveries[d], Take1(m, step).s.deliveries[d]);
  }

  lemma StepHolds(m: Machine, step: Step, d: Id)
    requires Base(m) && InjectingAreHeld(m)
    requires d in Take1(m, step).s.deliveries && Take1(m, step).s.deliveries[d].status.Injecting?
    ensures Held(Take1(m, step), d)
  {
    OnlyClaimsInject(m, step, d);
    hide Base, Held, Next, MayClaim;
    if !m.s.deliveries[d].status.Injecting? {
      TaskIsOk(m, step.task);
      hide TaskOk, RoutesOk;
      ClaimHolds(m, step.task, d);
      assert Take1(m, step) == Claim(m, step.task, m.tasks[step.task].d);
    } else if step.Advance? {
      if Runs(m, step, step.task) {
        AdvanceHolds(m, step.task, step.env, d);
      }
    } else {
      CallHolds(m, step, d);
    }
  }

  lemma {:induction false} RunHolds(m: Machine, steps: seq<Step>)
    requires Base(m) && InjectingAreHeld(m)
    ensures Base(Run(m, steps)) && InjectingAreHeld(Run(m, steps))
  {
    hide Base, Held, Take1;
    if steps != [] {
      var earlier, last := steps[..|steps| - 1], steps[|steps| - 1];
      RunHolds(m, earlier);
      StepKeepsBase(Run(m, earlier), last);
      forall d | d in Run(m, steps).s.deliveries && Run(m, steps).s.deliveries[d].status.Injecting? ensures Held(Run(m, steps), d) {
        StepHolds(Run(m, earlier), last, d);
      }
    }
  }

  /**
  One at a time: in any run whatsoever, retries and all, from a state in which nothing is injecting, no two
  deliveries of one recipient are injecting together.
  */
  lemma OneAtATime(m: Machine, steps: seq<Step>, a: Id, b: Id)
    requires Start(m) && forall d :: d in m.s.deliveries ==> !m.s.deliveries[d].status.Injecting?
    requires a in Run(m, steps).s.deliveries && Run(m, steps).s.deliveries[a].status.Injecting?
    requires b in Run(m, steps).s.deliveries && Run(m, steps).s.deliveries[b].status.Injecting?
    requires Run(m, steps).s.deliveries[a].recipient == Run(m, steps).s.deliveries[b].recipient
    ensures a == b
  {
    StartIsBase(m);
    hide Base, Start, Run;
    RunHolds(m, steps);
  }
}
