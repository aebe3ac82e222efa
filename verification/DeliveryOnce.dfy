/**
Acceptance of one delivery. Between an attempt's look at a delivery and its claim nothing holds the
record still: that window is where a retry or a cancel does harm, and outside it neither does.
*/
module DeliveryOnce {
  import opened Wrappers
  import opened TeamIndex
  import opened TeamState
  import opened Injection
  import opened DeliveryMachine
  import opened DeliveryRuns

  /** An attempt holds an open snapshot of the delivery and may still claim it. */
  predicate InHand(pc: Pc, d: Id) {
    (pc.Looking? || pc.Clear? || pc.Claiming?) && pc.d.id == d
  }

  ghost predicate InWindow(m: Machine, d: Id) {
    exists t :: t in m.tasks && InHand(m.tasks[t], d)
  }

  /** A retry of this very delivery that is not refused. */
  predicate Retries(m: Machine, step: Step, d: Id) {
    step.RetryDelivery? && step.id == d && Retry(m.s, step.team, d).Ok?
  }

  /** A cancel of the delivery's message that is not refused. */
  predicate Cancels(m: Machine, step: Step, d: Id) {
    && step.CancelMessage? && Cancel(m.s, step.team, step.message).Ok?
    && d in m.s.deliveries && m.s.deliveries[d].message == step.message
  }

  /** No successful retry of the delivery falls in its window. */
  ghost predicate NoRetryInWindow(m: Machine, steps: seq<Step>, d: Id) {
    steps == []
    || (NoRetryInWindow(m, steps[..|steps| - 1], d)
        && var before := Run(m, steps[..|steps| - 1]);
           !(Retries(before, steps[|steps| - 1], d) && InWindow(before, d)))
  }

  ghost predicate NoCancelInWindow(m: Machine, steps: seq<Step>, d: Id) {
    steps == []
    || (NoCancelInWindow(m, steps[..|steps| - 1], d)
        && var before := Run(m, steps[..|steps| - 1]);
           !(Cancels(before, steps[|steps| - 1], d) && InWindow(before, d)))
  }

  // ---- The invariant of one delivery ----

  /** The live record still has the status of a snapshot, or was cancelled since. */
  ghost predicate SameOrCancelled(s: State, d: Delivery) {
    d.id in s.deliveries ==> s.deliveries[d.id].status == d.status || s.deliveries[d.id].status.Cancelled?
  }

  /** A claim came back injecting, or cancelled when it lost its race; and so the record stays. */
  ghost predicate ClaimedOrCancelled(s: State, d: Delivery) {
    && (d.status.Injecting? || d.status.Cancelled?)
    && (d.id in s.deliveries ==> s.deliveries[d.id].status == d.status)
  }

  ghost predicate SnapshotOk(s: State, pc: Pc) {
    if pc.Looking? || pc.Clear? || pc.Claiming? then SameOrCancelled(s, pc.d)
    else if pc.Sending? || pc.Settling? then ClaimedOrCancelled(s, pc.d)
    else true
  }

  /** Places from which this attempt can still be accepted, or has been refused. */
  predicate NotAccepted(pc: Pc) {
    pc.Looking? || pc.Clear? || pc.Claiming? || pc.Sending? || (pc.Settling? && !pc.answer.Accepted?)
  }

  ghost predicate TaskOnce(m: Machine, t: nat)
    requires t in m.tasks
  {
    SnapshotOk(m.s, m.tasks[t]) && (NotAccepted(m.tasks[t]) ==> Subject(m.tasks[t]) !in m.accepted)
  }

  /** The guard holder of the delivery's recipient is about to record its acceptance. */
  ghost predicate BeingSettled(m: Machine, x: Id)
    requires x in m.routes
  {
    && m.routes[x] in m.guards && m.guards[m.routes[x]] in m.tasks
    && var pc := m.tasks[m.guards[m.routes[x]]];
       pc.Settling? && pc.answer.Accepted? && pc.d.id == x
  }

  /** An accepted delivery is gone, has its last status, or is being settled. */
  ghost predicate Spent(m: Machine, x: Id) {
    && x in m.routes
    && (x in m.s.deliveries ==>
          m.s.deliveries[x].status.Injected? || m.s.deliveries[x].status.Cancelled? || BeingSettled(m, x))
  }

  function Times(ids: seq<Id>, x: Id): nat {
    multiset(ids)[x]
  }

  ghost predicate Once(m: Machine, d: Id) {
    && Times(m.accepted, d) <= 1
    && (d in m.accepted ==> Spent(m, d))
    && forall t :: t in m.tasks && Subject(m.tasks[t]) == d ==> TaskOnce(m, t)
  }

  // ---- What a step leaves alone ----

  /** It keeps its status or is cancelled while open. */
  ghost predicate StaysOrCancelled(s: State, next: State, d: Id) {
    d in next.deliveries ==>
      && d in s.deliveries
      && (next.deliveries[d].status == s.deliveries[d].status
          || (IsOpen(s.deliveries[d].status) && next.deliveries[d].status.Cancelled?))
  }

  lemma QuietIsStay(m: Machine, next: State, mover: Option<Id>, retried: Option<Id>, d: Id)
    requires RoutesOk(m.s, m.routes) && d in m.routes && retried != Some(d) && mover != Some(m.routes[d])
    requires Changes(m.s, next, m.routes, mover, retried)
    ensures StaysOrCancelled(m.s, next, d)
  {
  }

  lemma RefusedRetry(m: Machine, step: Step, d: Id)
    requires step.RetryDelivery? && step.id == d && !Retries(m, step, d)
    ensures Take1(m, step) == m
  {
  }

  lemma SnapshotLasts(m: Machine, next: State, t: nat)
    requires t in m.tasks && SnapshotOk(m.s, m.tasks[t]) && PcOk(m.s, m.tasks[t])
    requires StaysOrCancelled(m.s, next, Subject(m.tasks[t]))
    ensures SnapshotOk(next, m.tasks[t])
  {
  }

  // ---- The running task ----

  lemma ClaimOnce(m: Machine, t: nat, d: Delivery)
    requires RoutesOk(m.s, m.routes) && SameOrCancelled(m.s, d) && IsOpen(d.status) && t in Claim(m, t, d).tasks
    ensures SnapshotOk(Claim(m, t, d).s, Claim(m, t, d).tasks[t])
  {
    if d.id in m.s.deliveries && m.s.deliveries[d.id].status == d.status {
      TransitionResult(m.s, d, Injecting, None, None);
    }
  }

  lemma LookUpOnce(m: Machine, t: nat, pc: Pc)
    requires pc.Locked? && RoutesOk(m.s, m.routes) && (pc.id in m.accepted ==> Spent(m, pc.id))
    requires t in m.tasks && TaskOk(m, t) && m.tasks[t] == pc && t in LookUp(m, t, pc).tasks
    ensures TaskOnce(LookUp(m, t, pc), t)
  {
  }

  lemma LookOnce(m: Machine, t: nat, pc: Pc)
    requires pc.Looking? && t in m.tasks && m.tasks[t] == pc && TaskOnce(m, t) && t in LookAhead(m, t, pc).tasks
    ensures TaskOnce(LookAhead(m, t, pc), t)
  {
  }

  lemma ChooseOnce(m: Machine, t: nat, pc: Pc, env: Env)
    requires pc.Clear? && t in m.tasks && m.tasks[t] == pc && TaskOnce(m, t) && t in Choose(m, t, pc, env).tasks
    ensures TaskOnce(Choose(m, t, pc, env), t)
  {
  }

  lemma ClaimTaskOnce(m: Machine, t: nat, d: Delivery)
    requires RoutesOk(m.s, m.routes) && t in m.tasks && m.tasks[t] == Claiming(d) && TaskOnce(m, t)
    requires IsOpen(d.status) && t in Claim(m, t, d).tasks
    ensures TaskOnce(Claim(m, t, d), t)
  {
    ClaimOnce(m, t, d);
  }

  lemma SendOnce(m: Machine, t: nat, d: Delivery, answer: SendAnswer)
    requires t in m.tasks && m.tasks[t] == Sending(d) && TaskOnce(m, t)
    ensures TaskOnce(SendTurn(m, t, d, answer), t)
  {
  }

  lemma SettleOnce(m: Machine, t: nat, pc: Pc)
    requires pc.Settling? && t in Settle(m, t, pc).tasks
    ensures TaskOnce(Settle(m, t, pc), t)
  {
  }

  lemma NextOnce(m: Machine, t: nat, env: Env)
    requires RoutesOk(m.s, m.routes) && t in m.tasks && TaskOk(m, t) && TaskOnce(m, t) && !m.tasks[t].Waiting?
    requires Subject(m.tasks[t]) in m.accepted ==> Spent(m, Subject(m.tasks[t]))
    requires t in Next(m, t, m.tasks[t], env).tasks
    ensures TaskOnce(Next(m, t, m.tasks[t], env), t)
  {
    var pc := m.tasks[t];
    match pc {
      case Locked(_, _, _) => LookUpOnce(m, t, pc);
      case Looking(_, _, _) => LookOnce(m, t, pc);
      case Clear(_, _, _) => ChooseOnce(m, t, pc, env);
      case Claiming(d) => ClaimTaskOnce(m, t, d);
      case Sending(d) => SendOnce(m, t, d, env.send);
      case Settling(_, _) => SettleOnce(m, t, pc);
      case _ =>
    }
  }

  /** Settling an acceptance gives the delivery its last status, unless it has one or is gone. */
  lemma SettleSpends(m: Machine, t: nat, pc: Pc)
    requires pc.Settling? && pc.answer.Accepted? && ClaimedOrCancelled(m.s, pc.d)
    ensures
      var after := Settle(m, t, pc).s.deliveries;
      pc.d.id in after ==> after[pc.d.id].status.Injected? || after[pc.d.id].status.Cancelled?
  {
    if pc.d.id in m.s.deliveries && pc.d.status.Injecting? {
      TransitionResult(m.s, pc.d, Injected, Some("runtime_send_turn"), None);
    }
  }

  /** Acceptances are appended, and only by a task that is sending. */
  lemma NextAccepts(m: Machine, t: nat, env: Env)
    requires t in m.tasks && !m.tasks[t].Waiting?
    ensures
      var pc := m.tasks[t];
      Next(m, t, pc, env).accepted == if pc.Sending? && env.send.Accepted? then m.accepted + [pc.d.id] else m.accepted
  {
    var pc := m.tasks[t];
    if pc.Settling? {
      assert Settle(m, t, pc).accepted == m.accepted;
    }
  }

  /** The delivery whose guard holder runs, and which was accepted: it is settled or left alone. */
  lemma RunningSpent(m: Machine, t: nat, env: Env)
    requires Base(m) && t in m.tasks && !m.tasks[t].Waiting? && Once(m, Subject(m.tasks[t])) && Subject(m.tasks[t]) in m.accepted
    ensures Spent(Next(m, t, m.tasks[t], env), Subject(m.tasks[t]))
  {
    var d, next := Subject(m.tasks[t]), Next(m, t, m.tasks[t], env);
    assert TaskOk(m, t) && TaskOnce(m, t) && Spent(m, d);
    NextFrame(m, t, env);
    NextChanges(m, t, env);
    if m.tasks[t].Settling? && m.tasks[t].answer.Accepted? {
      SettleSpends(m, t, m.tasks[t]);
    } else {
      FinalUnderNext(m, t, env);
    }
  }

  /** A last status survives every section. */
  lemma FinalUnderNext(m: Machine, t: nat, env: Env)
    requires RoutesOk(m.s, m.routes) && t in m.tasks && TaskOk(m, t) && !m.tasks[t].Waiting?
    ensures
      var d, next := Subject(m.tasks[t]), Next(m, t, m.tasks[t], env).s;
      d in next.deliveries ==>
        d in m.s.deliveries
        && (m.s.deliveries[d].status.Injected? || m.s.deliveries[d].status.Cancelled? ==>
              next.deliveries[d].status == m.s.deliveries[d].status)
  {
    NextChanges(m, t, env);
    hide Next;
  }

  lemma AcceptedSpent(m: Machine, t: nat, env: Env)
    requires t in m.tasks && m.tasks[t].Sending? && env.send.Accepted? && TaskOk(m, t)
    ensures Spent(Next(m, t, m.tasks[t], env), Subject(m.tasks[t]))
  {
  }

  /** Some other delivery, in another's section: at most quietly changed, its holder untouched unless it is the runner. */
  lemma OtherSpent(m: Machine, t: nat, env: Env, d: Id)
    requires Base(m) && t in m.tasks && !m.tasks[t].Waiting? && Subject(m.tasks[t]) != d && Spent(m, d)
    ensures Spent(Next(m, t, m.tasks[t], env), d)
  {
    assert TaskOk(m, t);
    NextFrame(m, t, env);
    NextAddsNothing(m, t, env);
    if d in m.s.deliveries {
      OthersUntouched(m, t, env, d);
      if BeingSettled(m, d) {
        assert TaskOk(m, m.guards[m.routes[d]]);
      }
    }
    hide Next;
  }

  lemma AdvanceSpent(m: Machine, t: nat, env: Env, d: Id)
    requires Base(m) && Once(m, d) && t in m.tasks && !m.tasks[t].Waiting? && d in Next(m, t, m.tasks[t], env).accepted
    ensures Spent(Next(m, t, m.tasks[t], env), d)
  {
    NextAccepts(m, t, env);
    assert TaskOk(m, t);
    hide Next, Spent, RepInv, RoutesOk, AllClean, TaskOk;
    if Subject(m.tasks[t]) == d {
      if d in m.accepted {
        RunningSpent(m, t, env);
      } else {
        TaskIsOk(m, t);
        AcceptedSpent(m, t, env);
      }
    } else {
      OtherSpent(m, t, env, d);
    }
  }

  /** Another task on the delivery waits for the guard, so a section of the holder cannot hurt it. */
  lemma OtherTaskOnce(m: Machine, t: nat, env: Env, u: nat)
    requires Base(m) && t in m.tasks && !m.tasks[t].Waiting? && u != t && u in m.tasks && TaskOnce(m, u)
    requires u in Next(m, t, m.tasks[t], env).tasks
    ensures TaskOnce(Next(m, t, m.tasks[t], env), u)
  {
    NextFrame(m, t, env);
    NextAccepts(m, t, env);
    TaskIsOk(m, t);
    TaskIsOk(m, u);
    NextChanges(m, t, env);
    if !m.tasks[u].Waiting? {
      if Recipient(m.tasks[t]) == Recipient(m.tasks[u]) {
        GuardsExclude(m, t, u);
      }
      hide Next, RepInv;
      QuietIsStay(m, Next(m, t, m.tasks[t], env).s, Some(Recipient(m.tasks[t])), None, Subject(m.tasks[u]));
      SnapshotLasts(m, Next(m, t, m.tasks[t], env).s, u);
    }
  }

  lemma AdvanceTimes(m: Machine, t: nat, env: Env, d: Id)
    requires Once(m, d) && t in m.tasks && !m.tasks[t].Waiting?
    ensures Times(Next(m, t, m.tasks[t], env).accepted, d) <= 1
  {
    NextAccepts(m, t, env);
    hide Next, Spent, SnapshotOk;
    if m.tasks[t].Sending? && m.tasks[t].d.id == d {
      assert TaskOnce(m, t);
      assert d !in m.accepted && Times(m.accepted, d) == 0;
    }
  }

  lemma AdvanceOnce(m: Machine, t: nat, env: Env, d: Id)
    requires Base(m) && Once(m, d) && t in m.tasks && !m.tasks[t].Waiting?
    ensures Once(Next(m, t, m.tasks[t], env), d)
  {
    hide Next, Spent, TaskOnce, RepInv, RoutesOk, AllClean, TaskOk;
    var next := Next(m, t, m.tasks[t], env);
    AdvanceTimes(m, t, env, d);
    if d in next.accepted {
      AdvanceSpent(m, t, env, d);
    }
    forall u | u in next.tasks && Subject(next.tasks[u]) == d ensures TaskOnce(next, u) {
      TaskIsOk(m, t);
      NextFrame(m, t, env);
      if u == t {
        NextFollows(m, t, env);
        NextOnce(m, t, env);
      } else {
        OtherTaskOnce(m, t, env, u);
      }
    }
  }

  // ---- Calls ----

  lemma CallSpent(m: Machine, next: Machine, d: Id)
    requires Spent(m, d) && RoutesGrow(m, next)
    requires d in next.s.deliveries ==> d in m.s.deliveries
    requires d in next.s.deliveries && (m.s.deliveries[d].status.Injected? || m.s.deliveries[d].status.Cancelled?) ==>
               next.s.deliveries[d].status == m.s.deliveries[d].status
    requires forall t :: t in m.tasks && !m.tasks[t].Waiting? ==> t in next.tasks && next.tasks[t] == m.tasks[t]
    requires forall r :: r in m.guards ==> r in next.guards && next.guards[r] == m.guards[r]
    ensures Spent(next, d)
  {
  }

  /** The tasks of the delivery after a call, when their snapshots stay good. */
  lemma CallTasksOnce(m: Machine, step: Step, d: Id)
    requires !step.Advance? && Once(m, d)
    requires forall t :: t in m.tasks && Subject(m.tasks[t]) == d && !m.tasks[t].Waiting? ==>
               SnapshotOk(Take1(m, step).s, m.tasks[t])
    requires d in m.accepted ==> Spent(Take1(m, step), d)
    ensures Once(Take1(m, step), d)
  {
    CallFrame(m, step);
    hide Take1, Spent;
    var next := Take1(m, step);
    forall t | t in next.tasks && Subject(next.tasks[t]) == d ensures TaskOnce(next, t) {
      if t in m.tasks && !m.tasks[t].Waiting? {
        assert TaskOnce(m, t);
      }
    }
  }

  /** A known delivery that is spent keeps its last status under calls. */
  lemma FinalUnderCall(m: Machine, step: Step, d: Id)
    requires Base(m) && !step.Advance? && d in m.routes
    ensures
      var next := Take1(m, step).s;
      d in next.deliveries ==>
        d in m.s.deliveries
        && (m.s.deliveries[d].status.Injected? || m.s.deliveries[d].status.Cancelled? ==>
              next.deliveries[d].status == m.s.deliveries[d].status)
  {
    hide Take1, RepInv, Changes, RoutesOk, TaskOk, AllClean;
    StepChanges(m, step);
    FinalUnderChanges(m.s, Take1(m, step).s, m.routes, Mover(m, step), RetriedBy(step), d);
  }

  lemma FinalUnderChanges(s: State, next: State, routes: map<Id, Id>, mover: Option<Id>, retried: Option<Id>, d: Id)
    requires Changes(s, next, routes, mover, retried) && d in routes
    ensures d in next.deliveries ==>
              d in s.deliveries
              && (s.deliveries[d].status.Injected? || s.deliveries[d].status.Cancelled? ==>
                    next.deliveries[d].status == s.deliveries[d].status)
  {
  }

  lemma CallKeepsSpent(m: Machine, step: Step, d: Id)
    requires Base(m) && !step.Advance? && Spent(m, d)
    ensures Spent(Take1(m, step), d)
  {
    CallFrame(m, step);
    StepRoutes(m, step);
    FinalUnderCall(m, step, d);
    hide Take1, Base;
    CallSpent(m, Take1(m, step), d);
  }

  lemma CallSnapshots(m: Machine, step: Step, d: Id, t: nat)
    requires Base(m) && Once(m, d) && !step.Advance? && RetriedBy(step) != Some(d)
    requires t in m.tasks && Subject(m.tasks[t]) == d && !m.tasks[t].Waiting?
    ensures SnapshotOk(Take1(m, step).s, m.tasks[t])
  {
    TaskIsOk(m, t);
    StepChanges(m, step);
    assert TaskOnce(m, t);
    hide Take1, RepInv;
    QuietIsStay(m, Take1(m, step).s, None, RetriedBy(step), d);
    SnapshotLasts(m, Take1(m, step).s, t);
  }

  /** A successful retry outside the window meets no attempt that could mind it. */
  lemma RetrySnapshots(m: Machine, step: Step, d: Id, t: nat)
    requires Base(m) && Once(m, d) && Retries(m, step, d) && !InWindow(m, d)
    requires t in m.tasks && Subject(m.tasks[t]) == d && !m.tasks[t].Waiting?
    ensures SnapshotOk(Take1(m, step).s, m.tasks[t])
  {
    assert TaskOnce(m, t);
    assert !InHand(m.tasks[t], d);
    hide RepInv;
  }

  lemma StepOnce(m: Machine, step: Step, d: Id)
    requires Base(m) && Once(m, d) && !(Retries(m, step, d) && InWindow(m, d))
    ensures Once(Take1(m, step), d)
  {
    hide Base, Once, InWindow, Spent, SnapshotOk, Retries;
    if step.Advance? {
      if Runs(m, step, step.task) {
        AdvanceOnce(m, step.task, step.env, d);
      }
    } else if step.RetryDelivery? && step.id == d && !Retries(m, step, d) {
      RefusedRetry(m, step, d);
    } else {
      hide Take1;
      forall t | t in m.tasks && Subject(m.tasks[t]) == d && !m.tasks[t].Waiting?
        ensures SnapshotOk(Take1(m, step).s, m.tasks[t])
      {
        if Retries(m, step, d) {
          RetrySnapshots(m, step, d, t);
        } else {
          CallSnapshots(m, step, d, t);
        }
      }
      if d in m.accepted {
        OnceSpent(m, d);
        CallKeepsSpent(m, step, d);
      }
      CallTasksOnce(m, step, d);
    }
  }

  lemma OnceSpent(m: Machine, d: Id)
    requires Once(m, d) && d in m.accepted
    ensures Spent(m, d)
  {
  }

  // ---- Whole runs ----

  lemma {:induction false} RunOnce(m: Machine, steps: seq<Step>, d: Id)
    requires Base(m) && Once(m, d) && NoRetryInWindow(m, steps, d)
    ensures Base(Run(m, steps)) && Once(Run(m, steps), d)
  {
    hide Base, Once, Take1;
    if steps != [] {
      RunOnce(m, steps[..|steps| - 1], d);
      StepKeepsBase(Run(m, steps[..|steps| - 1]), steps[|steps| - 1]);
      StepOnce(Run(m, steps[..|steps| - 1]), steps[|steps| - 1], d);
    }
  }

  lemma StartOnce(m: Machine, d: Id)
    requires Start(m)
    ensures Base(m) && Once(m, d)
  {
  }

  /**
  At most once: a delivery none of whose successful retries falls between the look and the claim of an
  attempt at it has its turn accepted at most once, in every interleaving; retries of other deliveries,
  and its own at any other time, do no harm.
  */
  lemma AcceptedAtMostOnce(m: Machine, steps: seq<Step>, d: Id)
    requires Start(m) && NoRetryInWindow(m, steps, d)
    ensures Times(Run(m, steps).accepted, d) <= 1
  {
    hide Start, Run, NoRetryInWindow, Base;
    StartOnce(m, d);
    RunOnce(m, steps, d);
  }

  predicate NoRetries(steps: seq<Step>) {
    forall i :: 0 <= i < |steps| ==> !steps[i].RetryDelivery?
  }

  lemma {:induction false} NoRetriesNoneInWindow(m: Machine, steps: seq<Step>, d: Id)
    requires NoRetries(steps)
    ensures NoRetryInWindow(m, steps, d)
  {
    if steps != [] {
      NoRetriesNoneInWindow(m, steps[..|steps| - 1], d);
    }
  }

  /** In particular a run without retries accepts nothing twice. */
  lemma WithoutRetriesNothingTwice(m: Machine, steps: seq<Step>)
    requires Start(m) && NoRetries(steps)
    ensures forall d :: Times(Run(m, steps).accepted, d) <= 1
  {
    hide Start, Run;
    forall d ensures Times(Run(m, steps).accepted, d) <= 1 {
      NoRetriesNoneInWindow(m, steps, d);
      AcceptedAtMostOnce(m, steps, d);
    }
  }

  // ---- Cancels ----

  /** Nothing in hand has been cancelled, and nothing accepted is. */
  ghost predicate Uncancelled(m: Machine, d: Id) {
    && (forall t :: t in m.tasks && Subject(m.tasks[t]) == d ==> TaskUncancelled(m, t))
    && (d in m.accepted && d in m.s.deliveries ==>
          m.s.deliveries[d].status.Injecting? || m.s.deliveries[d].status.Injected?)
  }

  ghost predicate TaskUncancelled(m: Machine, t: nat)
    requires t in m.tasks
  {
    var pc := m.tasks[t];
    && (pc.Looking? || pc.Clear? || pc.Claiming? ==> SameStatus(m.s, pc.d))
    && (pc.Sending? || pc.Settling? ==> pc.d.status.Injecting?)
  }

  ghost predicate SameStatus(s: State, d: Delivery) {
    d.id in s.deliveries ==> s.deliveries[d.id].status == d.status
  }

  lemma OwnList(s: State, d: Id, message: Id)
    requires RepInv(s) && d in s.deliveries && s.deliveries[d].message != message
    ensures d !in ListOf(s.messageDeliveries, message)
  {
    assert ColumnOk(s, ByMessage);
    assert d in Owners(s.deliveries, ByMessage);
  }

  lemma CancelLeaves(m: Machine, step: Step, d: Id)
    requires RepInv(m.s) && step.CancelMessage? && !Cancels(m, step, d)
    ensures
      var next := Take1(m, step).s.deliveries;
      d in next ==> d in m.s.deliveries && next[d].status == m.s.deliveries[d].status
  {
    var r := Cancel(m.s, step.team, step.message);
    if r.Ok? {
      CancelSpares(m.s, step.team, step.message, d);
    }
    hide RepInv, Cancel;
  }

  lemma CancelSpares(s: State, team: Id, message: Id, d: Id)
    requires RepInv(s) && Cancel(s, team, message).Ok? && (d in s.deliveries ==> s.deliveries[d].message != message)
    ensures
      var next := Cancel(s, team, message).value.deliveries;
      d in next ==> d in s.deliveries && next[d] == s.deliveries[d]
  {
    if d in s.deliveries {
      OwnList(s, d, message);
    }
    hide RepInv;
  }

  /** A call that neither retries the delivery nor cancels its message leaves its status alone. */
  lemma CallLeaves(m: Machine, step: Step, d: Id)
    requires Base(m) && !step.Advance? && d in m.routes && !Retries(m, step, d) && !Cancels(m, step, d)
    ensures
      var next := Take1(m, step).s.deliveries;
      d in next ==> d in m.s.deliveries && next[d].status == m.s.deliveries[d].status
  {
    if step.CancelMessage? {
      CancelLeaves(m, step, d);
    } else if LeavesDeliveries(step) {
      DeliveriesLeft(m, step);
    } else if step.Create? {
      CreateStep(m, step);
      hide Take1;
    } else if step.RetryDelivery? {
      hide RepInv;
    } else {
      assert step.Delete?;
      hide RepInv;
    }
  }

  lemma ClaimUncancelled(m: Machine, t: nat, d: Delivery)
    requires t in m.tasks && m.tasks[t] == Claiming(d) && SameStatus(m.s, d) && IsOpen(d.status) && t in Claim(m, t, d).tasks
    ensures TaskUncancelled(Claim(m, t, d), t)
  {
    if d.id in m.s.deliveries {
      TransitionResult(m.s, d, Injecting, None, None);
    }
  }

  lemma NextUncancelled(m: Machine, t: nat, env: Env)
    requires RoutesOk(m.s, m.routes) && t in m.tasks && TaskOk(m, t) && TaskUncancelled(m, t) && !m.tasks[t].Waiting?
    requires t in Next(m, t, m.tasks[t], env).tasks
    ensures TaskUncancelled(Next(m, t, m.tasks[t], env), t)
  {
    var pc := m.tasks[t];
    match pc {
      case Locked(_, _, _) => LookUpUncancelled(m, t, pc);
      case Looking(_, _, _) => LookUncancelled(m, t, pc);
      case Clear(_, _, _) => ChooseUncancelled(m, t, pc, env);
      case Claiming(d) => ClaimUncancelled(m, t, d);
      case Settling(_, _) => SettleUncancelled(m, t, pc);
      case _ =>
    }
  }

  lemma LookUpUncancelled(m: Machine, t: nat, pc: Pc)
    requires RoutesOk(m.s, m.routes) && pc.Locked? && t in LookUp(m, t, pc).tasks && t in m.tasks && m.tasks[t] == pc
    ensures TaskUncancelled(LookUp(m, t, pc), t)
  {
  }

  lemma LookUncancelled(m: Machine, t: nat, pc: Pc)
    requires pc.Looking? && SameStatus(m.s, pc.d) && t in LookAhead(m, t, pc).tasks
    ensures TaskUncancelled(LookAhead(m, t, pc), t)
  {
  }

  lemma ChooseUncancelled(m: Machine, t: nat, pc: Pc, env: Env)
    requires pc.Clear? && SameStatus(m.s, pc.d) && t in Choose(m, t, pc, env).tasks
    ensures TaskUncancelled(Choose(m, t, pc, env), t)
  {
  }

  lemma SettleUncancelled(m: Machine, t: nat, pc: Pc)
    requires pc.Settling? && t in Settle(m, t, pc).tasks
    ensures TaskUncancelled(Settle(m, t, pc), t)
  {
  }

  /** The running task's own delivery, once accepted, is injecting until it is injected. */
  lemma RunningUncancelled(m: Machine, t: nat, env: Env)
    requires Base(m) && t in m.tasks && !m.tasks[t].Waiting?
    requires Once(m, Subject(m.tasks[t])) && Uncancelled(m, Subject(m.tasks[t]))
    ensures
      var d, next := Subject(m.tasks[t]), Next(m, t, m.tasks[t], env);
      d in next.accepted && d in next.s.deliveries ==> next.s.deliveries[d].status.Injecting? || next.s.deliveries[d].status.Injected?
  {
    var d, next := Subject(m.tasks[t]), Next(m, t, m.tasks[t], env);
    var pc := m.tasks[t];
    TaskIsOk(m, t);
    assert TaskOnce(m, t) && TaskUncancelled(m, t);
    NextAccepts(m, t, env);
    FinalUnderNext(m, t, env);
    hide RepInv, RoutesOk, AllClean;
    if pc.Settling? && pc.answer.Accepted? {
      SettleInjects(m, t, pc);
    } else if pc.Sending? {
      assert next.s == m.s;
    } else if d in m.accepted {
      HeldElsewhere(m, t, d);
      hide Next;
    }
  }

  lemma SettleInjects(m: Machine, t: nat, pc: Pc)
    requires pc.Settling? && pc.answer.Accepted? && pc.d.status.Injecting? && ClaimedOrCancelled(m.s, pc.d)
    ensures
      var after := Settle(m, t, pc).s.deliveries;
      pc.d.id in after ==> after[pc.d.id].status.Injected?
  {
    if pc.d.id in m.s.deliveries {
      TransitionResult(m.s, pc.d, Injected, Some("runtime_send_turn"), None);
    }
  }

  /** When the guard holder is not settling the delivery, an accepted one has its last status. */
  lemma HeldElsewhere(m: Machine, t: nat, d: Id)
    requires t in m.tasks && TaskOk(m, t) && !m.tasks[t].Waiting? && Subject(m.tasks[t]) == d && Spent(m, d)
    requires !(m.tasks[t].Settling? && m.tasks[t].answer.Accepted?)
    ensures d in m.s.deliveries ==> m.s.deliveries[d].status.Injected? || m.s.deliveries[d].status.Cancelled?
  {
  }

  lemma OtherTaskUncancelled(m: Machine, t: nat, env: Env, u: nat)
    requires Base(m) && t in m.tasks && !m.tasks[t].Waiting? && u != t && u in m.tasks && TaskUncancelled(m, u)
    requires u in Next(m, t, m.tasks[t], env).tasks
    ensures TaskUncancelled(Next(m, t, m.tasks[t], env), u)
  {
    NextFrame(m, t, env);
    NextAddsNothing(m, t, env);
    TaskIsOk(m, t);
    TaskIsOk(m, u);
    if !m.tasks[u].Waiting? {
      if Recipient(m.tasks[t]) == Recipient(m.tasks[u]) {
        GuardsExclude(m, t, u);
      }
      var d := Subject(m.tasks[u]);
      if d in m.s.deliveries {
        OthersUntouched(m, t, env, d);
      }
      hide Next, RepInv, RoutesOk, AllClean;
    }
  }

  lemma AdvanceUncancelled(m: Machine, t: nat, env: Env, d: Id)
    requires Base(m) && Once(m, d) && Uncancelled(m, d) && t in m.tasks && !m.tasks[t].Waiting?
    ensures Uncancelled(Next(m, t, m.tasks[t], env), d)
  {
    var next := Next(m, t, m.tasks[t], env);
    NextFrame(m, t, env);
    NextAccepts(m, t, env);
    hide Next, RepInv, RoutesOk, AllClean, TaskOk, Once, TaskUncancelled;
    forall u | u in next.tasks && Subject(next.tasks[u]) == d ensures TaskUncancelled(next, u) {
      TaskIsOk(m, t);
      if u == t {
        NextFollows(m, t, env);
        NextUncancelled(m, t, env);
      } else {
        OtherTaskUncancelled(m, t, env, u);
      }
    }
    if Subject(m.tasks[t]) == d {
      RunningUncancelled(m, t, env);
    } else if d in m.accepted {
      NextAddsNothing(m, t, env);
      if d in m.s.deliveries {
        OthersUntouched(m, t, env, d);
      }
    }
  }

  lemma FrameUncancelled(m: Machine, next: Machine, d: Id)
    requires Uncancelled(m, d) && next.accepted == m.accepted
    requires d in next.s.deliveries ==> d in m.s.deliveries && next.s.deliveries[d].status == m.s.deliveries[d].status
    requires forall t :: t in next.tasks && t !in m.tasks ==> next.tasks[t].Waiting?
    requires forall t :: t in m.tasks && t in next.tasks && next.tasks[t] != m.tasks[t] ==>
               next.tasks[t].Locked? && Subject(next.tasks[t]) == Subject(m.tasks[t])
    ensures Uncancelled(next, d)
  {
    forall t | t in next.tasks && Subject(next.tasks[t]) == d ensures TaskUncancelled(next, t) {
      if t in m.tasks && next.tasks[t] == m.tasks[t] {
        assert TaskUncancelled(m, t);
      }
    }
  }

  /** A call that leaves the delivery's status alone. */
  lemma CallUncancelled(m: Machine, step: Step, d: Id)
    requires Base(m) && Once(m, d) && Uncancelled(m, d) && !step.Advance? && d in m.routes
    requires !Retries(m, step, d) && !Cancels(m, step, d)
    ensures Uncancelled(Take1(m, step), d)
  {
    hide Take1, Base, Once, Retries, Cancels, Uncancelled;
    CallFrame(m, step);
    CallLeaves(m, step, d);
    FrameUncancelled(m, Take1(m, step), d);
  }

  lemma OutsideTask(m: Machine, next: Machine, t: nat, d: Id)
    requires t in m.tasks && t in next.tasks && next.tasks[t] == m.tasks[t] && TaskUncancelled(m, t)
    requires Subject(m.tasks[t]) == d && !InHand(m.tasks[t], d)
    ensures TaskUncancelled(next, t)
  {
  }

  lemma NewTask(m: Machine, t: nat)
    requires t in m.tasks && (m.tasks[t].Waiting? || m.tasks[t].Locked?)
    ensures TaskUncancelled(m, t)
  {
  }

  lemma TouchedOutside(m: Machine, step: Step, d: Id)
    requires Base(m) && Once(m, d) && Uncancelled(m, d) && !InWindow(m, d)
    requires Retries(m, step, d) || Cancels(m, step, d)
    ensures Uncancelled(Take1(m, step), d)
  {
    CallFrame(m, step);
    CancelsOpen(m, step, d);
    hide Take1, Base, Retries, Cancels, Spent, TaskUncancelled, TaskOnce;
    var next := Take1(m, step);
    forall t | t in next.tasks && Subject(next.tasks[t]) == d ensures TaskUncancelled(next, t) {
      if t in m.tasks && !m.tasks[t].Waiting? {
        assert TaskUncancelled(m, t) && !InHand(m.tasks[t], d);
        OutsideTask(m, next, t, d);
      } else {
        NewTask(next, t);
      }
    }
  }

  lemma ListedOwn(s: State, d: Id)
    requires RepInv(s) && d in s.deliveries
    ensures d in ListOf(s.messageDeliveries, s.deliveries[d].message)
  {
    assert ColumnOk(s, ByMessage);
    assert d in Owners(s.deliveries, ByMessage);
  }

  /** What is retried or cancelled is not injecting or injected. */
  lemma CancelsOpen(m: Machine, step: Step, d: Id)
    requires RepInv(m.s) && (Retries(m, step, d) || Cancels(m, step, d))
    ensures d in m.s.deliveries && !m.s.deliveries[d].status.Injecting? && !m.s.deliveries[d].status.Injected?
  {
    if Cancels(m, step, d) {
      ListedOwn(m.s, d);
    }
    hide RepInv;
  }

  lemma UnknownUncancelled(m: Machine, d: Id)
    requires Base(m) && Once(m, d) && d !in m.routes
    ensures Uncancelled(m, d)
  {
    forall t | t in m.tasks ensures Subject(m.tasks[t]) != d {
      assert TaskOk(m, t);
    }
    assert d !in m.accepted;
  }

  lemma StepUncancelled(m: Machine, step: Step, d: Id)
    requires Base(m) && Once(m, d) && Uncancelled(m, d)
    requires !(Retries(m, step, d) && InWindow(m, d)) && !(Cancels(m, step, d) && InWindow(m, d))
    ensures Uncancelled(Take1(m, step), d)
  {
    hide Base, Once, Uncancelled, InWindow, Retries, Cancels;
    if step.Advance? {
      if Runs(m, step, step.task) {
        AdvanceUncancelled(m, step.task, step.env, d);
      }
    } else if d !in m.routes {
      NewUncancelled(m, step, d);
    } else if Retries(m, step, d) || Cancels(m, step, d) {
      TouchedOutside(m, step, d);
    } else {
      CallUncancelled(m, step, d);
    }
  }

  /** A delivery not known before the call has no task and no acceptance after it. */
  lemma NewUncancelled(m: Machine, step: Step, d: Id)
    requires Base(m) && Once(m, d) && !step.Advance? && d !in m.routes
    ensures Uncancelled(Take1(m, step), d)
  {
    CallFrame(m, step);
    UnknownUncancelled(m, d);
    forall t | t in m.tasks ensures Subject(m.tasks[t]) != d {
      assert TaskOk(m, t);
    }
    hide RepInv, RoutesOk, AllClean;
    hide Once;
    assert d !in m.accepted by {
      UnknownUnaccepted(m, d);
    }
    SpawnedAreKnown(m, step, d);
    hide Take1;
  }

  lemma UnknownUnaccepted(m: Machine, d: Id)
    requires Once(m, d) && d !in m.routes
    ensures d !in m.accepted
  {
  }

  lemma SpawnedAreKnown(m: Machine, step: Step, d: Id)
    requires RoutesOk(m.s, m.routes) && !step.Advance? && d !in m.routes
    ensures forall t :: t in Take1(m, step).tasks && t !in m.tasks ==> Subject(Take1(m, step).tasks[t]) != d
  {
  }

  lemma {:induction false} RunUncancelled(m: Machine, steps: seq<Step>, d: Id)
    requires Base(m) && Once(m, d) && Uncancelled(m, d) && NoRetryInWindow(m, steps, d) && NoCancelInWindow(m, steps, d)
    ensures Uncancelled(Run(m, steps), d)
  {
    hide Base, Once, Uncancelled, Take1, InWindow;
    if steps != [] {
      RunUncancelled(m, steps[..|steps| - 1], d);
      RunOnce(m, steps[..|steps| - 1], d);
      StepUncancelled(Run(m, steps[..|steps| - 1]), steps[|steps| - 1], d);
    }
  }

  /**
  A delivery whose message is not cancelled successfully, and which is not retried successfully, while an
  attempt at it is between its look and its claim is never both accepted and cancelled: as long as an
  accepted one exists it is injecting or injected.
  */
  lemma AcceptedIsNotCancelled(m: Machine, steps: seq<Step>, d: Id)
    requires Start(m) && NoRetryInWindow(m, steps, d) && NoCancelInWindow(m, steps, d)
    ensures d in Run(m, steps).accepted && d in Run(m, steps).s.deliveries ==>
              Run(m, steps).s.deliveries[d].status.Injecting? || Run(m, steps).s.deliveries[d].status.Injected?
  {
    StartOnce(m, d);
    assert Uncancelled(m, d);
    hide Start, Run, NoRetryInWindow, NoCancelInWindow, Base, Once;
    RunUncancelled(m, steps, d);
  }
}
