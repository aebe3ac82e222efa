/**
The window of an attempt, from its look to its claim: exactly there a retry can make a delivery be
accepted twice, and a cancel can leave it accepted and cancelled.
*/
module DeliveryRaces {
  import opened Wrappers
  import opened TeamIndex
  import opened TeamState
  import opened Injection
  import opened DeliveryMachine
  import opened DeliveryRuns
  import opened DeliveryOrder
  import opened AttemptSchedules
  import opened DeliveryOnce
  import opened DeliveryReady

  /** An attempt has the delivery in hand, and nothing it can still look at stops it. */
  ghost predicate Exposed(m: Machine, t: nat, d: Id) {
    t in m.tasks && InHand(m.tasks[t], d) && (m.tasks[t].Looking? ==> Blocker(m.s, m.tasks[t].d).None?)
  }

  // ---- From the window to the send ----

  function ToClaim(pc: Pc, t: nat, env: Env): seq<Step> {
    if pc.Looking? then [Advance(t, env), Advance(t, env)]
    else if pc.Clear? then [Advance(t, env)]
    else []
  }

  lemma ReachesClaim(m: Machine, t: nat, d: Id, answer: SendAnswer)
    requires Exposed(m, t, d) && (m.tasks[t].Looking? || m.tasks[t].Clear? ==> PolicyOk(m.tasks[t].d, m.tasks[t].m))
    ensures Run(m, ToClaim(m.tasks[t], t, FreeEnv(answer))) == m.(tasks := m.tasks[t := Claiming(m.tasks[t].d)])
  {
    var pc, env := m.tasks[t], FreeEnv(answer);
    hide Decide, Blocker, PolicyOk, Take1;
    if pc.Looking? {
      FreeProceeds(pc.d, pc.m, pc.trigger, answer);
      var clear := At(m, t, Clear(pc.d, pc.m, pc.trigger));
      Run2(m, Advance(t, env), Advance(t, env));
      LooksClear(m, t, env);
      ChoosesClaim(clear, t, pc.d, pc.m, pc.trigger, env);
      assert clear.tasks[t := Claiming(pc.d)] == m.tasks[t := Claiming(pc.d)];
    } else if pc.Clear? {
      FreeProceeds(pc.d, pc.m, pc.trigger, answer);
      Run1(m, Advance(t, env));
      ChoosesClaim(m, t, pc.d, pc.m, pc.trigger, env);
    } else {
      assert m.tasks[t := Claiming(pc.d)] == m.tasks;
    }
  }

  lemma LooksClear(m: Machine, t: nat, env: Env)
    requires t in m.tasks && m.tasks[t].Looking? && Blocker(m.s, m.tasks[t].d).None?
    ensures Take1(m, Advance(t, env)) == At(m, t, Clear(m.tasks[t].d, m.tasks[t].m, m.tasks[t].trigger))
  {
    hide Blocker;
    assert Take1(m, Advance(t, env)) == LookAhead(m, t, m.tasks[t]);
  }

  lemma ChoosesClaim(m: Machine, t: nat, d: Delivery, msg: Message, trigger: Trigger, env: Env)
    requires t in m.tasks && m.tasks[t] == Clear(d, msg, trigger) && Decide(d, msg, trigger, env).Proceed?
    ensures Take1(m, Advance(t, env)) == m.(tasks := m.tasks[t := Claiming(d)])
  {
    Chooses(m, t, d, msg, trigger, env);
    Run1(m, Advance(t, env));
  }

  /** The claim of a snapshot that is out of date is lost, and the send goes out. */
  lemma LateClaimSends(m: Machine, t: nat, d: Id, answer: SendAnswer)
    requires Exposed(m, t, d) && (m.tasks[t].Looking? || m.tasks[t].Clear? ==> PolicyOk(m.tasks[t].d, m.tasks[t].m))
    requires answer.Accepted? && IsOpen(m.tasks[t].d.status)
    requires d in m.s.deliveries && m.s.deliveries[d].id == d && m.s.deliveries[d].status != m.tasks[t].d.status
    ensures
      Run(m, ToClaim(m.tasks[t], t, FreeEnv(answer)) + ClaimAndSend(t, FreeEnv(answer)))
      == m.(tasks := m.tasks[t := Settling(m.s.deliveries[d], answer)], accepted := m.accepted + [d])
  {
    var pc, env := m.tasks[t], FreeEnv(answer);
    ReachesClaim(m, t, d, answer);
    hide Run, ToClaim, ClaimAndSend, Exposed, PolicyOk;
    var claiming := m.(tasks := m.tasks[t := Claiming(pc.d)]);
    LostClaimSends(claiming, t, pc.d, env);
    assert claiming.tasks[t := Settling(m.s.deliveries[d], answer)] == m.tasks[t := Settling(m.s.deliveries[d], answer)];
    RunAppend(m, ToClaim(pc, t, env), ClaimAndSend(t, env));
  }

  lemma ToSendIsCalm(pc: Pc, t: nat, env: Env)
    ensures Calm(ToClaim(pc, t, env) + ClaimAndSend(t, env))
  {
  }

  // ---- Cancelled in the window ----

  /** A cancel closes deliveries, so it unblocks and never blocks. */
  lemma {:induction false} StillNoBlocker(ids: seq<Id>, id: Id, before: map<Id, Delivery>, after: map<Id, Delivery>)
    requires FirstOpen(ids, id, before).None?
    requires forall x :: x in after && x != id ==> x in before && (IsTerminal(before[x].status) ==> IsTerminal(after[x].status))
    ensures FirstOpen(ids, id, after).None?
  {
    if ids != [] && ids[0] != id {
      StillNoBlocker(ids[1..], id, before, after);
    }
  }

  lemma CancelCloses(s: State, team: Id, message: Id, d: Id)
    requires RepInv(s) && Cancel(s, team, message).Ok? && d in s.deliveries && s.deliveries[d].message == message
    ensures
      var next := Cancel(s, team, message).value;
      && next.deliveries.Keys == s.deliveries.Keys && next.recipientDeliveries == s.recipientDeliveries
      && next.deliveries[d] == s.deliveries[d].(status := Cancelled)
      && forall x :: x in s.deliveries ==> next.deliveries[x].status == s.deliveries[x].status || next.deliveries[x].status.Cancelled?
  {
    ListedOwn(s, d);
    hide RepInv;
  }

  lemma CancelExposes(m: Machine, t: nat, d: Id, cancel: Step)
    requires RepInv(m.s) && Exposed(m, t, d) && Cancels(m, cancel, d)
    ensures d in m.s.deliveries
    ensures
      var next := Take1(m, cancel);
      && Exposed(next, t, d) && next.tasks == m.tasks && next.accepted == m.accepted
      && d in next.s.deliveries && next.s.deliveries[d] == m.s.deliveries[d].(status := Cancelled)
  {
    CancelCloses(m.s, cancel.team, cancel.message, d);
    hide RepInv, Cancel;
    var next := Take1(m, cancel);
    if m.tasks[t].Looking? {
      StillNoBlocker(QueueOf(m.s, m.tasks[t].d.recipient), d, m.s.deliveries, next.s.deliveries);
    }
  }

  lemma CancelledIsNotOpen(status: Status)
    requires IsOpen(status)
    ensures status != Cancelled
  {
  }

  lemma PlaceOf(m: Machine, t: nat)
    requires Ready(m) && t in m.tasks
    ensures PcReady(m.s, m.tasks[t]) && TaskOk(m, t) && RepInv(m.s) && RoutesOk(m.s, m.routes)
  {
  }

  lemma KeyOf(m: Machine, d: Id)
    requires RoutesOk(m.s, m.routes) && d in m.s.deliveries
    ensures m.s.deliveries[d].id == d
  {
  }

  /**
  Cancelled, yet sent: in every reachable state, a cancel of a delivery that an attempt has in hand does not
  stop it; some continuation, with no further cancel or retry, has the turn accepted, and the delivery stays
  cancelled.
  */
  lemma CancelledYetSent(m: Machine, t: nat, d: Id, cancel: Step, turn: Id)
    requires Ready(m) && Exposed(m, t, d) && Cancels(m, cancel, d)
    ensures
      var more := ToClaim(m.tasks[t], t, FreeEnv(Accepted(turn))) + ClaimAndSend(t, FreeEnv(Accepted(turn)));
      var after := Run(Take1(m, cancel), more);
      Calm(more) && d in after.accepted && d in after.s.deliveries && after.s.deliveries[d].status.Cancelled?
  {
    hide *;
    RepOf(m);
    CancelExposes(m, t, d, cancel);
    FitToSend(m, t, d);
    ToSendIsCalm(m.tasks[t], t, FreeEnv(Accepted(turn)));
    CancelledIsNotOpen(m.tasks[t].d.status);
    LateClaimSends(Take1(m, cancel), t, d, Accepted(turn));
  }

  // ---- Retried in the window ----

  function Reopened(d: Delivery): Delivery {
    d.(status := Pending, strategy := None, turn := None, errorCode := None)
  }

  lemma RetryWrites(m: Machine, d: Id, team: Id)
    requires Retry(m.s, team, d).Ok?
    ensures d in m.s.deliveries
    ensures Take1(m, RetryDelivery(team, d)) == m.(s := m.s.(deliveries := m.s.deliveries[d := Reopened(m.s.deliveries[d])]))
  {
  }

  /** What is retried while in hand is in hand as deferred. */
  lemma RetriedInHand(m: Machine, t: nat, d: Id, team: Id)
    requires Ready(m) && Exposed(m, t, d) && Retry(m.s, team, d).Ok?
    ensures d in m.s.deliveries && m.tasks[t].d.status.Deferred? && m.s.deliveries[d].recipient == m.tasks[t].d.recipient
  {
    PlaceOf(m, t);
    SubjectIsRouted(m, t);
    hide Ready, RepInv, RoutesOk, PolicyOk, AheadOpen;
  }

  /** What a successful retry in the window meets, and what it leaves. */
  lemma RetryExposes(m: Machine, t: nat, d: Id, team: Id)
    requires Ready(m) && Exposed(m, t, d) && Retry(m.s, team, d).Ok?
    ensures
      var next := Take1(m, RetryDelivery(team, d));
      && Exposed(next, t, d) && next.tasks == m.tasks && next.accepted == m.accepted && next.guards == m.guards
      && d in next.s.deliveries && next.s.deliveries[d].status.Pending? && m.tasks[t].d.status.Deferred?
      && next.s.deliveries[d].recipient == m.tasks[t].d.recipient
  {
    FitToSend(m, t, d);
    RetriedInHand(m, t, d, team);
    RetryWrites(m, d, team);
    hide Ready, RepInv, RoutesOk, PolicyOk, AheadOpen, IsOpen, Retry, Take1, FirstOpen;
    if m.tasks[t].Looking? {
      FirstOpenIgnores(QueueOf(m.s, m.tasks[t].d.recipient), d, m.s.deliveries, Reopened(m.s.deliveries[d]));
    }
  }

  lemma {:induction false} FirstOpenIgnores(ids: seq<Id>, id: Id, deliveries: map<Id, Delivery>, record: Delivery)
    ensures FirstOpen(ids, id, deliveries[id := record]) == FirstOpen(ids, id, deliveries)
  {
    if ids != [] && ids[0] != id {
      FirstOpenIgnores(ids[1..], id, deliveries, record);
    }
  }

  /** The send goes out and the attempt drops out, with the record pending and the guard free. */
  lemma LostSend(m: Machine, t: nat, d: Id, turn: Id) returns (steps: seq<Step>)
    requires Ready(m) && Exposed(m, t, d) && d in m.s.deliveries && m.s.deliveries[d].status.Pending?
    requires m.tasks[t].d.status.Deferred?
    ensures Calm(steps)
    ensures Run(m, steps) == m.(tasks := m.tasks - {t}, guards := m.guards - {m.s.deliveries[d].recipient}, accepted := m.accepted + [d])
  {
    hide *;
    FitToSend(m, t, d);
    var env := FreeEnv(Accepted(turn));
    var first := ToClaim(m.tasks[t], t, env) + ClaimAndSend(t, env);
    ToSendIsCalm(m.tasks[t], t, env);
    steps := first + [Advance(t, env)];
    AdvanceIsCalm(t, env);
    CalmAppend(first, [Advance(t, env)]);
    LateClaimSends(m, t, d, Accepted(turn));
    PendingSettles(m, t, d, turn, Run(m, first));
    RunAppend(m, first, [Advance(t, env)]);
  }

  /** A snapshot in hand is open, and its message's policy lets it be sent. */
  lemma FitToSend(m: Machine, t: nat, d: Id)
    requires Ready(m) && Exposed(m, t, d) && d in m.s.deliveries
    ensures m.s.deliveries[d].id == d && t in m.tasks && InHand(m.tasks[t], d) && IsOpen(m.tasks[t].d.status)
    ensures m.tasks[t].Looking? || m.tasks[t].Clear? ==> PolicyOk(m.tasks[t].d, m.tasks[t].m)
  {
    PlaceOf(m, t);
    KeyOf(m, d);
    assert PcOk(m.s, m.tasks[t]);
  }

  lemma AdvanceIsCalm(t: nat, env: Env)
    ensures Calm([Advance(t, env)])
  {
  }

  lemma PendingSettles(m: Machine, t: nat, d: Id, turn: Id, sent: Machine)
    requires t in m.tasks && d in m.s.deliveries && m.s.deliveries[d].id == d && m.s.deliveries[d].status.Pending?
    requires sent == m.(tasks := m.tasks[t := Settling(m.s.deliveries[d], Accepted(turn))], accepted := m.accepted + [d])
    ensures
      Run(sent, [Advance(t, FreeEnv(Accepted(turn)))])
      == m.(tasks := m.tasks - {t}, guards := m.guards - {m.s.deliveries[d].recipient}, accepted := m.accepted + [d])
  {
    PendingSettleIsLost(sent, t, m.s.deliveries[d], FreeEnv(Accepted(turn)));
    assert sent.tasks - {t} == m.tasks - {t};
  }

  lemma {:induction false} AcceptedGrows(m: Machine, steps: seq<Step>, d: Id)
    ensures Times(Run(m, steps).accepted, d) >= Times(m.accepted, d)
  {
    if steps != [] {
      AcceptedGrows(m, steps[..|steps| - 1], d);
      OneMoreAccepted(Run(m, steps[..|steps| - 1]), steps[|steps| - 1], d);
    }
  }

  lemma OneMoreAccepted(m: Machine, step: Step, d: Id)
    ensures Times(Take1(m, step).accepted, d) >= Times(m.accepted, d)
  {
    if step.Advance? {
      if Runs(m, step, step.task) {
        NextAccepts(m, step.task, step.env);
        hide Next;
      }
    } else {
      CallFrame(m, step);
      hide Take1;
    }
  }

  /** Where the delivery stands in its queue, and that everything before it is open or terminal. */
  lemma PlaceInQueue(m: Machine, t: nat, d: Id) returns (k: nat)
    requires Ready(m) && Exposed(m, t, d) && d in m.s.deliveries
    ensures
      var queue := QueueOf(m.s, m.s.deliveries[d].recipient);
      && k < |queue| && queue[k] == d && NoRepeats(queue)
      && forall j :: 0 <= j < k && queue[j] in m.s.deliveries ==>
           IsTerminal(m.s.deliveries[queue[j]].status) || IsOpen(m.s.deliveries[queue[j]].status)
  {
    PlaceOf(m, t);
    SubjectIsRouted(m, t);
    if m.tasks[t].Looking? {
      UnblockedInTurn(m.s, m.tasks[t].d);
      TerminalIsOpenAhead(m.s, d);
    }
    assert AheadOpen(m.s, d);
    assert ColumnOk(m.s, ByRecipient);
    assert d in Owners(m.s.deliveries, ByRecipient);
    hide Ready, RepInv, RoutesOk, PcReady;
    var queue := QueueOf(m.s, m.s.deliveries[d].recipient);
    k :| 0 <= k < |queue| && queue[k] == d;
    forall j | 0 <= j < k && queue[j] in m.s.deliveries
      ensures IsTerminal(m.s.deliveries[queue[j]].status) || IsOpen(m.s.deliveries[queue[j]].status)
    {
      assert Ahead(queue, queue[j], d);
    }
  }

  /** A pending delivery of a free recipient, behind open and terminal ones only, can be brought to acceptance. */
  lemma CanBeAccepted(m: Machine, t: nat, d: Id, k: nat, turn: Id) returns (steps: seq<Step>)
    requires Ready(m) && t !in m.tasks && d in m.s.deliveries && m.s.deliveries[d].status.Pending?
    requires
      var queue := QueueOf(m.s, m.s.deliveries[d].recipient);
      && m.s.deliveries[d].recipient !in m.guards && k < |queue| && queue[k] == d && NoRepeats(queue)
      && forall j :: 0 <= j < k && queue[j] in m.s.deliveries ==>
           IsTerminal(m.s.deliveries[queue[j]].status) || IsOpen(m.s.deliveries[queue[j]].status)
    ensures Calm(steps) && Times(Run(m, steps).accepted, d) >= Times(m.accepted, d) + 1
  {
    var r := m.s.deliveries[d].recipient;
    var clearing := QueueClears(m, t, r, k);
    var n := Run(m, clearing);
    RunReady(m, clearing);
    AcceptedGrows(m, clearing, d);
    assert d !in QueueOf(m.s, r)[..k];
    var env := FreeEnv(Accepted(turn));
    steps := clearing + (Approach(t, d, Queue, env) + ClaimAndSend(t, env));
    hide Run, Approach, ClaimAndSend, Ready, Calm;
    CanClaim(n, t, d, k, Accepted(turn));
    ApproachLeadsToClaim(n, t, d, Queue, env);
    WonClaimSends(AtClaim(n, t, d), t, n.s.deliveries[d], env);
    RunAppend(n, Approach(t, d, Queue, env), ClaimAndSend(t, env));
    RunAppend(m, clearing, Approach(t, d, Queue, env) + ClaimAndSend(t, env));
    ApproachIsCalm(t, d, env);
    CalmAppend(clearing, Approach(t, d, Queue, env) + ClaimAndSend(t, env));
  }

  lemma ApproachIsCalm(t: nat, d: Id, env: Env)
    ensures Calm(Approach(t, d, Queue, env) + ClaimAndSend(t, env))
  {
  }

  lemma CanClaim(m: Machine, t: nat, d: Id, k: nat, answer: SendAnswer)
    requires Ready(m) && t !in m.tasks && d in m.s.deliveries && m.s.deliveries[d].status.Pending?
    requires
      var queue := QueueOf(m.s, m.s.deliveries[d].recipient);
      && m.s.deliveries[d].recipient !in m.guards && k < |queue| && queue[k] == d
      && forall j :: 0 <= j < k && queue[j] in m.s.deliveries ==> IsTerminal(m.s.deliveries[queue[j]].status)
    ensures Claimable(m, t, d, Queue, FreeEnv(answer))
  {
    RepOf(m);
    FirstHasNoBlocker(m, m.s.deliveries[d].recipient, k);
    hide Ready, Base, RepInv, Blocker, Decide;
    FreeProceeds(m.s.deliveries[d], m.s.messages[m.s.deliveries[d].message], Queue, answer);
  }

  /**
  Retried, yet sent twice: in every reachable state, a retry of a delivery that an attempt has in hand has a
  continuation, with no further retry or cancel, in which the delivery's turn is accepted twice.
  */
  lemma RetriedYetSentTwice(m: Machine, t: nat, d: Id, team: Id, turn: Id) returns (more: seq<Step>)
    requires Ready(m) && Exposed(m, t, d) && Retry(m.s, team, d).Ok?
    ensures Calm(more) && Times(Run(Take1(m, RetryDelivery(team, d)), more).accepted, d) >= 2
  {
    RetryExposes(m, t, d, team);
    StepReady(m, RetryDelivery(team, d));
    var retried := Take1(m, RetryDelivery(team, d));
    hide Ready, Take1, Exposed, Run, Calm, Retry;
    var k := PlaceInQueue(retried, t, d);
    var first := LostSend(retried, t, d, turn);
    RunReady(retried, first);
    var sent := Run(retried, first);
    var second := CanBeAccepted(sent, t, d, k, turn);
    more := first + second;
    CalmAppend(first, second);
    RunAppend(retried, first, second);
  }

  // ---- Exactly in the window ----

  /** A run with nothing in the window stays so when steps are added that keep it so. */
  lemma {:induction false} WindowAppend(m: Machine, a: seq<Step>, b: seq<Step>, d: Id)
    requires NoRetryInWindow(m, a, d) && NoRetryInWindow(Run(m, a), b, d)
    ensures NoRetryInWindow(m, a + b, d)
  {
    if b == [] {
      assert a + b == a;
    } else {
      var short := b[..|b| - 1];
      WindowAppend(m, a, short, d);
      RunAppend(m, a, short);
      assert (a + b)[..|a + b| - 1] == a + short;
      hide Run, InWindow, Retries;
    }
  }

  lemma {:induction false} CancelAppend(m: Machine, a: seq<Step>, b: seq<Step>, d: Id)
    requires NoCancelInWindow(m, a, d) && NoCancelInWindow(Run(m, a), b, d)
    ensures NoCancelInWindow(m, a + b, d)
  {
    if b == [] {
      assert a + b == a;
    } else {
      var short := b[..|b| - 1];
      CancelAppend(m, a, short, d);
      RunAppend(m, a, short);
      assert (a + b)[..|a + b| - 1] == a + short;
      hide Run, InWindow, Cancels;
    }
  }

  lemma {:induction false} CalmInWindow(m: Machine, steps: seq<Step>, d: Id)
    requires Calm(steps)
    ensures NoRetryInWindow(m, steps, d) && NoCancelInWindow(m, steps, d)
  {
    hide Run, InWindow;
    if steps != [] {
      CalmInWindow(m, steps[..|steps| - 1], d);
    }
  }

  /** No attempt still has to look at what is ahead of the delivery while something is. */
  ghost predicate NoneBehindBlocker(m: Machine, d: Id) {
    forall t :: t in m.tasks && InHand(m.tasks[t], d) && m.tasks[t].Looking? ==> Blocker(m.s, m.tasks[t].d).None?
  }

  lemma OneStep(m: Machine, steps: seq<Step>, step: Step, d: Id)
    requires NoRetryInWindow(m, steps, d) && !(Retries(Run(m, steps), step, d) && InWindow(Run(m, steps), d))
    ensures NoRetryInWindow(m, steps + [step], d) && Run(m, steps + [step]) == Take1(Run(m, steps), step)
  {
    assert (steps + [step])[..|steps + [step]| - 1] == steps;
    hide Run, InWindow, Retries;
    RunAppend(m, steps, [step]);
    Run1(Run(m, steps), step);
  }

  lemma OneCancel(m: Machine, steps: seq<Step>, step: Step, d: Id)
    requires NoCancelInWindow(m, steps, d) && !(Cancels(Run(m, steps), step, d) && InWindow(Run(m, steps), d))
    ensures NoCancelInWindow(m, steps + [step], d)
  {
    assert (steps + [step])[..|steps + [step]| - 1] == steps;
    hide Run, InWindow, Cancels;
  }

  /**
  A successful retry is safe, in the sense that no continuation without another one in the window accepts the
  delivery twice, exactly when no attempt has the delivery in hand.
  */
  lemma RetryIsSafeExactlyWhen(m: Machine, steps: seq<Step>, team: Id, d: Id, turn: Id)
    requires Start(m) && PoliciesOk(m.s) && NoRetryInWindow(m, steps, d) && NoneBehindBlocker(Run(m, steps), d)
    requires Retry(Run(m, steps).s, team, d).Ok?
    ensures
      var before := Run(m, steps);
      var after := Take1(before, RetryDelivery(team, d));
      (forall more :: NoRetryInWindow(after, more, d) ==> Times(Run(after, more).accepted, d) <= 1)
      <==> !InWindow(before, d)
  {
    var before, retry := Run(m, steps), RetryDelivery(team, d);
    var after := Take1(before, retry);
    StartReady(m);
    RunReady(m, steps);
    hide Start, PoliciesOk, Run, Take1, Retry, NoRetryInWindow, Ready, Blocker;
    if InWindow(before, d) {
      var t :| t in before.tasks && InHand(before.tasks[t], d);
      var more := RetriedYetSentTwice(before, t, d, team, turn);
      CalmInWindow(after, more, d);
      assert NoRetryInWindow(after, more, d) && Times(Run(after, more).accepted, d) > 1;
    } else {
      OneStep(m, steps, retry, d);
      forall more | NoRetryInWindow(after, more, d) ensures Times(Run(after, more).accepted, d) <= 1 {
        WindowAppend(m, steps + [retry], more, d);
        RunAppend(m, steps + [retry], more);
        AcceptedAtMostOnce(m, steps + [retry] + more, d);
      }
    }
  }

  /** The delivery is cancelled although its turn was accepted. */
  ghost predicate CancelledButAccepted(m: Machine, d: Id) {
    d in m.accepted && d in m.s.deliveries && m.s.deliveries[d].status.Cancelled?
  }

  lemma CancelIsNoRetry(m: Machine, step: Step, d: Id)
    requires Cancels(m, step, d)
    ensures !Retries(m, step, d)
  {
  }

  lemma CancelGoesWrong(m: Machine, cancel: Step, d: Id, turn: Id) returns (more: seq<Step>)
    requires Ready(m) && NoneBehindBlocker(m, d) && InWindow(m, d) && Cancels(m, cancel, d)
    ensures
      var after := Take1(m, cancel);
      NoRetryInWindow(after, more, d) && NoCancelInWindow(after, more, d) && CancelledButAccepted(Run(after, more), d)
  {
    var t :| t in m.tasks && InHand(m.tasks[t], d);
    hide Ready, Run, Take1, Cancels, Retries, Calm, Blocker;
    var env := FreeEnv(Accepted(turn));
    CancelledYetSent(m, t, d, cancel, turn);
    more := ToClaim(m.tasks[t], t, env) + ClaimAndSend(t, env);
    CalmInWindow(Take1(m, cancel), more, d);
  }

  lemma NeverCancelledButAccepted(m: Machine, first: seq<Step>, more: seq<Step>, d: Id)
    requires Start(m) && NoRetryInWindow(m, first, d) && NoCancelInWindow(m, first, d)
    requires NoRetryInWindow(Run(m, first), more, d) && NoCancelInWindow(Run(m, first), more, d)
    ensures !CancelledButAccepted(Run(Run(m, first), more), d)
  {
    WindowAppend(m, first, more, d);
    CancelAppend(m, first, more, d);
    RunAppend(m, first, more);
    hide Start, Run, NoRetryInWindow, NoCancelInWindow;
    AcceptedIsNotCancelled(m, first + more, d);
  }

  /**
  A successful cancel of the delivery's message is safe, in the sense that no continuation without another
  retry or cancel in the window leaves the delivery accepted and cancelled, exactly when no attempt has the
  delivery in hand.
  */
  lemma CancelIsSafeExactlyWhen(m: Machine, steps: seq<Step>, cancel: Step, d: Id, turn: Id)
    requires Start(m) && PoliciesOk(m.s) && NoRetryInWindow(m, steps, d) && NoCancelInWindow(m, steps, d)
    requires NoneBehindBlocker(Run(m, steps), d) && Cancels(Run(m, steps), cancel, d)
    ensures
      var before := Run(m, steps);
      var after := Take1(before, cancel);
      (forall more :: NoRetryInWindow(after, more, d) && NoCancelInWindow(after, more, d) ==> !CancelledButAccepted(Run(after, more), d))
      <==> !InWindow(before, d)
  {
    var before := Run(m, steps);
    var after := Take1(before, cancel);
    hide *;
    if InWindow(before, d) {
      StartReady(m);
      RunReady(m, steps);
      var more := CancelGoesWrong(before, cancel, d, turn);
      assert NoRetryInWindow(after, more, d) && NoCancelInWindow(after, more, d);
    } else {
      CancelIsNoRetry(before, cancel, d);
      OneStep(m, steps, cancel, d);
      OneCancel(m, steps, cancel, d);
      forall more | NoRetryInWindow(after, more, d) && NoCancelInWindow(after, more, d)
        ensures !CancelledButAccepted(Run(after, more), d)
      {
        NeverCancelledButAccepted(m, steps + [cancel], more, d);
      }
    }
  }
}
