/**
Retries and the order of a queue: a retry breaks first in, first out exactly when it puts a delivery
back to pending ahead of one that is injecting or can still be claimed.
*/
module DeliveryJumps {
  import opened Wrappers
  import opened TeamIndex
  import opened TeamState
  import opened Injection
  import opened DeliveryMachine
  import opened DeliveryRuns
  import opened DeliveryOrder
  import opened AttemptSchedules
  import opened DeliveryReady
  import opened DeliveryRaces

  ghost predicate OutOfTurn(s: State, d: Id) {
    d in s.deliveries && s.deliveries[d].status.Injecting? && !AheadTerminal(s, d)
  }

  lemma RetryReopens(s: State, team: Id, a: Id, d: Id)
    requires Retry(s, team, a).Ok? && Behind(s, a, d) && a != d
    ensures
      var next := Retry(s, team, a).value;
      && Behind(next, a, d) && a in next.deliveries && next.deliveries[a].status.Pending?
      && next.deliveries[d] == s.deliveries[d]
  {
    hide Ahead;
  }

  /** What a retry that jumps the queue leaves: the retried one pending, ahead of one that is going. */
  lemma JumpLeaves(m: Machine, step: Step, d: Id)
    requires RepInv(m.s) && Reopens(m, step) && Behind(m.s, step.id, d)
    ensures
      var next := Take1(m, step);
      && Behind(next.s, step.id, d) && step.id in next.s.deliveries && next.s.deliveries[step.id].status.Pending?
      && next.s.deliveries[d] == m.s.deliveries[d] && next.tasks == m.tasks && next.guards == m.guards && step.id != d
  {
    NotBehindItself(m.s, step.id, d);
    RetryReopens(m.s, step.team, step.id, d);
    hide RepInv, Behind, Retry;
  }

  lemma NotBehindItself(s: State, a: Id, d: Id)
    requires RepInv(s) && Behind(s, a, d)
    ensures a != d
  {
    assert ColumnOk(s, ByRecipient);
    assert d in Owners(s.deliveries, ByRecipient);
    assert NoRepeats(QueueOf(s, s.deliveries[d].recipient));
  }

  lemma OpenAhead(s: State, a: Id, d: Id)
    requires Behind(s, a, d) && a in s.deliveries && IsOpen(s.deliveries[a].status) && s.deliveries[d].status.Injecting?
    ensures OutOfTurn(s, d)
  {
  }

  /** An attempt that can still claim the delivery can go on to do so. */
  lemma ClaimsBehind(m: Machine, t: nat, a: Id, d: Id) returns (more: seq<Step>)
    requires t in m.tasks && MayClaim(m, t, d) && IsOpen(m.tasks[t].d.status)
    requires m.tasks[t].Clear? ==> PolicyOk(m.tasks[t].d, m.tasks[t].m)
    requires Behind(m.s, a, d) && a in m.s.deliveries && IsOpen(m.s.deliveries[a].status) && a != d
    ensures Calm(more) && OutOfTurn(Run(m, more).s, d)
  {
    var pc, env := m.tasks[t], FreeEnv(ProviderRejected);
    ToSendIsCalm(pc, t, env);
    more := ToClaim(pc, t, env) + [Advance(t, env)];
    assert Calm(ToClaim(pc, t, env));
    assert Calm([Advance(t, env)]);
    CalmAppend(ToClaim(pc, t, env), [Advance(t, env)]);
    ReachesClaim(m, t, d, ProviderRejected);
    var claiming := m.(tasks := m.tasks[t := Claiming(pc.d)]);
    hide Calm, ToClaim, PolicyOk;
    RunAppend(m, ToClaim(pc, t, env), [Advance(t, env)]);
    Run1(claiming, Advance(t, env));
    hide Run;
    ClaimTakes(claiming, t, pc.d, a, d);
  }

  lemma ClaimTakes(m: Machine, t: nat, r: Delivery, a: Id, d: Id)
    requires r.id == d && IsOpen(r.status) && Current(m.s, r)
    requires Behind(m.s, a, d) && a in m.s.deliveries && IsOpen(m.s.deliveries[a].status) && a != d
    ensures OutOfTurn(Claim(m, t, r).s, d)
  {
    var next := Claim(m, t, r).s;
    assert next == m.s.(deliveries := m.s.deliveries[d := Moved(m.s.deliveries[d], Injecting, None, None)]);
    hide Ahead, Transition, Claim;
    OpenAhead(next, a, d);
  }

  /**
  Jumped: in every reachable state, a retry of a delivery ahead of one that is going has a continuation,
  with no further retry or cancel, in which something injecting is out of turn.
  */
  lemma JumpGoesWrong(m: Machine, step: Step) returns (more: seq<Step>)
    requires Ready(m) && JumpsQueue(m, step)
    ensures Calm(more) && !InjectingInTurn(Run(Take1(m, step), more).s)
  {
    var next := Take1(m, step);
    var d :| Behind(m.s, step.id, d) && Going(m, d);
    RepOf(m);
    JumpLeaves(m, step, d);
    hide Ready, Take1, Reopens, Behind, Calm;
    if m.s.deliveries[d].status.Injecting? {
      more := [];
      NothingIsCalm();
      OpenAhead(next.s, step.id, d);
    } else {
      var t :| t in m.tasks && MayClaim(m, t, d);
      StillMayClaim(m, next, t, d);
      more := ClaimsBehind(next, t, step.id, d);
    }
  }

  lemma NothingIsCalm()
    ensures Calm([])
  {
  }

  lemma StillMayClaim(m: Machine, next: Machine, t: nat, d: Id)
    requires Ready(m) && t in m.tasks && MayClaim(m, t, d) && next.tasks == m.tasks
    requires d in next.s.deliveries && next.s.deliveries[d] == m.s.deliveries[d]
    ensures t in next.tasks && MayClaim(next, t, d) && IsOpen(next.tasks[t].d.status)
    ensures next.tasks[t].Clear? ==> PolicyOk(next.tasks[t].d, next.tasks[t].m)
  {
    PlaceOf(m, t);
    assert PcOk(m.s, m.tasks[t]);
  }

  lemma {:induction false} NoneJumpsAppend(m: Machine, a: seq<Step>, b: seq<Step>)
    requires NoneJumps(m, a) && NoneJumps(Run(m, a), b)
    ensures NoneJumps(m, a + b)
  {
    if b == [] {
      assert a + b == a;
    } else {
      var short := b[..|b| - 1];
      NoneJumpsAppend(m, a, short);
      RunAppend(m, a, short);
      assert (a + b)[..|a + b| - 1] == a + short;
      hide Run, JumpsQueue;
    }
  }

  lemma {:induction false} CalmDoesNotJump(m: Machine, steps: seq<Step>)
    requires Calm(steps)
    ensures NoneJumps(m, steps)
  {
    hide Run, Going, Behind;
    if steps != [] {
      CalmDoesNotJump(m, steps[..|steps| - 1]);
    }
  }

  lemma OneMore(m: Machine, steps: seq<Step>, step: Step)
    requires NoneJumps(m, steps) && !JumpsQueue(Run(m, steps), step)
    ensures NoneJumps(m, steps + [step]) && Run(m, steps + [step]) == Take1(Run(m, steps), step)
  {
    assert (steps + [step])[..|steps + [step]| - 1] == steps;
    hide Run, JumpsQueue;
    RunAppend(m, steps, [step]);
    Run1(Run(m, steps), step);
  }

  lemma OrderLasts(m: Machine, first: seq<Step>, more: seq<Step>)
    requires Start(m) && InjectingInTurn(m.s) && NoneJumps(m, first) && NoneJumps(Run(m, first), more)
    ensures InjectingInTurn(Run(Run(m, first), more).s)
  {
    NoneJumpsAppend(m, first, more);
    RunAppend(m, first, more);
    hide Run, NoneJumps;
    StartIsBase(m);
    RunKeepsOrder(m, first + more);
  }

  /**
  A step is safe for the order of the queues, in the sense that no continuation in which nothing else jumps
  a queue puts anything injecting out of turn, exactly when it is no retry of a delivery ahead of one that is
  going.
  */
  lemma OrderIsSafeExactlyWhen(m: Machine, steps: seq<Step>, step: Step)
    requires Start(m) && PoliciesOk(m.s) && InjectingInTurn(m.s) && NoneJumps(m, steps)
    ensures
      var before := Run(m, steps);
      var after := Take1(before, step);
      (forall more :: NoneJumps(after, more) ==> InjectingInTurn(Run(after, more).s)) <==> !JumpsQueue(before, step)
  {
    var before := Run(m, steps);
    var after := Take1(before, step);
    hide *;
    if JumpsQueue(before, step) {
      StartReady(m);
      RunReady(m, steps);
      var more := JumpGoesWrong(before, step);
      CalmDoesNotJump(after, more);
      assert NoneJumps(after, more) && !InjectingInTurn(Run(after, more).s);
    } else {
      OneMore(m, steps, step);
      forall more | NoneJumps(after, more) ensures InjectingInTurn(Run(after, more).s) {
        OrderLasts(m, steps + [step], more);
      }
    }
  }
}
