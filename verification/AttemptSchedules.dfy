/** Schedules of one attempt, step by step, from which longer runs are put together. */
module AttemptSchedules {
  import opened Wrappers
  import opened TeamIndex
  import opened TeamState
  import opened Injection
  import opened DeliveryMachine
  import opened DeliveryRuns

  /** A recipient that is ready and a provider that gives this answer. */
  function FreeEnv(answer: SendAnswer): Env {
    Env(Found("ready", false), false, answer)
  }

  predicate PolicyOk(d: Delivery, msg: Message) {
    NormalizePolicy(d.policy.GetOr(msg.policy)).Some?
  }

  /** A free recipient lets any delivery with a policy proceed. */
  lemma FreeProceeds(d: Delivery, msg: Message, trigger: Trigger, answer: SendAnswer)
    requires PolicyOk(d, msg)
    ensures Decide(d, msg, trigger, FreeEnv(answer)).Proceed?
  {
  }

  /** Nothing stops an attempt at `d` before the claim. */
  ghost predicate Claimable(m: Machine, t: nat, d: Id, trigger: Trigger, env: Env) {
    && t !in m.tasks && d in m.s.deliveries && m.s.deliveries[d].id == d && IsOpen(m.s.deliveries[d].status)
    && m.s.deliveries[d].message in m.s.messages && m.s.deliveries[d].recipient !in m.guards
    && Blocker(m.s, m.s.deliveries[d]).None?
    && Decide(m.s.deliveries[d], m.s.messages[m.s.deliveries[d].message], trigger, env).Proceed?
  }

  /** The steps of an attempt up to its claim. */
  function Approach(t: nat, d: Id, trigger: Trigger, env: Env): seq<Step> {
    [Spawn(t, d, trigger), Acquire(t)] + ([Advance(t, env), Advance(t, env)] + [Advance(t, env)])
  }

  ghost function AtClaim(m: Machine, t: nat, d: Id): Machine
    requires d in m.s.deliveries
  {
    m.(tasks := m.tasks[t := Claiming(m.s.deliveries[d])], guards := m.guards[m.s.deliveries[d].recipient := t])
  }

  ghost function AtLock(m: Machine, t: nat, d: Id, trigger: Trigger): Machine
    requires d in m.s.deliveries
  {
    var r := m.s.deliveries[d].recipient;
    m.(tasks := m.tasks[t := Locked(d, r, trigger)], guards := m.guards[r := t])
  }

  lemma Enters(m: Machine, t: nat, d: Id, trigger: Trigger, env: Env)
    requires Claimable(m, t, d, trigger, env)
    ensures Run(m, [Spawn(t, d, trigger), Acquire(t)]) == AtLock(m, t, d, trigger)
  {
    Run2(m, Spawn(t, d, trigger), Acquire(t));
    var r := m.s.deliveries[d].recipient;
    var m1 := Take1(m, Spawn(t, d, trigger));
    assert m1 == At(m, t, Waiting(d, r, trigger));
    assert Take1(m1, Acquire(t)).tasks == m.tasks[t := Locked(d, r, trigger)];
  }

  lemma Chooses(m: Machine, t: nat, d: Delivery, msg: Message, trigger: Trigger, env: Env)
    requires t in m.tasks && m.tasks[t] == Clear(d, msg, trigger) && Decide(d, msg, trigger, env).Proceed?
    ensures Run(m, [Advance(t, env)]) == m.(tasks := m.tasks[t := Claiming(d)])
  {
    Run1(m, Advance(t, env));
    assert Take1(m, Advance(t, env)) == Choose(m, t, Clear(d, msg, trigger), env);
    assert Choose(m, t, Clear(d, msg, trigger), env) == At(m, t, Claiming(d));
  }

  lemma ApproachLeadsToClaim(m: Machine, t: nat, d: Id, trigger: Trigger, env: Env)
    requires Claimable(m, t, d, trigger, env)
    ensures Run(m, Approach(t, d, trigger, env)) == AtClaim(m, t, d)
  {
    var step, record := Advance(t, env), m.s.deliveries[d];
    var m2 := AtLock(m, t, d, trigger);
    var m4 := m2.(tasks := m.tasks[t := Clear(record, m.s.messages[record.message], trigger)]);
    Enters(m, t, d, trigger, env);
    Looks(m, m2, t, d, trigger, env);
    Run2(m2, step, step);
    Chooses(m4, t, record, m.s.messages[record.message], trigger, env);
    assert m4.tasks[t := Claiming(record)] == m.tasks[t := Claiming(record)];
    RunAppend(m2, [step, step], [step]);
    RunAppend(m, [Spawn(t, d, trigger), Acquire(t)], [step, step] + [step]);
  }

  lemma Looks(m: Machine, m2: Machine, t: nat, d: Id, trigger: Trigger, env: Env)
    requires Claimable(m, t, d, trigger, env)
    requires m2 == m.(tasks := m.tasks[t := Locked(d, m.s.deliveries[d].recipient, trigger)], guards := m2.guards)
    ensures
      var record := m.s.deliveries[d];
      Take1(Take1(m2, Advance(t, env)), Advance(t, env))
      == m2.(tasks := m.tasks[t := Clear(record, m.s.messages[record.message], trigger)])
  {
    var record := m.s.deliveries[d];
    var m3 := Take1(m2, Advance(t, env));
    assert m3.tasks == m.tasks[t := Looking(record, m.s.messages[record.message], trigger)];
    assert Take1(m3, Advance(t, env)).tasks == m.tasks[t := Clear(record, m.s.messages[record.message], trigger)];
  }

  /** The claim and the send. */
  function ClaimAndSend(t: nat, env: Env): seq<Step> {
    [Advance(t, env), Advance(t, env)]
  }

  lemma LostClaim(m: Machine, t: nat, d: Delivery, env: Env)
    requires t in m.tasks && m.tasks[t] == Claiming(d) && IsOpen(d.status)
    requires d.id in m.s.deliveries && m.s.deliveries[d.id].status != d.status
    ensures Take1(m, Advance(t, env)) == m.(tasks := m.tasks[t := Sending(m.s.deliveries[d.id])])
  {
    assert Take1(m, Advance(t, env)) == Claim(m, t, d);
  }

  lemma Sends(m: Machine, t: nat, d: Delivery, env: Env)
    requires t in m.tasks && m.tasks[t] == Sending(d) && env.send.Accepted?
    ensures Take1(m, Advance(t, env)) == m.(tasks := m.tasks[t := Settling(d, env.send)], accepted := m.accepted + [d.id])
  {
    assert Take1(m, Advance(t, env)) == SendTurn(m, t, d, env.send);
  }

  lemma LostClaimSends(m: Machine, t: nat, d: Delivery, env: Env)
    requires t in m.tasks && m.tasks[t] == Claiming(d) && IsOpen(d.status)
    requires d.id in m.s.deliveries && m.s.deliveries[d.id].status != d.status && m.s.deliveries[d.id].id == d.id
    requires env.send.Accepted?
    ensures
      Run(m, ClaimAndSend(t, env))
      == m.(tasks := m.tasks[t := Settling(m.s.deliveries[d.id], env.send)], accepted := m.accepted + [d.id])
  {
    var step, live := Advance(t, env), m.s.deliveries[d.id];
    Run2(m, step, step);
    LostClaim(m, t, d, env);
    var sending := m.(tasks := m.tasks[t := Sending(live)]);
    Sends(sending, t, live, env);
    assert sending.tasks[t := Settling(live, env.send)] == m.tasks[t := Settling(live, env.send)];
  }

  /** An accepted send of a record that is pending is not recorded: the attempt returns an error. */
  lemma PendingSettleIsLost(m: Machine, t: nat, d: Delivery, env: Env)
    requires t in m.tasks && m.tasks[t] == Settling(d, env.send) && env.send.Accepted? && d.status.Pending?
    ensures Run(m, [Advance(t, env)]) == m.(tasks := m.tasks - {t}, guards := m.guards - {d.recipient})
  {
    Run1(m, Advance(t, env));
  }

  lemma WonClaimSends(m: Machine, t: nat, d: Delivery, env: Env)
    requires t in m.tasks && m.tasks[t] == Claiming(d) && d.id in m.s.deliveries && m.s.deliveries[d.id] == d
    requires IsOpen(d.status) && env.send.Accepted?
    ensures Run(m, ClaimAndSend(t, env)).accepted == m.accepted + [d.id]
  {
    var step := Advance(t, env);
    Run2(m, step, step);
    ClaimWins(m, t, d, env);
    Sends(Take1(m, step), t, Moved(d, Injecting, None, None), env);
    hide Take1, Run;
  }

  lemma ClaimWins(m: Machine, t: nat, d: Delivery, env: Env)
    requires t in m.tasks && m.tasks[t] == Claiming(d) && d.id in m.s.deliveries && m.s.deliveries[d.id] == d && IsOpen(d.status)
    ensures
      var next := Take1(m, Advance(t, env));
      && t in next.tasks && next.tasks[t] == Sending(Moved(d, Injecting, None, None)) && next.accepted == m.accepted
  {
  }
}
