/**
What every run keeps that lets an attempt go on: policies are valid, snapshots drift only in known ways,
and nothing but open or terminal deliveries is ahead of what was found clear. Hence a queue can be cleared.
*/
module DeliveryReady {
  import opened Wrappers
  import opened TeamIndex
  import opened TeamState
  import opened Injection
  import opened DeliveryMachine
  import opened DeliveryRuns
  import opened DeliveryOrder
  import opened AttemptSchedules
  import opened AtomicAttempts
  import Calls = DeliveryCalls

  /** Every delivery's policy is one of the four. */
  ghost predicate PoliciesOk(s: State) {
    forall d :: d in s.deliveries && s.deliveries[d].message in s.messages ==>
      PolicyOk(s.deliveries[d], s.messages[s.deliveries[d].message])
  }

  ghost predicate AheadOpen(s: State, d: Id) {
    d in s.deliveries ==>
      forall a :: Ahead(QueueOf(s, s.deliveries[d].recipient), a, d) && a in s.deliveries ==>
        IsTerminal(s.deliveries[a].status) || IsOpen(s.deliveries[a].status)
  }

  ghost predicate PcReady(s: State, pc: Pc) {
    && (pc.Looking? || pc.Clear? || pc.Claiming? ==> Drifted(s, pc.d))
    && (pc.Looking? || pc.Clear? ==> PolicyOk(pc.d, pc.m))
    && (pc.Clear? || pc.Claiming? ==> AheadOpen(s, pc.d.id))
  }

  ghost predicate Ready(m: Machine) {
    Base(m) && PoliciesOk(m.s) && forall t :: t in m.tasks ==> PcReady(m.s, m.tasks[t])
  }

  // ---- Policies ----

  /** The deliveries there were keep message and policy, the messages stay or go. */
  ghost predicate PoliciesKept(s: State, next: State) {
    && (forall d :: d in next.deliveries ==>
          d in s.deliveries && next.deliveries[d].message == s.deliveries[d].message
          && next.deliveries[d].policy == s.deliveries[d].policy)
    && (forall m :: m in next.messages ==> m in s.messages && next.messages[m] == s.messages[m])
  }

  lemma KeptPolicies(s: State, next: State)
    requires PoliciesOk(s) && PoliciesKept(s, next)
    ensures PoliciesOk(next)
  {
    hide PolicyOk;
    forall d | d in next.deliveries && next.deliveries[d].message in next.messages
      ensures PolicyOk(next.deliveries[d], next.messages[next.deliveries[d].message])
    {
      SamePolicy(s.deliveries[d], next.deliveries[d], s.messages[s.deliveries[d].message]);
    }
  }

  lemma SamePolicy(a: Delivery, b: Delivery, msg: Message)
    requires a.policy == b.policy
    ensures PolicyOk(a, msg) <==> PolicyOk(b, msg)
  {
  }

  lemma SamePolicies(s: State, next: State)
    requires next.deliveries == s.deliveries && next.messages == s.messages
    ensures PoliciesKept(s, next)
  {
  }

  lemma TransitionPolicies(s: State, d: Delivery, next: Status, strategy: Option<string>, code: Option<string>)
    ensures PoliciesKept(s, Transition(s, d, next, strategy, code).0)
  {
    var after := Transition(s, d, next, strategy, code).0;
    if after != s {
      assert after.deliveries == s.deliveries[d.id := Moved(s.deliveries[d.id], next, strategy, code)];
    }
  }

  lemma StampPolicies(s: State, id: Id, turn: Id)
    ensures PoliciesKept(s, Stamp(s, id, turn))
  {
    if id in s.deliveries {
      assert Stamp(s, id, turn).deliveries == s.deliveries[id := s.deliveries[id].(turn := Some(turn))];
    }
  }

  lemma NextPolicies(m: Machine, t: nat, env: Env)
    requires t in m.tasks && !m.tasks[t].Waiting?
    ensures PoliciesKept(m.s, Next(m, t, m.tasks[t], env).s)
  {
    NextWrites(m, t, env);
    SamePolicies(m.s, m.s);
    hide Transition, Stamp, Next, PoliciesKept;
    match m.tasks[t] {
      case Moving(r, next, code) => TransitionPolicies(m.s, r, next, None, code);
      case Claiming(r) => TransitionPolicies(m.s, r, Injecting, None, None);
      case Settling(r, Accepted(_)) => TransitionPolicies(m.s, r, Injected, Some("runtime_send_turn"), None);
      case Settling(r, OwnershipRejected) => TransitionPolicies(m.s, r, Deferred, None, Some("turn_ownership_rejected"));
      case Settling(r, ProviderRejected) => TransitionPolicies(m.s, r, Failed, None, Some("provider_rejected"));
      case Stamping(id, _, turn) => StampPolicies(m.s, id, turn);
      case _ =>
    }
  }

  /** A new message's deliveries have its policy, which validation let through. */
  lemma CreatePolicies(s: State, team: Id, a: Admitted, message: Id, ids: seq<Id>, body: string)
    requires LinksOk(s) && PoliciesOk(s) && Fresh(s, message, ids) && Normal(a)
    requires CreateMessage(s, team, a, message, ids, body).Ok?
    ensures PoliciesOk(CreateMessage(s, team, a, message, ids, body).value.0)
  {
    hide WasAdmitted, NormalizePolicy;
    if CreateMessage(s, team, a, message, ids, body).value.1.created {
      var msg := NewMessage(team, a, message, body);
      var mid, ds := AddMessage(s, msg), NewDeliveries(msg, ids);
      NewDeliveriesAddable(s, msg, ids);
      AddDeliveriesRecords(mid, ds);
      AddDeliveriesFrame(mid, ds);
      hide AddMessage, PolicyOk, Addable;
      AddedPolicies(s, AddDeliveries(mid, ds), msg, ds) by {
        MessageAdded(s, msg);
      }
    }
  }

  lemma MessageAdded(s: State, msg: Message)
    ensures AddMessage(s, msg).messages == s.messages[msg.id := msg] && AddMessage(s, msg).deliveries == s.deliveries
  {
  }

  lemma AddedPolicies(s: State, next: State, msg: Message, ds: seq<Delivery>)
    requires LinksOk(s) && PoliciesOk(s) && msg.id !in s.messages && NormalizePolicy(msg.policy).Some?
    requires next.messages == s.messages[msg.id := msg]
    requires forall i :: 0 <= i < |ds| ==> ds[i].message == msg.id && ds[i].policy == Some(msg.policy)
    requires forall d :: d in s.deliveries ==> d in next.deliveries && next.deliveries[d] == s.deliveries[d]
    requires forall d :: d in next.deliveries && d !in s.deliveries ==> exists i :: 0 <= i < |ds| && ds[i].id == d && next.deliveries[d] == ds[i]
    ensures PoliciesOk(next)
  {
    hide WasAdmitted, NormalizePolicy;
    forall d | d in next.deliveries && next.deliveries[d].message in next.messages
      ensures PolicyOk(next.deliveries[d], next.messages[next.deliveries[d].message])
    {
      if d in s.deliveries {
        assert s.deliveries[d].message != msg.id;
      }
    }
  }

  lemma CancelPolicies(s: State, team: Id, message: Id)
    requires Cancel(s, team, message).Ok?
    ensures PoliciesKept(s, Cancel(s, team, message).value)
  {
  }

  lemma DeletePolicies(s: State, team: Id)
    requires DeleteTeam(s, team).Ok?
    ensures PoliciesKept(s, DeleteTeam(s, team).value)
  {
    hide Doomed, DoomedKeys, PurgePrefix, Without;
  }

  lemma QuietPolicies(m: Machine, step: Step)
    requires LeavesDeliveries(step)
    ensures Take1(m, step).s.deliveries == m.s.deliveries && Take1(m, step).s.messages == m.s.messages
  {
    hide IsOldest;
  }

  lemma StepPolicies(m: Machine, step: Step)
    requires Base(m) && PoliciesOk(m.s)
    ensures PoliciesOk(Take1(m, step).s)
  {
    LinksAre(m);
    hide Base, PoliciesOk, PoliciesKept;
    if Take1(m, step).s != m.s {
      match step {
        case Create(team, admitted, message, ids, body) => CreatePolicies(m.s, team, admitted, message, ids, body);
        case Advance(task, env) => NextPolicies(m, task, env); KeptPolicies(m.s, Take1(m, step).s);
        case CancelMessage(team, message) => CancelPolicies(m.s, team, message); KeptPolicies(m.s, Take1(m, step).s);
        case Delete(team) => DeletePolicies(m.s, team); KeptPolicies(m.s, Take1(m, step).s);
        case RetryDelivery(team, id) => RetryPolicies(m.s, team, id); KeptPolicies(m.s, Take1(m, step).s);
        case _ =>
          QuietPolicies(m, step);
          SamePolicies(m.s, Take1(m, step).s);
          KeptPolicies(m.s, Take1(m, step).s);
      }
    }
  }

  lemma LinksAre(m: Machine)
    requires Base(m)
    ensures LinksOk(m.s)
  {
  }

  lemma RetryPolicies(s: State, team: Id, id: Id)
    requires Retry(s, team, id).Ok?
    ensures PoliciesKept(s, Retry(s, team, id).value)
  {
  }

  // ---- Snapshots and queues ----

  lemma OneAheadStays(s: State, next: State, routes: map<Id, Id>, mover: Option<Id>, retried: Option<Id>, d: Id, a: Id)
    requires Changes(s, next, routes, mover, retried) && AheadOpen(s, d)
    requires d in s.deliveries && a in s.deliveries && a in next.deliveries && s.deliveries[a].recipient == s.deliveries[d].recipient
    requires mover != Some(s.deliveries[d].recipient) && Ahead(QueueOf(next, s.deliveries[d].recipient), a, d)
    ensures IsTerminal(next.deliveries[a].status) || IsOpen(next.deliveries[a].status)
  {
    assert Ahead(QueueOf(s, s.deliveries[d].recipient), a, d);
  }

  lemma AheadOpenLasts(s: State, next: State, routes: map<Id, Id>, mover: Option<Id>, retried: Option<Id>, d: Id)
    requires RepInv(s) && Changes(s, next, routes, mover, retried) && d in routes
    requires d in s.deliveries ==> mover != Some(s.deliveries[d].recipient)
    requires AheadOpen(s, d)
    ensures AheadOpen(next, d)
  {
    if d in next.deliveries {
      var r := s.deliveries[d].recipient;
      assert SameRoute(s.deliveries[d], next.deliveries[d]);
      forall a | Ahead(QueueOf(next, r), a, d) && a in next.deliveries
        ensures IsTerminal(next.deliveries[a].status) || IsOpen(next.deliveries[a].status)
      {
        assert Ahead(QueueOf(s, r), a, d);
        hide RepInv, AheadOpen;
        QueuedExists(s, r, a, d);
        OneAheadStays(s, next, routes, mover, retried, d, a);
      }
    }
  }

  lemma OtherReady(m: Machine, step: Step, u: nat)
    requires Ready(m) && u in m.tasks && !m.tasks[u].Waiting? && Mover(m, step) != Some(Recipient(m.tasks[u]))
    ensures PcReady(Take1(m, step).s, m.tasks[u])
  {
    var pc := m.tasks[u];
    TaskIsOk(m, u);
    assert PcReady(m.s, pc) && RepInv(m.s);
    StepChanges(m, step);
    hide Base, RepInv, Changes, RoutesOk, Drifted, AheadOpen, PolicyOk, Take1;
    if pc.Looking? || pc.Clear? || pc.Claiming? {
      DriftLasts(m.s, Take1(m, step).s, m.routes, Mover(m, step), RetriedBy(step), pc.d);
    }
    if pc.Clear? || pc.Claiming? {
      SubjectIsRouted(m, u);
      AheadOpenLasts(m.s, Take1(m, step).s, m.routes, Mover(m, step), RetriedBy(step), pc.d.id);
    }
  }

  lemma TerminalIsOpenAhead(s: State, d: Id)
    requires InTurn(s, d)
    ensures AheadOpen(s, d)
  {
  }

  lemma LookReady(m: Machine, t: nat, pc: Pc)
    requires RepInv(m.s) && pc.Looking? && PcReady(m.s, pc) && t in LookAhead(m, t, pc).tasks
    requires pc.d.id in m.s.deliveries ==> m.s.deliveries[pc.d.id].recipient == pc.d.recipient
    ensures PcReady(LookAhead(m, t, pc).s, LookAhead(m, t, pc).tasks[t])
  {
    if Blocker(m.s, pc.d).None? {
      UnblockedInTurn(m.s, pc.d);
      TerminalIsOpenAhead(m.s, pc.d.id);
    }
    hide RepInv, AheadOpen, Drifted, PolicyOk;
  }

  lemma LookUpReady(m: Machine, t: nat, pc: Pc)
    requires PoliciesOk(m.s) && pc.Locked? && RoutesOk(m.s, m.routes) && t in LookUp(m, t, pc).tasks
    requires t in m.tasks && m.tasks[t] == pc
    ensures PcReady(LookUp(m, t, pc).s, LookUp(m, t, pc).tasks[t])
  {
    hide PolicyOk;
  }

  lemma ChooseReady(m: Machine, t: nat, pc: Pc, env: Env)
    requires pc.Clear? && PcReady(m.s, pc) && t in Choose(m, t, pc, env).tasks
    ensures PcReady(Choose(m, t, pc, env).s, Choose(m, t, pc, env).tasks[t])
  {
    hide PolicyOk, Drifted, AheadOpen, Decide;
  }

  lemma NextReady(m: Machine, t: nat, env: Env)
    requires Ready(m) && t in m.tasks && !m.tasks[t].Waiting? && t in Next(m, t, m.tasks[t], env).tasks
    ensures PcReady(Next(m, t, m.tasks[t], env).s, Next(m, t, m.tasks[t], env).tasks[t])
  {
    var pc := m.tasks[t];
    TaskIsOk(m, t);
    SubjectIsRouted(m, t);
    assert PcReady(m.s, pc);
    match pc {
      case Locked(_, _, _) => LookUpReady(m, t, pc);
      case Looking(_, _, _) => LookReady(m, t, pc);
      case Clear(_, _, _) => ChooseReady(m, t, pc, env);
      case Settling(_, _) => hide RepInv; LaterPlaces(m, t, env);
      case _ => hide RepInv; LaterPlaces(m, t, env);
    }
  }

  /** From the claim on the places need nothing more. */
  lemma LaterPlaces(m: Machine, t: nat, env: Env)
    requires t in m.tasks && !m.tasks[t].Waiting? && t in Next(m, t, m.tasks[t], env).tasks
    requires !m.tasks[t].Locked? && !m.tasks[t].Looking? && !m.tasks[t].Clear?
    ensures
      var pc := Next(m, t, m.tasks[t], env).tasks[t];
      !pc.Looking? && !pc.Clear? && !pc.Claiming?
  {
    hide Transition;
  }

  lemma StepPlaces(m: Machine, step: Step, u: nat)
    requires Ready(m) && u in Take1(m, step).tasks
    ensures PcReady(Take1(m, step).s, Take1(m, step).tasks[u])
  {
    hide Base, PcReady, PoliciesOk;
    if step.Advance? {
      if Runs(m, step, step.task) {
        if u == step.task {
          NextReady(m, u, step.env);
        } else {
          NextFrame(m, step.task, step.env);
          hide Next;
          if m.tasks[u].Waiting? {
            IdleReady(Take1(m, step).s, m.tasks[u]);
          } else {
            if Recipient(m.tasks[u]) == Recipient(m.tasks[step.task]) {
              GuardsExclude(m, u, step.task);
            }
            OtherReady(m, step, u);
          }
        }
      }
    } else {
      CallFrame(m, step);
      hide Take1;
      if u in m.tasks && Take1(m, step).tasks[u] == m.tasks[u] && !m.tasks[u].Waiting? {
        OtherReady(m, step, u);
      } else {
        IdleReady(Take1(m, step).s, Take1(m, step).tasks[u]);
      }
    }
  }

  lemma IdleReady(s: State, pc: Pc)
    requires pc.Waiting? || pc.Locked?
    ensures PcReady(s, pc)
  {
  }

  lemma StepReady(m: Machine, step: Step)
    requires Ready(m)
    ensures Ready(Take1(m, step))
  {
    StepKeepsBase(m, step);
    StepPolicies(m, step);
    hide Base, PcReady, PoliciesOk, Take1;
    forall u | u in Take1(m, step).tasks ensures PcReady(Take1(m, step).s, Take1(m, step).tasks[u]) {
      StepPlaces(m, step, u);
    }
  }

  lemma {:induction false} RunReady(m: Machine, steps: seq<Step>)
    requires Ready(m)
    ensures Ready(Run(m, steps))
  {
    hide Ready, Take1;
    if steps != [] {
      RunReady(m, steps[..|steps| - 1]);
      StepReady(Run(m, steps[..|steps| - 1]), steps[|steps| - 1]);
    }
  }

  lemma StartReady(m: Machine)
    requires Start(m) && PoliciesOk(m.s)
    ensures Ready(m)
  {
  }

  // ---- Clearing a queue ----

  /** Steps that neither retry nor cancel anything. */
  predicate Calm(steps: seq<Step>) {
    forall i :: 0 <= i < |steps| ==> !steps[i].RetryDelivery? && !steps[i].CancelMessage?
  }

  lemma CalmAppend(a: seq<Step>, b: seq<Step>)
    requires Calm(a) && Calm(b)
    ensures Calm(a + b)
  {
  }

  lemma {:induction false} AdvancesCalm(t: nat, env: Env, k: nat)
    ensures Calm(Advances(t, env, k))
  {
    if k > 0 {
      AdvancesCalm(t, env, k - 1);
    }
  }

  lemma {:induction false} NothingBefore(ids: seq<Id>, k: nat, deliveries: map<Id, Delivery>)
    requires k < |ids| && forall j :: 0 <= j < k && ids[j] in deliveries ==> IsTerminal(deliveries[ids[j]].status)
    ensures FirstOpen(ids, ids[k], deliveries).None?
  {
    if k > 0 && ids[0] != ids[k] {
      NothingBefore(ids[1..], k - 1, deliveries);
    }
  }

  /** From `m` to `n` only the first `k` of a queue have changed, and they are terminal. */
  ghost predicate ClearedTo(m: Machine, n: Machine, r: Id, k: nat)
    requires k <= |QueueOf(m.s, r)|
  {
    var queue := QueueOf(m.s, r);
    && n.tasks == m.tasks && n.guards == m.guards && n.routes == m.routes
    && n.s == m.s.(deliveries := n.s.deliveries) && n.s.deliveries.Keys == m.s.deliveries.Keys
    && (forall x :: x in m.s.deliveries && x !in queue[..k] ==> n.s.deliveries[x] == m.s.deliveries[x])
    && (forall j :: 0 <= j < k && queue[j] in n.s.deliveries ==> IsTerminal(n.s.deliveries[queue[j]].status))
  }

  lemma FirstHasNoBlocker(m: Machine, r: Id, k: nat)
    requires RepInv(m.s) && k < |QueueOf(m.s, r)|
    requires forall j :: 0 <= j < k && QueueOf(m.s, r)[j] in m.s.deliveries ==> IsTerminal(m.s.deliveries[QueueOf(m.s, r)[j]].status)
    ensures
      var x := QueueOf(m.s, r)[k];
      x in m.s.deliveries && m.s.deliveries[x].recipient == r && m.s.deliveries[x].id == x
      && m.s.deliveries[x].message in m.s.messages && Blocker(m.s, m.s.deliveries[x]).None?
  {
    var x := QueueOf(m.s, r)[k];
    assert ColumnOk(m.s, ByRecipient) && LinksOk(m.s);
    assert x in QueueOf(m.s, r);
    assert x in Owners(m.s.deliveries, ByRecipient);
    hide RepInv;
    NothingBefore(QueueOf(m.s, r), k, m.s.deliveries);
  }

  /** The first open delivery of a queue is tried, and the provider refuses it. */
  lemma FailFirst(m: Machine, t: nat, r: Id, k: nat)
    requires Ready(m) && t !in m.tasks && r !in m.guards && k < |QueueOf(m.s, r)|
    requires forall j :: 0 <= j < k && QueueOf(m.s, r)[j] in m.s.deliveries ==> IsTerminal(m.s.deliveries[QueueOf(m.s, r)[j]].status)
    requires QueueOf(m.s, r)[k] in m.s.deliveries && IsOpen(m.s.deliveries[QueueOf(m.s, r)[k]].status)
    ensures
      var x := QueueOf(m.s, r)[k];
      var n := Run(m, WholeAttempt(t, x, Queue, FreeEnv(ProviderRejected), 7));
      && n.tasks == m.tasks && n.guards == m.guards && n.routes == m.routes
      && n.s == m.s.(deliveries := m.s.deliveries[x := Calls.Sent(m.s.deliveries[x], ProviderRejected)])
  {
    assert RepInv(m.s) && PoliciesOk(m.s);
    FirstHasNoBlocker(m, r, k);
    hide RepInv, Run, WholeAttempt, Ready, Blocker, Decide;
    hide Calls.Inject;
    var x := QueueOf(m.s, r)[k];
    var d, env, w := m.s.deliveries[x], FreeEnv(ProviderRejected), Calls.World(m.s, []);
    FreeProceeds(d, m.s.messages[d.message], Queue, ProviderRejected);
    CallsAreSchedules(m, t, x, Queue, env, w, 7);
    Calls.FreeRecipientIsSent(w, x, Queue, env);
  }

  lemma AttemptIsCalm(t: nat, x: Id, env: Env)
    ensures Calm(WholeAttempt(t, x, Queue, env, 7))
  {
    hide Advances;
    AdvancesCalm(t, env, 7);
    CalmAppend([Spawn(t, x, Queue), Acquire(t)], Advances(t, env, 7));
  }

  lemma SentFails(d: Delivery)
    ensures Calls.Sent(d, ProviderRejected).status.Failed?
  {
  }

  lemma ClearedOneMore(m: Machine, mid: Machine, n: Machine, r: Id, k: nat)
    requires k < |QueueOf(m.s, r)| && ClearedTo(m, mid, r, k) && QueueOf(m.s, r)[k] in m.s.deliveries
    requires n.tasks == mid.tasks && n.guards == mid.guards && n.routes == mid.routes
    requires
      var x := QueueOf(m.s, r)[k];
      || (n == mid && IsTerminal(mid.s.deliveries[x].status))
      || n.s == mid.s.(deliveries := mid.s.deliveries[x := Calls.Sent(mid.s.deliveries[x], ProviderRejected)])
    ensures ClearedTo(m, n, r, k + 1)
  {
    hide Calls.Sent;
    var queue := QueueOf(m.s, r);
    assert queue[..k + 1] == queue[..k] + [queue[k]];
    SentFails(mid.s.deliveries[queue[k]]);
  }

  /** What is left of a place in the queue after everything before it was cleared. */
  lemma NextInLine(m: Machine, mid: Machine, r: Id, k: nat)
    requires k < |QueueOf(m.s, r)| && ClearedTo(m, mid, r, k) && NoRepeats(QueueOf(m.s, r)) && RepInv(mid.s)
    ensures
      var x := QueueOf(m.s, r)[k];
      && QueueOf(mid.s, r) == QueueOf(m.s, r) && x in m.s.deliveries && x in mid.s.deliveries
      && mid.s.deliveries[x] == m.s.deliveries[x]
  {
    var queue := QueueOf(m.s, r);
    assert queue[k] !in queue[..k];
    FirstHasNoBlocker(mid, r, k);
  }

  lemma NothingRun(m: Machine)
    ensures Calm([]) && Run(m, []) == m
  {
  }

  lemma ClearOne(m: Machine, mid: Machine, t: nat, r: Id, k: nat) returns (more: seq<Step>)
    requires Ready(mid) && t !in m.tasks && r !in m.guards && k < |QueueOf(m.s, r)|
    requires ClearedTo(m, mid, r, k) && NoRepeats(QueueOf(m.s, r))
    requires QueueOf(m.s, r)[k] in m.s.deliveries ==>
               IsTerminal(m.s.deliveries[QueueOf(m.s, r)[k]].status) || IsOpen(m.s.deliveries[QueueOf(m.s, r)[k]].status)
    ensures Calm(more) && ClearedTo(m, Run(mid, more), r, k + 1)
  {
    hide Ready, Base, RepInv, PoliciesOk, NoRepeats, Run, WholeAttempt, Calm, AheadOpen, PcReady;
    RepOf(mid);
    NextInLine(m, mid, r, k);
    var x := QueueOf(m.s, r)[k];
    if IsTerminal(mid.s.deliveries[x].status) {
      more := [];
      NothingRun(mid);
      ClearedOneMore(m, mid, mid, r, k);
    } else {
      more := WholeAttempt(t, x, Queue, FreeEnv(ProviderRejected), 7);
      FailFirst(mid, t, r, k);
      AttemptIsCalm(t, x, FreeEnv(ProviderRejected));
      ClearedOneMore(m, mid, Run(mid, more), r, k);
    }
  }

  /** A queue of open and terminal deliveries can be cleared up to any place, by attempts the provider refuses. */
  lemma {:induction false} QueueClears(m: Machine, t: nat, r: Id, k: nat) returns (steps: seq<Step>)
    requires Ready(m) && t !in m.tasks && r !in m.guards && k <= |QueueOf(m.s, r)|
    requires forall j :: 0 <= j < k && QueueOf(m.s, r)[j] in m.s.deliveries ==>
               IsTerminal(m.s.deliveries[QueueOf(m.s, r)[j]].status) || IsOpen(m.s.deliveries[QueueOf(m.s, r)[j]].status)
    requires NoRepeats(QueueOf(m.s, r))
    ensures Calm(steps) && ClearedTo(m, Run(m, steps), r, k)
  {
    hide Ready, NoRepeats;
    if k == 0 {
      steps := [];
    } else {
      var earlier := QueueClears(m, t, r, k - 1);
      hide ClearedTo, Run;
      RunReady(m, earlier);
      var more := ClearOne(m, Run(m, earlier), t, r, k - 1);
      steps := earlier + more;
      CalmAppend(earlier, more);
      RunAppend(m, earlier, more);
    }
  }

  lemma RepOf(m: Machine)
    requires Ready(m)
    ensures RepInv(m.s) && Base(m) && PoliciesOk(m.s)
  {
  }
}
