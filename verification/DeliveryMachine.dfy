/**
All calls of the team service at once. Every locked section is one step: the sections that change
teams, messages and deliveries, and the sections of any number of `inject_delivery` tasks, each of
which holds its recipient's guard from its first look to its last write. Steps interleave freely.
*/
module DeliveryMachine {
  import opened Wrappers
  import opened Text
  import opened TeamIndex
  import opened TeamState
  import opened Injection

  /** Where an injection task is; every place after `Waiting` holds the recipient's guard. */
  datatype Pc =
    | Waiting(id: Id, recipient: Id, trigger: Trigger)
    | Locked(id: Id, recipient: Id, trigger: Trigger)
    | Looking(d: Delivery, m: Message, trigger: Trigger)
    | Clear(d: Delivery, m: Message, trigger: Trigger)
    | Moving(d: Delivery, next: Status, code: Option<string>)
    | Claiming(d: Delivery)
    | Sending(d: Delivery)
    | Settling(d: Delivery, answer: SendAnswer)
    | Stamping(id: Id, recipient: Id, turn: Id)

  function Subject(pc: Pc): Id {
    if pc.Waiting? || pc.Locked? || pc.Stamping? then pc.id else pc.d.id
  }

  function Recipient(pc: Pc): Id {
    if pc.Waiting? || pc.Locked? || pc.Stamping? then pc.recipient else pc.d.recipient
  }

  /**
  `routes` remembers the recipient of every delivery id ever handed out; ids are never reused.
  `accepted` lists the deliveries whose turn a provider has accepted, in order.
  */
  datatype Machine = Machine(
    s: State, routes: map<Id, Id>, guards: map<Id, nat>, tasks: map<nat, Pc>, accepted: seq<Id>)

  datatype Step =
    | NewTeam(team: Id, name: string, lead: Id, agents: seq<Id>, sessions: Sessions, now: int)
    | Join(team: Id, agent: Id, sessions: Sessions, now: int)
    | Leave(team: Id, agent: Id, heir: Id, now: int)
    | Lead(team: Id, agent: Id, now: int)
    | Delete(team: Id)
    | Create(team: Id, admitted: Admitted, message: Id, ids: seq<Id>, body: string)
    | CancelMessage(team: Id, message: Id)
    | RetryDelivery(team: Id, id: Id)
    | Spawn(task: nat, id: Id, trigger: Trigger)
    | Acquire(task: nat)
    | Advance(task: nat, env: Env)

  function Unless(s: State, r: Result<State, Error>): State {
    if r.Ok? then r.value else s
  }

  ghost function Routed(routes: map<Id, Id>, s: State): map<Id, Id> {
    map d | d in routes.Keys + s.deliveries.Keys :: if d in routes then routes[d] else s.deliveries[d].recipient
  }

  ghost predicate NewIds(m: Machine, message: Id, ids: seq<Id>) {
    Fresh(m.s, message, ids) && forall i :: 0 <= i < |ids| ==> ids[i] !in m.routes
  }

  function At(m: Machine, task: nat, pc: Pc): Machine {
    m.(tasks := m.tasks[task := pc])
  }

  /** The task returns and drops its guard. */
  function Finish(m: Machine, task: nat, recipient: Id): Machine {
    m.(tasks := m.tasks - {task}, guards := m.guards - {recipient})
  }

  function LookUp(m: Machine, task: nat, pc: Pc): Machine
    requires pc.Locked?
  {
    if pc.id !in m.s.deliveries || m.s.deliveries[pc.id].message !in m.s.messages
       || !IsOpen(m.s.deliveries[pc.id].status)
    then Finish(m, task, pc.recipient)
    else
      var d := m.s.deliveries[pc.id];
      At(m, task, Looking(d, m.s.messages[d.message], pc.trigger))
  }

  function LookAhead(m: Machine, task: nat, pc: Pc): Machine
    requires pc.Looking?
  {
    if Blocker(m.s, pc.d).None? then At(m, task, Clear(pc.d, pc.m, pc.trigger))
    else if pc.d.status.Pending? then At(m, task, Moving(pc.d, Deferred, None))
    else Finish(m, task, pc.d.recipient)
  }

  function Choose(m: Machine, task: nat, pc: Pc, env: Env): Machine
    requires pc.Clear?
  {
    match Decide(pc.d, pc.m, pc.trigger, env)
    case Stop => Finish(m, task, pc.d.recipient)
    case Move(next, code) => At(m, task, Moving(pc.d, next, code))
    case Proceed => At(m, task, Claiming(pc.d))
  }

  /** Write a status and return. */
  function WriteLast(m: Machine, task: nat, d: Delivery, next: Status, code: Option<string>): Machine {
    Finish(m.(s := Transition(m.s, d, next, None, code).0), task, d.recipient)
  }

  function Claim(m: Machine, task: nat, d: Delivery): Machine {
    var (s, r) := Transition(m.s, d, Injecting, None, None);
    if r.Err? then Finish(m, task, d.recipient) else At(m.(s := s), task, Sending(r.value))
  }

  function SendTurn(m: Machine, task: nat, d: Delivery, answer: SendAnswer): Machine {
    var m' := At(m, task, Settling(d, answer));
    if answer.Accepted? then m'.(accepted := m.accepted + [d.id]) else m'
  }

  function Settle(m: Machine, task: nat, pc: Pc): Machine
    requires pc.Settling?
  {
    match pc.answer
    case Accepted(turn) =>
      var (s, r) := Transition(m.s, pc.d, Injected, Some("runtime_send_turn"), None);
      if r.Err? then Finish(m, task, pc.d.recipient)
      else At(m.(s := s), task, Stamping(pc.d.id, pc.d.recipient, turn))
    case OwnershipRejected => WriteLast(m, task, pc.d, Deferred, Some("turn_ownership_rejected"))
    case ProviderRejected => WriteLast(m, task, pc.d, Failed, Some("provider_rejected"))
  }

  /** The next section of a task that holds its guard. */
  function Next(m: Machine, task: nat, pc: Pc, env: Env): Machine
    requires !pc.Waiting?
  {
    match pc
    case Locked(_, _, _) => LookUp(m, task, pc)
    case Looking(_, _, _) => LookAhead(m, task, pc)
    case Clear(_, _, _) => Choose(m, task, pc, env)
    case Moving(d, next, code) => WriteLast(m, task, d, next, code)
    case Claiming(d) => Claim(m, task, d)
    case Sending(d) => SendTurn(m, task, d, env.send)
    case Settling(_, _) => Settle(m, task, pc)
    case Stamping(id, recipient, turn) => Finish(m.(s := Stamp(m.s, id, turn)), task, recipient)
  }

  /** One locked section; a call that is refused leaves the state as it is. */
  ghost function Take1(m: Machine, step: Step): Machine {
    match step
    case NewTeam(team, name, lead, agents, sessions, now) =>
      if team in m.s.teams || !NoBar(team) || !PlainSessions(sessions) then m
      else m.(s := Unless(m.s, CreateTeam(m.s, team, name, lead, agents, sessions, now)))
    case Join(team, agent, sessions, now) =>
      if !PlainSessions(sessions) then m else m.(s := Unless(m.s, JoinTeam(m.s, team, agent, sessions, now)))
    case Leave(team, agent, heir, now) =>
      if team !in m.s.members || !IsOldest(m.s.members[team] - {agent}, heir) then m
      else m.(s := Unless(m.s, RemoveMember(m.s, team, agent, heir, now)))
    case Lead(team, agent, now) => m.(s := Unless(m.s, SetLead(m.s, team, agent, now)))
    case Delete(team) => m.(s := Unless(m.s, DeleteTeam(m.s, team)))
    case Create(team, admitted, message, ids, body) =>
      if !NewIds(m, message, ids) || !Normal(admitted) then m
      else
        var r := CreateMessage(m.s, team, admitted, message, ids, body);
        if r.Err? then m else m.(s := r.value.0, routes := Routed(m.routes, r.value.0))
    case CancelMessage(team, message) => m.(s := Unless(m.s, Cancel(m.s, team, message)))
    case RetryDelivery(team, id) => m.(s := Unless(m.s, Retry(m.s, team, id)))
    case Spawn(task, id, trigger) =>
      if task in m.tasks || id !in m.s.deliveries then m
      else At(m, task, Waiting(id, m.s.deliveries[id].recipient, trigger))
    case Acquire(task) =>
      if task !in m.tasks || !m.tasks[task].Waiting? || m.tasks[task].recipient in m.guards then m
      else
        var pc := m.tasks[task];
        At(m.(guards := m.guards[pc.recipient := task]), task, Locked(pc.id, pc.recipient, pc.trigger))
    case Advance(task, env) =>
      if task !in m.tasks || m.tasks[task].Waiting? then m else Next(m, task, m.tasks[task], env)
  }

  ghost function Run(m: Machine, steps: seq<Step>): Machine {
    if steps == [] then m else Take1(Run(m, steps[..|steps| - 1]), steps[|steps| - 1])
  }

  // ---- How a section may change the deliveries ----

  /** What another recipient's task, or a section that is no task, may do to a status. */
  predicate QuietStatus(a: Status, b: Status, retry: bool) {
    a == b || (IsOpen(a) && b.Cancelled?) || (retry && (a.Failed? || a.Deferred?) && b.Pending?)
  }

  /** A legal edge of the status graph, a retry edge, or a cancel edge. */
  predicate Edge(a: Status, b: Status, retry: bool) {
    a == b || IsValidTransition(a, b) || QuietStatus(a, b, retry)
  }

  /** An injected turn id means injected, an error code means failed. */
  predicate CleanRecord(d: Delivery) {
    (d.turn.Some? ==> d.status.Injected?) && (d.errorCode.Some? ==> d.status.Failed?)
  }

  ghost predicate AllClean(s: State) {
    forall d :: d in s.deliveries ==> CleanRecord(s.deliveries[d])
  }

  /** The routes agree with the deliveries there are. */
  ghost predicate RoutesOk(s: State, routes: map<Id, Id>) {
    forall d :: d in s.deliveries ==> d in routes && routes[d] == s.deliveries[d].recipient && s.deliveries[d].id == d
  }

  /**
  From `s` to `next`: surviving deliveries keep their routes and move along edges, only
  deliveries of recipient `mover` in other than a quiet way, and nothing gets ahead of a survivor
  that was not ahead of it before.
  */
  ghost predicate Changes(s: State, next: State, routes: map<Id, Id>, mover: Option<Id>, retried: Option<Id>) {
    && (forall d :: d in s.deliveries && d in next.deliveries ==>
          && SameRoute(s.deliveries[d], next.deliveries[d])
          && Edge(s.deliveries[d].status, next.deliveries[d].status, retried == Some(d))
          && (mover == Some(s.deliveries[d].recipient)
              || QuietStatus(s.deliveries[d].status, next.deliveries[d].status, retried == Some(d))))
    && (forall d :: d in next.deliveries && d !in s.deliveries ==> d !in routes && next.deliveries[d].status.Pending?)
    && (forall r, a, b :: b in s.deliveries && Ahead(QueueOf(next, r), a, b) ==> Ahead(QueueOf(s, r), a, b))
  }

  lemma NothingChanges(s: State, next: State, routes: map<Id, Id>, mover: Option<Id>, retried: Option<Id>)
    requires next.deliveries == s.deliveries && next.recipientDeliveries == s.recipientDeliveries
    ensures Changes(s, next, routes, mover, retried)
  {
  }

  lemma OneChanges(s: State, d: Delivery, routes: map<Id, Id>, mover: Option<Id>, retried: Option<Id>)
    requires d.id in s.deliveries && SameRoute(s.deliveries[d.id], d)
    requires Edge(s.deliveries[d.id].status, d.status, retried == Some(d.id))
    requires mover == Some(s.deliveries[d.id].recipient) || QuietStatus(s.deliveries[d.id].status, d.status, retried == Some(d.id))
    ensures Changes(s, s.(deliveries := s.deliveries[d.id := d]), routes, mover, retried)
  {
  }

  lemma CancelChanges(s: State, team: Id, message: Id, routes: map<Id, Id>)
    requires Cancel(s, team, message).Ok?
    ensures Changes(s, Cancel(s, team, message).value, routes, None, None)
  {
  }

  lemma DeleteChanges(s: State, team: Id, routes: map<Id, Id>)
    requires DeleteTeam(s, team).Ok?
    ensures Changes(s, DeleteTeam(s, team).value, routes, None, None)
  {
    var next := DeleteTeam(s, team).value;
    forall r, a, b | b in s.deliveries && Ahead(QueueOf(next, r), a, b) ensures Ahead(QueueOf(s, r), a, b) {
      RetainAhead(QueueOf(s, r), Doomed(s, team), a, b);
    }
  }

  lemma AddDeliveryOrder(s: State, d: Delivery, r: Id, a: Id, b: Id)
    requires d.id != b && Ahead(QueueOf(AddDelivery(s, d), r), a, b)
    ensures Ahead(QueueOf(s, r), a, b)
  {
    if r == d.recipient {
      PushAhead(QueueOf(s, r), d.id, a, b);
    }
  }

  lemma {:induction false} AddDeliveriesOrder(s: State, ds: seq<Delivery>, r: Id, a: Id, b: Id)
    requires b in s.deliveries && Addable(s, ds) && Ahead(QueueOf(AddDeliveries(s, ds), r), a, b)
    ensures Ahead(QueueOf(s, r), a, b)
  {
    if ds != [] {
      var front, last := ds[..|ds| - 1], ds[|ds| - 1];
      AddDeliveryOrder(AddDeliveries(s, front), last, r, a, b);
      AddDeliveriesOrder(s, front, r, a, b);
    }
  }

  /** What adding deliveries adds. */
  lemma {:induction false} AddDeliveriesRecords(s: State, ds: seq<Delivery>)
    requires Addable(s, ds)
    ensures
      var next := AddDeliveries(s, ds).deliveries;
      && (forall d :: d in s.deliveries ==> d in next && next[d] == s.deliveries[d])
      && (forall d :: d in next && d !in s.deliveries ==> exists i :: 0 <= i < |ds| && ds[i].id == d && next[d] == ds[i])
  {
    if ds != [] {
      AddDeliveriesRecords(s, ds[..|ds| - 1]);
    }
  }

  /** New deliveries are pending and clean, queue up behind everybody, and touch no other record. */
  ghost predicate Grows(s: State, next: State, ids: seq<Id>) {
    && (forall d :: d in next.deliveries && d !in s.deliveries ==>
          d in ids && next.deliveries[d].status.Pending? && CleanRecord(next.deliveries[d]) && next.deliveries[d].id == d)
    && (forall d :: d in s.deliveries ==> d in next.deliveries && next.deliveries[d] == s.deliveries[d])
    && (forall r, a, b :: b in s.deliveries && Ahead(QueueOf(next, r), a, b) ==> Ahead(QueueOf(s, r), a, b))
  }

  lemma NewDeliveriesGrow(s: State, m: Message, ids: seq<Id>)
    requires |ids| == |m.recipients| && Addable(s, NewDeliveries(m, ids))
    ensures Grows(s, AddDeliveries(s, NewDeliveries(m, ids)), ids)
  {
    var ds := NewDeliveries(m, ids);
    var next := AddDeliveries(s, ds);
    AddDeliveriesRecords(s, ds);
    forall r, x, y | y in s.deliveries && Ahead(QueueOf(next, r), x, y) ensures Ahead(QueueOf(s, r), x, y) {
      AddDeliveriesOrder(s, ds, r, x, y);
    }
  }

  lemma CreateGrows(s: State, team: Id, a: Admitted, message: Id, ids: seq<Id>, body: string)
    requires Fresh(s, message, ids) && CreateMessage(s, team, a, message, ids, body).Ok?
    ensures Grows(s, CreateMessage(s, team, a, message, ids, body).value.0, ids)
  {
    if CreateMessage(s, team, a, message, ids, body).value.1.created {
      var msg := NewMessage(team, a, message, body);
      NewDeliveriesAddable(s, msg, ids);
      NewDeliveriesGrow(AddMessage(s, msg), msg, ids);
      GrowthOfMessage(s, msg, AddDeliveries(AddMessage(s, msg), NewDeliveries(msg, ids)), ids);
    }
  }

  lemma GrowthOfMessage(s: State, msg: Message, next: State, ids: seq<Id>)
    requires Grows(AddMessage(s, msg), next, ids)
    ensures Grows(s, next, ids)
  {
    forall r, x, y | y in s.deliveries && Ahead(QueueOf(next, r), x, y) ensures Ahead(QueueOf(s, r), x, y) {
      assert QueueOf(AddMessage(s, msg), r) == QueueOf(s, r);
    }
  }

  lemma GrowthChanges(s: State, next: State, ids: seq<Id>, routes: map<Id, Id>)
    requires Grows(s, next, ids) && forall i :: 0 <= i < |ids| ==> ids[i] !in routes
    ensures Changes(s, next, routes, None, None)
  {
  }

  lemma TransitionChanges(s: State, d: Delivery, next: Status, strategy: Option<string>, code: Option<string>, routes: map<Id, Id>)
    requires RoutesOk(s, routes) && (d.id in s.deliveries ==> s.deliveries[d.id].recipient == d.recipient)
    ensures Changes(s, Transition(s, d, next, strategy, code).0, routes, Some(d.recipient), None)
  {
    var after := Transition(s, d, next, strategy, code).0;
    if after == s {
      NothingChanges(s, after, routes, Some(d.recipient), None);
    } else {
      OneChanges(s, Moved(s.deliveries[d.id], next, strategy, code), routes, Some(d.recipient), None);
    }
  }

  lemma RetryChanges(s: State, team: Id, id: Id, routes: map<Id, Id>)
    requires RoutesOk(s, routes) && Retry(s, team, id).Ok?
    ensures Changes(s, Retry(s, team, id).value, routes, None, Some(id))
  {
    OneChanges(s, Retry(s, team, id).value.deliveries[id], routes, None, Some(id));
  }

  lemma StampChanges(s: State, id: Id, turn: Id, routes: map<Id, Id>, mover: Option<Id>)
    requires RoutesOk(s, routes)
    ensures Changes(s, Stamp(s, id, turn), routes, mover, None)
  {
    if id in s.deliveries {
      OneChanges(s, s.deliveries[id].(turn := Some(turn)), routes, mover, None);
    } else {
      NothingChanges(s, Stamp(s, id, turn), routes, mover, None);
    }
  }
}
