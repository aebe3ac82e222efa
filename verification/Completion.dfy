/**
The announcement of completed messages, over runs of calls taken one at a time and without retries.
*/
module Completion {
  import opened Wrappers
  import opened TeamIndex
  import opened TeamState
  import opened Injection
  import opened DeliveryMachine
  import opened DeliveryRuns
  import opened DeliveryCalls

  /** `used`: message ids ever handed out; `had`: those of messages that were created with deliveries. */
  datatype History = History(m: Machine, completed: seq<Id>, used: set<Id>, had: set<Id>)

  datatype Call = Section(step: Step) | Attempt(id: Id, trigger: Trigger, env: Env)

  /** The calls that are one locked section. */
  predicate IsCall(step: Step) {
    !step.Spawn? && !step.Acquire? && !step.Advance? && !step.RetryDelivery?
  }

  ghost function Do(h: History, call: Call): History {
    match call
    case Section(step) =>
      if !IsCall(step) || (step.Create? && step.message in h.used) then h
      else
        var m := Take1(h.m, step);
        History(m, if step.CancelMessage? && Cancel(h.m.s, step.team, step.message).Ok? then h.completed + [step.message]
                   else h.completed,
                h.used + m.s.messages.Keys, h.had + m.s.messageDeliveries.Keys)
    case Attempt(id, trigger, env) =>
      var w := Inject(World(h.m.s, h.completed), id, trigger, env).0;
      h.(m := h.m.(s := w.s), completed := w.completed)
  }

  ghost function DoAll(h: History, calls: seq<Call>): History {
    if calls == [] then h else Do(DoAll(h, calls[..|calls| - 1]), calls[|calls| - 1])
  }

  function Times(completed: seq<Id>, x: Id): nat {
    multiset(completed)[x]
  }

  /** Announced exactly the messages whose deliveries are all terminal, and those once. */
  ghost predicate Told(s: State, completed: seq<Id>, had: set<Id>) {
    && (forall x :: x in s.messageDeliveries ==> x in had && (MessageDone(s, x) <==> x in completed))
    && (forall x :: x in had ==> Times(completed, x) <= 1)
    && (forall x :: x in had && x in s.messages ==> x in s.messageDeliveries)
  }

  ghost predicate Known(h: History) {
    && h.m.s.messages.Keys <= h.used && h.had <= h.used
    && forall x :: x in h.completed ==> x in h.used
  }

  ghost predicate Faithful(h: History) {
    RepInv(h.m.s) && Known(h) && Told(h.m.s, h.completed, h.had)
  }

  // ---- Announcing ----

  /** Announcing a message that was not done before the write that finished it. */
  lemma TellOne(completed: seq<Id>, x: Id, y: Id)
    ensures y in completed + [x] <==> y in completed || y == x
    ensures Times(completed + [x], y) == Times(completed, y) + if x == y then 1 else 0
    ensures x !in completed ==> Times(completed, x) == 0
  {
  }

  /** A write to one record of one message. */
  ghost predicate Touches(s: State, next: State, d: Id) {
    && d in s.deliveries && d in next.deliveries
    && next == s.(deliveries := s.deliveries[d := next.deliveries[d]])
  }

  lemma OthersStayDone(s: State, next: State, d: Id, x: Id)
    requires RepInv(s) && Touches(s, next, d) && x != s.deliveries[d].message
    ensures MessageDone(next, x) <==> MessageDone(s, x)
  {
    NotListed(s, d, x);
  }

  lemma NotListed(s: State, d: Id, x: Id)
    requires RepInv(s) && d in s.deliveries
    ensures d in ListOf(s.messageDeliveries, x) <==> x == s.deliveries[d].message
    ensures s.deliveries[d].message in s.messageDeliveries && s.deliveries[d].message in s.messages
  {
    assert ColumnOk(s, ByMessage) && LinksOk(s);
    assert d in Owners(s.deliveries, ByMessage);
  }

  lemma WriteTells(w: World, next: State, d: Id, had: set<Id>)
    requires RepInv(w.s) && Touches(w.s, next, d) && Told(w.s, w.completed, had)
    requires !IsTerminal(w.s.deliveries[d].status)
    ensures
      var told := Announce(World(next, w.completed), w.s.deliveries[d].message);
      Told(next, told.completed, had) && told.s == next
  {
    var x := w.s.deliveries[d].message;
    var told := Announce(World(next, w.completed), x);
    NotListed(w.s, d, x);
    assert !MessageDone(w.s, x) && x !in w.completed;
    forall y | y in next.messageDeliveries ensures y in had && (MessageDone(next, y) <==> y in told.completed) {
      TellOne(w.completed, x, y);
      if y != x {
        OthersStayDone(w.s, next, d, y);
      }
    }
    forall y | y in had ensures Times(told.completed, y) <= 1 {
      TellOne(w.completed, x, y);
    }
  }

  lemma MoveToTells(w: World, current: Delivery, next: Status, strategy: Option<string>, code: Option<string>, had: set<Id>)
    requires RepInv(w.s) && Told(w.s, w.completed, had)
    requires current.id in w.s.deliveries ==> SameRoute(w.s.deliveries[current.id], current)
    ensures StillTold(w, MoveTo(w, current, next, strategy, code).0, had)
  {
    hide RepInv, Told, MessageDone;
    TransitionKeeps(w.s, current, next, strategy, code);
    if Lands(w.s, current, next) {
      LandedTouches(w.s, current, next, strategy, code);
      hide Transition;
      WriteTells(w, Transition(w.s, current, next, strategy, code).0, current.id, had);
      NotListed(w.s, current.id, current.message);
    }
  }

  lemma LandedTouches(s: State, current: Delivery, next: Status, strategy: Option<string>, code: Option<string>)
    requires Lands(s, current, next)
    ensures Touches(s, Transition(s, current, next, strategy, code).0, current.id) && !IsTerminal(s.deliveries[current.id].status)
  {
    var after := Transition(s, current, next, strategy, code).0;
    assert after.deliveries == s.deliveries[current.id := Moved(s.deliveries[current.id], next, strategy, code)];
  }

  lemma IdIsKey(s: State, id: Id)
    requires RepInv(s) && id in s.deliveries
    ensures s.deliveries[id].id == id
  {
    assert LinksOk(s);
  }

  /** A claim or a lost race returns the live record. */
  lemma MoveToRoute(w: World, current: Delivery, next: Status)
    requires RepInv(w.s) && current.id in w.s.deliveries && SameRoute(w.s.deliveries[current.id], current)
    requires MoveTo(w, current, next, None, None).1.Ok? && IsOpen(current.status) && next.Injecting?
    ensures
      var (after, r) := MoveTo(w, current, next, None, None);
      r.value.id in after.s.deliveries && SameRoute(after.s.deliveries[r.value.id], r.value)
  {
    IdIsKey(w.s, current.id);
    hide RepInv, MessageDone;
    TransitionRoute(w.s, current, next);
    hide Transition, SameRoute;
  }

  lemma TransitionRoute(s: State, current: Delivery, next: Status)
    requires current.id in s.deliveries && SameRoute(s.deliveries[current.id], current)
    requires IsOpen(current.status) && next.Injecting?
    ensures
      var (after, r) := Transition(s, current, next, None, None);
      && r.Ok? && r.value.id in after.deliveries && SameRoute(after.deliveries[r.value.id], r.value)
      && (!Lands(s, current, next) ==> after == s)
  {
  }

  /** From `w` to `after` the invariant and the announcements stay right, and only known messages are announced. */
  ghost predicate StillTold(w: World, after: World, had: set<Id>) {
    && RepInv(after.s) && Told(after.s, after.completed, had) && after.s.messages == w.s.messages
    && (forall x :: x in after.completed ==> x in w.completed || x in w.s.messages)
  }

  lemma StampTells(s: State, id: Id, turn: Id, completed: seq<Id>, had: set<Id>)
    requires Told(s, completed, had)
    ensures Told(Stamp(s, id, turn), completed, had)
  {
    forall x ensures MessageDone(Stamp(s, id, turn), x) <==> MessageDone(s, x) {
    }
  }

  lemma ConcludeTells(w: World, d: Delivery, answer: SendAnswer, had: set<Id>)
    requires RepInv(w.s) && Told(w.s, w.completed, had)
    requires d.id in w.s.deliveries && SameRoute(w.s.deliveries[d.id], d)
    ensures StillTold(w, Conclude(w, d, answer).0, had)
  {
    hide RepInv, Told, MoveTo, Stamp;
    match answer {
      case Accepted(turn) =>
        var (after, r) := MoveTo(w, d, Injected, Some("runtime_send_turn"), None);
        MoveToTells(w, d, Injected, Some("runtime_send_turn"), None, had);
        if r.Ok? {
          StampTells(after.s, r.value.id, turn, after.completed, had);
          StampKeeps(after.s, r.value.id, turn);
          StampMessages(after.s, r.value.id, turn);
        }
      case OwnershipRejected => MoveToTells(w, d, Deferred, None, Some("turn_ownership_rejected"), had);
      case ProviderRejected => MoveToTells(w, d, Failed, None, Some("provider_rejected"), had);
    }
  }

  lemma StampMessages(s: State, id: Id, turn: Id)
    ensures Stamp(s, id, turn).messages == s.messages
  {
  }

  lemma ClaimAndSendTells(w: World, d: Delivery, answer: SendAnswer, had: set<Id>)
    requires RepInv(w.s) && Told(w.s, w.completed, had) && d.id in w.s.deliveries && w.s.deliveries[d.id] == d
    requires IsOpen(d.status)
    ensures StillTold(w, ClaimAndSend(w, d, answer).0, had)
  {
    hide RepInv, Told, MoveTo, Conclude;
    var (w1, claim) := MoveTo(w, d, Injecting, None, None);
    MoveToTells(w, d, Injecting, None, None, had);
    if claim.Ok? {
      MoveToRoute(w, d, Injecting);
      ConcludeTells(w1, claim.value, answer, had);
    }
  }

  lemma InjectTells(w: World, id: Id, trigger: Trigger, env: Env, had: set<Id>)
    requires RepInv(w.s) && Told(w.s, w.completed, had)
    ensures StillTold(w, Inject(w, id, trigger, env).0, had)
  {
    hide RepInv, Told, MoveTo, ClaimAndSend, Blocker, Decide;
    if id in w.s.deliveries {
      var d := w.s.deliveries[id];
      IdIsKey(w.s, id);
      if d.message in w.s.messages && IsOpen(d.status) {
        if Blocker(w.s, d).Some? {
          MoveToTells(w, d, Deferred, None, None, had);
        } else {
          match Decide(d, w.s.messages[d.message], trigger, env) {
            case Move(next, code) => MoveToTells(w, d, next, None, code, had);
            case Proceed => ClaimAndSendTells(w, d, env.send, had);
            case Stop =>
          }
        }
      }
    }
  }

  // ---- The other calls ----

  lemma CancelTells(s: State, team: Id, message: Id, completed: seq<Id>, had: set<Id>)
    requires RepInv(s) && Told(s, completed, had) && Cancel(s, team, message).Ok?
    ensures Told(Cancel(s, team, message).value, completed + [message], had)
  {
    var next := Cancel(s, team, message).value;
    var ids := ListOf(s.messageDeliveries, message);
    if message in s.messageDeliveries {
      OpenIsNotDone(s, message);
    }
    forall y | y in next.messageDeliveries ensures y in had && (MessageDone(next, y) <==> y in completed + [message]) {
      TellOne(completed, message, y);
      CancelledOthers(s, team, message, y);
    }
    forall y | y in had ensures Times(completed + [message], y) <= 1 {
      TellOne(completed, message, y);
    }
  }

  lemma OpenIsNotDone(s: State, message: Id)
    requires RepInv(s) && message in s.messageDeliveries
    requires forall d :: d in ListOf(s.messageDeliveries, message) && d in s.deliveries ==> IsOpen(s.deliveries[d].status)
    ensures !MessageDone(s, message)
  {
    assert ColumnOk(s, ByMessage);
    var d := s.messageDeliveries[message][0];
    assert d in ListOf(s.messageDeliveries, message);
  }

  lemma CancelledOthers(s: State, team: Id, message: Id, y: Id)
    requires RepInv(s) && Cancel(s, team, message).Ok?
    ensures
      var next := Cancel(s, team, message).value;
      if y == message then MessageDone(next, y) else MessageDone(next, y) <==> MessageDone(s, y)
  {
    var next := Cancel(s, team, message).value;
    var ids := ListOf(s.messageDeliveries, y);
    forall d | d in ids ensures d in s.deliveries && (d in ListOf(s.messageDeliveries, message) <==> y == message) {
      ListedExists(s, d, y);
      NotListed(s, d, message);
    }
  }

  lemma ListedExists(s: State, d: Id, y: Id)
    requires RepInv(s) && d in ListOf(s.messageDeliveries, y)
    ensures d in s.deliveries && s.deliveries[d].message == y
  {
    assert ColumnOk(s, ByMessage);
    assert d in Owners(s.deliveries, ByMessage);
  }

  lemma DeleteTells(s: State, team: Id, completed: seq<Id>, had: set<Id>)
    requires RepInv(s) && Told(s, completed, had) && team in s.teams
    ensures Told(DeleteTeam(s, team).value, completed, had)
  {
    var next := DeleteTeam(s, team).value;
    forall y | y in next.messageDeliveries ensures MessageDone(next, y) <==> MessageDone(s, y) {
      forall d | d in ListOf(s.messageDeliveries, y) ensures d in s.deliveries && d !in Doomed(s, team) {
        ListedExists(s, d, y);
        DoomedByColumn(s, team);
      }
    }
  }

  /** Adding deliveries of one message touches no other message's list. */
  lemma {:induction false} AddDeliveriesLists(s: State, ds: seq<Delivery>, x: Id)
    requires forall i :: 0 <= i < |ds| ==> ds[i].message != x
    ensures ListOf(AddDeliveries(s, ds).messageDeliveries, x) == ListOf(s.messageDeliveries, x)
    ensures x in AddDeliveries(s, ds).messageDeliveries <==> x in s.messageDeliveries
  {
    if ds != [] {
      AddDeliveriesLists(s, ds[..|ds| - 1], x);
    }
  }

  lemma GrowthKeepsDone(s: State, next: State, ids: seq<Id>, x: Id)
    requires RepInv(s) && Grows(s, next, ids)
    requires ListOf(next.messageDeliveries, x) == ListOf(s.messageDeliveries, x)
    ensures MessageDone(next, x) <==> MessageDone(s, x)
  {
    forall d | d in ListOf(s.messageDeliveries, x) ensures d in s.deliveries && next.deliveries[d] == s.deliveries[d] {
      ListedExists(s, d, x);
    }
  }

  lemma FreshIsNotDone(s: State, next: State, ids: seq<Id>, message: Id)
    requires LinksOk(s) && message !in s.messages && RepInv(next) && Grows(s, next, ids) && message in next.messageDeliveries
    ensures !MessageDone(next, message)
  {
    var d := next.messageDeliveries[message][0] by {
      assert ColumnOk(next, ByMessage);
    }
    assert d in ListOf(next.messageDeliveries, message) by {
      assert ColumnOk(next, ByMessage);
    }
    ListedExists(next, d, message);
    assert forall x :: x in s.deliveries ==> s.deliveries[x].message != message;
    assert next.deliveries[d].status.Pending?;
  }

  lemma CreatedLists(s: State, team: Id, a: Admitted, message: Id, ids: seq<Id>, body: string, x: Id)
    requires CreateMessage(s, team, a, message, ids, body).Ok? && x != message
    ensures
      var next := CreateMessage(s, team, a, message, ids, body).value.0;
      && ListOf(next.messageDeliveries, x) == ListOf(s.messageDeliveries, x)
      && (x in next.messageDeliveries <==> x in s.messageDeliveries)
      && (x in next.messages <==> x in s.messages)
  {
    if CreateMessage(s, team, a, message, ids, body).value.1.created {
      var m := NewMessage(team, a, message, body);
      AddDeliveriesLists(AddMessage(s, m), NewDeliveries(m, ids), x);
      AddDeliveriesFrame(AddMessage(s, m), NewDeliveries(m, ids));
    }
  }

  /** A new message with deliveries is neither done nor announced. */
  lemma CreateTells(s: State, team: Id, a: Admitted, message: Id, ids: seq<Id>, body: string, completed: seq<Id>, had: set<Id>)
    requires RepInv(s) && Told(s, completed, had) && Fresh(s, message, ids) && Normal(a)
    requires CreateMessage(s, team, a, message, ids, body).Ok? && message !in had && message !in completed
    ensures
      var next := CreateMessage(s, team, a, message, ids, body).value.0;
      Told(next, completed, had + next.messageDeliveries.Keys)
  {
    var next := CreateMessage(s, team, a, message, ids, body).value.0;
    forall x | x in next.messageDeliveries ensures MessageDone(next, x) <==> x in completed {
      CreatedTold(s, team, a, message, ids, body, completed, had, x);
    }
    forall x | x in had + next.messageDeliveries.Keys
      ensures Times(completed, x) <= 1 && (x in next.messages ==> x in next.messageDeliveries)
    {
      CreatedHad(s, team, a, message, ids, body, completed, had, x);
    }
  }

  lemma CreatedTold(
      s: State, team: Id, a: Admitted, message: Id, ids: seq<Id>, body: string, completed: seq<Id>, had: set<Id>, x: Id)
    requires RepInv(s) && Told(s, completed, had) && Fresh(s, message, ids) && Normal(a)
    requires CreateMessage(s, team, a, message, ids, body).Ok? && message !in had && message !in completed
    requires x in CreateMessage(s, team, a, message, ids, body).value.0.messageDeliveries
    ensures MessageDone(CreateMessage(s, team, a, message, ids, body).value.0, x) <==> x in completed
  {
    hide CreateMessage, RepInv, MessageDone, Grows;
    var next := CreateMessage(s, team, a, message, ids, body).value.0;
    CreateMessageKeeps(s, team, a, message, ids, body);
    CreateGrows(s, team, a, message, ids, body);
    if x == message {
      LinksOf(s);
      FreshIsNotDone(s, next, ids, message);
    } else {
      CreatedLists(s, team, a, message, ids, body, x);
      GrowthKeepsDone(s, next, ids, x);
    }
  }

  lemma LinksOf(s: State)
    requires RepInv(s)
    ensures LinksOk(s)
  {
  }

  lemma CreatedHad(
      s: State, team: Id, a: Admitted, message: Id, ids: seq<Id>, body: string, completed: seq<Id>, had: set<Id>, x: Id)
    requires Told(s, completed, had) && message !in had && message !in completed
    requires CreateMessage(s, team, a, message, ids, body).Ok?
    requires x in had || x in CreateMessage(s, team, a, message, ids, body).value.0.messageDeliveries
    ensures
      var next := CreateMessage(s, team, a, message, ids, body).value.0;
      Times(completed, x) <= 1 && (x in next.messages ==> x in next.messageDeliveries)
  {
    hide CreateMessage;
    if x != message {
      CreatedLists(s, team, a, message, ids, body, x);
    } else {
      TellOne(completed, message, message);
    }
  }

  // ---- Whole runs ----

  lemma MessagesLeft(m: Machine, step: Step)
    requires LeavesDeliveries(step)
    ensures Take1(m, step).s.messages == m.s.messages && Take1(m, step).s.messageDeliveries == m.s.messageDeliveries
  {
    hide IsOldest;
  }

  lemma SameTold(s: State, next: State, completed: seq<Id>, had: set<Id>)
    requires Told(s, completed, had) && next.messages == s.messages
    requires next.deliveries == s.deliveries && next.messageDeliveries == s.messageDeliveries
    ensures Told(next, completed, had)
  {
    forall x ensures MessageDone(next, x) <==> MessageDone(s, x) {
    }
  }

  lemma HadGrows(s: State, completed: seq<Id>, had: set<Id>)
    requires Told(s, completed, had)
    ensures Told(s, completed, had + s.messageDeliveries.Keys)
  {
    assert had + s.messageDeliveries.Keys == had;
  }

  lemma CancelStep(m: Machine, step: Step, completed: seq<Id>, had: set<Id>)
    requires RepInv(m.s) && Told(m.s, completed, had) && step.CancelMessage?
    ensures
      var done := Cancel(m.s, step.team, step.message).Ok?;
      Told(Take1(m, step).s, if done then completed + [step.message] else completed, had)
  {
    hide RepInv, Told;
    if Cancel(m.s, step.team, step.message).Ok? {
      CancelTells(m.s, step.team, step.message, completed, had);
    }
  }

  lemma SectionTold(h: History, step: Step)
    requires Faithful(h) && IsCall(step) && !(step.Create? && step.message in h.used)
    ensures Told(Take1(h.m, step).s, Do(h, Section(step)).completed, Do(h, Section(step)).had)
  {
    var next := Take1(h.m, step).s;
    hide Told;
    if step.CancelMessage? {
      CancelStep(h.m, step, h.completed, h.had);
      HadGrows(next, Do(h, Section(step)).completed, h.had);
    } else if next == h.m.s {
      HadGrows(next, h.completed, h.had);
    } else if step.Create? {
      CreateTells(h.m.s, step.team, step.admitted, step.message, step.ids, step.body, h.completed, h.had);
    } else if step.Delete? {
      DeleteTells(h.m.s, step.team, h.completed, h.had);
      HadGrows(next, h.completed, h.had);
    } else {
      DeliveriesLeft(h.m, step);
      MessagesLeft(h.m, step);
      SameTold(h.m.s, next, h.completed, h.had);
      HadGrows(next, h.completed, h.had);
    }
  }

  /** Lists of deliveries belong to messages there are. */
  lemma ListedMessages(s: State, x: Id)
    requires RepInv(s) && x in s.messageDeliveries
    ensures x in s.messages
  {
    assert ColumnOk(s, ByMessage) && LinksOk(s);
    var d := s.messageDeliveries[x][0];
    ListedExists(s, d, x);
  }

  lemma DoFaithful(h: History, call: Call)
    requires Faithful(h)
    ensures Faithful(Do(h, call))
  {
    match call {
      case Section(step) =>
        if IsCall(step) && !(step.Create? && step.message in h.used) {
          StepKeepsRep(h.m, step);
          SectionTold(h, step);
          var next := Do(h, call);
          hide Told, Take1;
          forall x | x in next.had ensures x in next.used {
            if x !in h.had {
              ListedMessages(next.m.s, x);
            }
          }
        }
      case Attempt(id, trigger, env) =>
        InjectTells(World(h.m.s, h.completed), id, trigger, env, h.had);
        hide Told, Inject, RepInv;
    }
  }

  lemma {:induction false} RunsAreFaithful(h: History, calls: seq<Call>)
    requires Faithful(h)
    ensures Faithful(DoAll(h, calls))
  {
    if calls != [] {
      RunsAreFaithful(h, calls[..|calls| - 1]);
      DoFaithful(DoAll(h, calls[..|calls| - 1]), calls[|calls| - 1]);
    }
  }

  lemma HadStays(h: History, call: Call)
    ensures h.had <= Do(h, call).had
  {
  }

  lemma {:induction false} HadStaysAll(h: History, calls: seq<Call>)
    ensures h.had <= DoAll(h, calls).had
  {
    if calls != [] {
      HadStaysAll(h, calls[..|calls| - 1]);
      HadStays(DoAll(h, calls[..|calls| - 1]), calls[|calls| - 1]);
    }
  }

  /** A service without messages has announced what it should: nothing. */
  lemma NoMessagesIsFaithful(m: Machine)
    requires RepInv(m.s) && m.s.messages == map[]
    ensures Faithful(History(m, [], {}, {}))
  {
    forall x | x in m.s.messageDeliveries ensures false {
      ListedMessages(m.s, x);
    }
  }

  /**
  With calls taken one at a time and no retries, a message that has deliveries is announced complete
  exactly when all of them are terminal, and over the whole run, even past its team's deletion, at
  most once.
  */
  lemma CompletionIsAnnouncedOnce(h: History, earlier: seq<Call>, later: seq<Call>, x: Id)
    requires Faithful(h) && x in DoAll(h, earlier).m.s.messageDeliveries
    ensures x in DoAll(h, earlier).completed <==> MessageDone(DoAll(h, earlier).m.s, x)
    ensures Times(DoAll(DoAll(h, earlier), later).completed, x) <= 1
  {
    RunsAreFaithful(h, earlier);
    RunsAreFaithful(DoAll(h, earlier), later);
    HadStaysAll(DoAll(h, earlier), later);
  }

  /** A cancel reaches all of the message's deliveries or none, and the first only when all were open. */
  lemma CancelIsAllOrNothing(s: State, team: Id, message: Id, d: Id)
    requires RepInv(s) && message in s.messages && s.messages[message].team == team
    requires d in s.deliveries && s.deliveries[d].message == message
    ensures
      var open := forall x :: x in s.deliveries && s.deliveries[x].message == message ==> IsOpen(s.deliveries[x].status);
      && (Cancel(s, team, message).Ok? <==> open)
      && (open ==> Cancel(s, team, message).value.deliveries[d] == s.deliveries[d].(status := Cancelled))
  {
    forall x | x in s.deliveries
      ensures x in ListOf(s.messageDeliveries, message) <==> s.deliveries[x].message == message
    {
      NotListed(s, x, message);
    }
  }

  lemma EmptyCancel(s: State, team: Id, message: Id)
    requires message in s.messages && s.messages[message].team == team && message !in s.messageDeliveries
    ensures Cancel(s, team, message) == Ok(s)
  {
    assert CancelAll(s.deliveries, []) == s.deliveries;
  }

  lemma EmptyCancelStep(h: History, team: Id, message: Id)
    requires message in h.m.s.messages && h.m.s.messages[message].team == team && message !in h.m.s.messageDeliveries
    requires h.m.s.messages.Keys <= h.used && h.m.s.messageDeliveries.Keys <= h.had
    ensures Do(h, Section(CancelMessage(team, message))) == h.(completed := h.completed + [message])
  {
    EmptyCancel(h.m.s, team, message);
    assert Take1(h.m, CancelMessage(team, message)) == h.m;
    assert h.used + h.m.s.messages.Keys == h.used && h.had + h.m.s.messageDeliveries.Keys == h.had;
  }

  /** A message without deliveries is announced by every cancel. */
  lemma EmptyMessagesRepeat(h: History, team: Id, message: Id)
    requires Faithful(h) && message in h.m.s.messages && h.m.s.messages[message].team == team
    requires message !in h.m.s.messageDeliveries
    ensures
      var cancel := Section(CancelMessage(team, message));
      Do(Do(h, cancel), cancel).completed == h.completed + [message] + [message]
  {
    EmptyCancelStep(h, team, message);
    hide Take1, Do, RepInv;
    EmptyCancelStep(h.(completed := h.completed + [message]), team, message);
  }
}
