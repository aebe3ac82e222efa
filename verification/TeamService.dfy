/**
The team service as an object: the nine maps are fields that each call updates in place, in loops
where the service loops, and every call is tied to the function on states that specifies it.
*/
module TeamService {
  import opened Wrappers
  import opened Text
  import opened TeamIndex
  import opened TeamState
  import opened TeamHydration
  import opened Injection
  import opened DeliveryCalls
  import opened ResumePass
  import opened TeamPaging

  /** The state after a call that either succeeds or leaves everything alone. */
  function After(s: State, r: Result<State, Error>): State {
    if r.Ok? then r.value else s
  }

  function ErrorOf(r: Result<State, Error>): Option<Error> {
    if r.Ok? then None else Some(r.error)
  }

  /** Ids that a call requires are trimmed and must not be empty. */
  function Named(a: Id, b: Id, r: Result<State, Error>): Result<State, Error> {
    if Trim(a) == "" || Trim(b) == "" then Err(InvalidState) else r
  }

  /** Ask the session manager about each agent in turn. */
  method RequireActive(sessions: Sessions, agents: seq<Id>) returns (error: Option<Error>)
    ensures error == FirstUnavailable(sessions, agents)
  {
    error := None;
    var i := 0;
    while i < |agents| && error.None?
      invariant i <= |agents|
      invariant error.Or(FirstUnavailable(sessions, agents[i..])) == FirstUnavailable(sessions, agents)
    {
      error := Unavailable(sessions, agents[i]);
      assert agents[i..][1..] == agents[i + 1..];
      i := i + 1;
    }
  }

  /** Search the list for the cursor. */
  method PageStart(ids: seq<Id>, cursor: Option<Id>) returns (start: Option<nat>)
    ensures start == Start(ids, cursor) && (start.Some? ==> start.value <= |ids|)
  {
    var given := NonEmpty(cursor);
    if given.None? {
      return Some(0);
    }
    hide NonEmpty;
    PositionFits(ids, given.value);
    var i := 0;
    while i < |ids| && ids[i] != given.value
      invariant i <= |ids|
      invariant Position(ids, given.value)
             == if Position(ids[i..], given.value).None? then None
                else Some(Position(ids[i..], given.value).value + i)
    {
      assert ids[i..][1..] == ids[i + 1..];
      i := i + 1;
    }
    start := if i == |ids| then None else Some(i + 1);
  }

  /** Read the messages of a page. */
  method PageMessages(messages: map<Id, Message>, ids: seq<Id>, most: nat) returns (page: seq<Message>)
    ensures page == Present(messages, Upto(ids, most))
  {
    ghost var taken := Upto(ids, most);
    page := [];
    var i := 0;
    while i < most && i < |ids|
      invariant i <= |taken| && page == Present(messages, taken[..i])
    {
      if ids[i] in messages {
        page := page + [messages[ids[i]]];
      }
      assert taken[..i + 1][..i] == taken[..i] && taken[i] == ids[i];
      i := i + 1;
    }
    assert taken[..i] == taken;
  }

  /** The recipients of a send, trimmed, without repeats, each known to be available. */
  method ResolveRecipients(named: seq<Id>, sessions: Sessions) returns (r: Result<seq<Id>, Error>)
    ensures r == Recipients(named, sessions)
  {
    var recipients: seq<Id> := [];
    var i := 0;
    while i < |named|
      invariant i <= |named| && Recipients(named[..i], sessions) == Ok(recipients)
    {
      var next := Trim(named[i]);
      assert named[..i + 1][..i] == named[..i];
      if next == "" {
        RecipientsFail(named, sessions, i + 1);
        return Err(InvalidState);
      }
      if next !in recipients {
        var missing := Unavailable(sessions, next);
        if missing.Some? {
          RecipientsFail(named, sessions, i + 1);
          return Err(missing.value);
        }
        recipients := recipients + [next];
      }
      i := i + 1;
    }
    assert named[..i] == named;
    r := Ok(recipients);
  }

  /** An error stays the first one. */
  lemma {:induction false} RecipientsFail(named: seq<Id>, sessions: Sessions, k: nat)
    requires k <= |named| && Recipients(named[..k], sessions).Err?
    ensures Recipients(named, sessions) == Recipients(named[..k], sessions)
  {
    if k == |named| {
      assert named[..k] == named;
    } else {
      assert named[..|named| - 1][..k] == named[..k];
      RecipientsFail(named[..|named| - 1], sessions, k);
    }
  }

  /** The member table of a new team. */
  method MakeRoster(team: Id, lead: Id, agents: seq<Id>, now: int) returns (members: map<Id, Member>)
    ensures members == Roster(team, lead, agents, now)
  {
    members := map[lead := Member(team, lead, now)];
    var i := 0;
    while i < |agents|
      invariant i <= |agents|
      invariant members == Roster(team, lead, agents[..i], now)
    {
      if agents[i] != lead {
        members := members[agents[i] := Member(team, agents[i], now)];
      }
      i := i + 1;
    }
    assert agents[..i] == agents;
  }

  class RuntimeTeamCommsService {
    var teams: map<Id, TeamRecord>
    var membersByTeam: map<Id, map<Id, Member>>
    var messages: map<Id, Message>
    var deliveries: map<Id, Delivery>
    var teamMessageIds: map<Id, seq<Id>>
    var teamDeliveryIds: map<Id, seq<Id>>
    var messageDeliveryIds: map<Id, seq<Id>>
    var recipientDeliveryIds: map<Id, seq<Id>>
    var idempotencyIndex: map<string, Id>
    /** The messages announced as completed, in order. */
    var completed: seq<Id>

    function Snapshot(): State
      reads this
    {
      State(teams, membersByTeam, messages, deliveries, teamMessageIds, teamDeliveryIds, messageDeliveryIds,
            recipientDeliveryIds, idempotencyIndex)
    }

    function TheWorld(): World
      reads this
    {
      World(Snapshot(), completed)
    }

    /** Startup: the rows of the four tables, in their order, fill the maps. */
    constructor (rows: Rows)
      ensures Snapshot() == Hydrate(rows) && completed == []
    {
      teams, membersByTeam, messages, deliveries := map[], map[], map[], map[];
      teamMessageIds, teamDeliveryIds, messageDeliveryIds, recipientDeliveryIds := map[], map[], map[], map[];
      idempotencyIndex, completed := map[], [];
      new;
      LoadTeamRows(rows.teams);
      LoadMemberRows(rows.members);
      LoadMessageRows(rows.messages);
      LoadDeliveryRows(rows.deliveries);
    }

    method LoadTeamRows(rows: seq<TeamRow>)
      modifies this`teams
      ensures Snapshot() == LoadTeams(old(Snapshot()), rows)
    {
      var i := 0;
      while i < |rows|
        invariant i <= |rows|
        invariant Snapshot() == LoadTeams(old(Snapshot()), rows[..i])
      {
        if !rows[i].deleted {
          teams := teams[rows[i].team.id := rows[i].team];
        }
        assert rows[..i + 1][..i] == rows[..i];
        i := i + 1;
      }
      assert rows[..i] == rows;
    }

    method LoadMemberRows(rows: seq<Member>)
      modifies this`membersByTeam
      ensures Snapshot() == LoadMembers(old(Snapshot()), rows)
    {
      var i := 0;
      while i < |rows|
        invariant i <= |rows|
        invariant Snapshot() == LoadMembers(old(Snapshot()), rows[..i])
      {
        if rows[i].team in teams {
          var known := if rows[i].team in membersByTeam then membersByTeam[rows[i].team] else map[];
          membersByTeam := membersByTeam[rows[i].team := known[rows[i].agent := rows[i]]];
        }
        assert rows[..i + 1][..i] == rows[..i];
        i := i + 1;
      }
      assert rows[..i] == rows;
    }

    method LoadMessageRows(rows: seq<Message>)
      modifies this
      ensures Snapshot() == LoadMessages(old(Snapshot()), rows) && completed == old(completed)
    {
      var i := 0;
      while i < |rows|
        invariant i <= |rows| && completed == old(completed)
        invariant Snapshot() == LoadMessages(old(Snapshot()), rows[..i])
      {
        if rows[i].team in teams {
          InsertMessage(rows[i]);
        }
        assert rows[..i + 1][..i] == rows[..i];
        i := i + 1;
      }
      assert rows[..i] == rows;
    }

    method LoadDeliveryRows(rows: seq<Delivery>)
      modifies this
      ensures Snapshot() == LoadDeliveries(old(Snapshot()), rows) && completed == old(completed)
    {
      var i := 0;
      while i < |rows|
        invariant i <= |rows| && completed == old(completed)
        invariant Snapshot() == LoadDeliveries(old(Snapshot()), rows[..i])
      {
        if rows[i].team in teams && rows[i].message in messages {
          InsertDelivery(rows[i]);
        }
        assert rows[..i + 1][..i] == rows[..i];
        i := i + 1;
      }
      assert rows[..i] == rows;
    }

    method InsertMessage(message: Message)
      modifies this
      ensures Snapshot() == AddMessage(old(Snapshot()), message) && completed == old(completed)
    {
      var key := NonEmpty(message.key);
      if key.Some? {
        idempotencyIndex := idempotencyIndex[IdempotencyKey(message.team, message.sender, message.scope, key.value) := message.id];
      }
      teamMessageIds := Push(teamMessageIds, message.team, message.id);
      messages := messages[message.id := message];
    }

    method InsertDelivery(delivery: Delivery)
      modifies this
      ensures Snapshot() == AddDelivery(old(Snapshot()), delivery) && completed == old(completed)
    {
      deliveries := deliveries[delivery.id := delivery];
      teamDeliveryIds := Push(teamDeliveryIds, delivery.team, delivery.id);
      messageDeliveryIds := Push(messageDeliveryIds, delivery.message, delivery.id);
      recipientDeliveryIds := Push(recipientDeliveryIds, delivery.recipient, delivery.id);
    }

    // ---- Teams ----

    method CreateTeam(team: Id, name: string, lead: Id, agents: seq<Id>, sessions: Sessions, now: int)
      returns (error: Option<Error>)
      modifies this`teams, this`membersByTeam
      ensures
        var r := TeamState.CreateTeam(old(Snapshot()), team, name, lead, agents, sessions, now);
        Snapshot() == After(old(Snapshot()), r) && error == ErrorOf(r)
    {
      var leadAgent := Trim(lead);
      if Trim(name) == "" || leadAgent == "" {
        return Some(InvalidState);
      }
      error := RequireActive(sessions, [leadAgent] + agents);
      if error.Some? {
        return;
      }
      var members := MakeRoster(team, leadAgent, agents, now);
      teams := teams[team := TeamRecord(team, leadAgent, now)];
      membersByTeam := membersByTeam[team := members];
    }

    method JoinTeam(teamId: Id, agentId: Id, sessions: Sessions, now: int) returns (error: Option<Error>)
      modifies this`teams, this`membersByTeam
      ensures
        var r := TeamState.JoinTeam(old(Snapshot()), Trim(teamId), Trim(agentId), sessions, now);
        Snapshot() == After(old(Snapshot()), r) && error == ErrorOf(r)
    {
      var team, agent := Trim(teamId), Trim(agentId);
      if team == "" || agent == "" {
        return Some(InvalidState);
      }
      error := Unavailable(sessions, agent);
      if error.Some? {
        return;
      }
      if team !in teams {
        return Some(NotFound);
      }
      var members := if team in membersByTeam then membersByTeam[team] else map[];
      if agent in members {
        return Some(InvalidState);
      }
      membersByTeam := membersByTeam[team := members[agent := Member(team, agent, now)]];
      teams := teams[team := teams[team].(updatedAt := now)];
      error := None;
    }

    /** The member who joined first, the smaller id among those who joined at the same time. */
    method Oldest(members: map<Id, Member>) returns (oldest: Id)
      requires members != map[] && forall a :: a in members ==> members[a].agent == a
      ensures IsOldest(members, oldest)
    {
      oldest :| oldest in members;
      var left := members.Keys - {oldest};
      SeniorToSelf(members[oldest]);
      while left != {}
        invariant left <= members.Keys && oldest in members.Keys - left
        invariant forall a :: a in members && a !in left ==> Senior(members[oldest], members[a])
        decreases left
      {
        var next :| next in left;
        left := left - {next};
        if !Senior(members[oldest], members[next]) {
          forall a | a in members && a !in left ensures Senior(members[next], members[a]) {
            SeniorFollows(members[next], members[oldest], members[a]);
          }
          oldest := next;
        }
      }
    }

    method RemoveTeamMember(teamId: Id, agentId: Id, now: int) returns (error: Option<Error>, heir: Id)
      requires RepInv(Snapshot())
      modifies this`teams, this`membersByTeam
      ensures
        var r := Named(teamId, agentId, RemoveMember(old(Snapshot()), Trim(teamId), Trim(agentId), heir, now));
        && Snapshot() == After(old(Snapshot()), r) && error == ErrorOf(r)
        && (r.Ok? ==> IsOldest(old(membersByTeam)[Trim(teamId)] - {Trim(agentId)}, heir))
    {
      var team, agent := Trim(teamId), Trim(agentId);
      heir := "";
      if team == "" || agent == "" {
        return Some(InvalidState), heir;
      }
      if team !in teams || team !in membersByTeam || agent !in membersByTeam[team] {
        return Some(NotFound), heir;
      }
      if |membersByTeam[team]| <= 1 {
        return Some(InvalidState), heir;
      }
      var members := membersByTeam[team] - {agent};
      assert |members.Keys| == |membersByTeam[team].Keys| - 1 by {
        assert members.Keys == membersByTeam[team].Keys - {agent};
      }
      heir := Oldest(members);
      membersByTeam := membersByTeam[team := members];
      var lead := if teams[team].lead == agent then heir else teams[team].lead;
      teams := teams[team := teams[team].(lead := lead, updatedAt := now)];
      error := None;
    }

    method SetTeamLead(teamId: Id, agentId: Id, now: int) returns (error: Option<Error>)
      modifies this`teams
      ensures
        var r := SetLead(old(Snapshot()), Trim(teamId), Trim(agentId), now);
        Snapshot() == After(old(Snapshot()), r) && error == ErrorOf(r)
    {
      var team, agent := Trim(teamId), Trim(agentId);
      if team !in membersByTeam || agent !in membersByTeam[team] {
        return Some(InvalidState);
      }
      if team !in teams {
        return Some(NotFound);
      }
      if teams[team].lead != agent {
        teams := teams[team := teams[team].(lead := agent, updatedAt := now)];
      }
      error := None;
    }

    // ---- Messages ----

    /** The current records of some deliveries, in the order asked for. */
    method Lookup(ids: seq<Id>) returns (found: seq<Delivery>)
      ensures found == Resolve(deliveries, ids)
    {
      found := [];
      var i := 0;
      while i < |ids|
        invariant i <= |ids| && found == Resolve(deliveries, ids[..i])
      {
        if ids[i] in deliveries {
          found := found + [deliveries[ids[i]]];
        }
        assert ids[..i + 1][..i] == ids[..i];
        i := i + 1;
      }
      assert ids[..i] == ids;
    }

    method InsertDeliveries(created: seq<Delivery>)
      modifies this
      ensures Snapshot() == AddDeliveries(old(Snapshot()), created) && completed == old(completed)
    {
      var i := 0;
      while i < |created|
        invariant i <= |created| && completed == old(completed)
        invariant Snapshot() == AddDeliveries(old(Snapshot()), created[..i])
      {
        InsertDelivery(created[i]);
        assert created[..i + 1][..i] == created[..i];
        i := i + 1;
      }
      assert created[..i] == created;
    }

    /** The locked section of a send; the ids are the next ones of the two counters. */
    method CreateMessage(team: Id, a: Admitted, messageId: Id, deliveryIds: seq<Id>, body: string)
      returns (ack: Result<Ack, Error>)
      requires |deliveryIds| == |a.recipients| && NonEmpty(a.key) == a.key
      modifies this
      ensures
        var r := TeamState.CreateMessage(old(Snapshot()), team, a, messageId, deliveryIds, body);
        && Snapshot() == (if r.Ok? then r.value.0 else old(Snapshot())) && completed == old(completed)
        && ack == (if r.Ok? then Ok(r.value.1) else Err(r.error))
    {
      if team !in teams {
        return Err(NotFound);
      }
      var members := if team in membersByTeam then membersByTeam[team] else map[];
      if a.sender !in members {
        return Err(InvalidState);
      }
      var i := 0;
      while i < |a.recipients|
        invariant i <= |a.recipients| && Snapshot() == old(Snapshot()) && completed == old(completed)
        invariant forall j :: 0 <= j < i ==> a.recipients[j] in members
      {
        if a.recipients[i] !in members {
          return Err(InvalidState);
        }
        i := i + 1;
      }
      if a.key.Some? {
        var key := IdempotencyKey(team, a.sender, a.scope, a.key.value);
        if key in idempotencyIndex && idempotencyIndex[key] in messages {
          var existing := idempotencyIndex[key];
          var ids := if existing in messageDeliveryIds then messageDeliveryIds[existing] else [];
          var found := Lookup(ids);
          return Ok(Ack(messages[existing], found, false));
        }
      }
      var message := NewMessage(team, a, messageId, body);
      var created := NewDeliveries(message, deliveryIds);
      InsertMessage(message);
      InsertDeliveries(created);
      ack := Ok(Ack(message, created, true));
    }

    // ---- Deliveries ----

    method FindRecipientQueueBlocker(delivery: Delivery) returns (blocker: Option<Id>)
      ensures blocker == Blocker(Snapshot(), delivery)
    {
      var ids := if delivery.recipient in recipientDeliveryIds then recipientDeliveryIds[delivery.recipient] else [];
      var i := 0;
      while i < |ids| && ids[i] != delivery.id
        invariant i <= |ids|
        invariant FirstOpen(ids[i..], delivery.id, deliveries) == FirstOpen(ids, delivery.id, deliveries)
      {
        if ids[i] in deliveries && !IsTerminal(deliveries[ids[i]].status) {
          return Some(ids[i]);
        }
        assert ids[i..][1..] == ids[i + 1..];
        i := i + 1;
      }
      blocker := None;
    }

    method MessageTerminalState(message: Id) returns (done: bool)
      ensures done == MessageDone(Snapshot(), message)
    {
      if message !in messageDeliveryIds {
        return true;
      }
      var ids := messageDeliveryIds[message];
      done := true;
      var i := 0;
      while i < |ids|
        invariant i <= |ids|
        invariant done == forall j :: 0 <= j < i ==> ids[j] in deliveries && IsTerminal(deliveries[ids[j]].status)
      {
        done := done && ids[i] in deliveries && IsTerminal(deliveries[ids[i]].status);
        i := i + 1;
      }
    }

    method TransitionDeliveryStatus(
        current: Delivery, next: Status, strategy: Option<string>, code: Option<string>)
      returns (r: Result<Delivery, Error>)
      modifies this`deliveries, this`completed
      ensures (TheWorld(), r) == MoveTo(old(TheWorld()), current, next, strategy, code)
    {
      if !IsValidTransition(current.status, next) {
        return if current.status == next then Ok(current) else Err(InvalidState);
      }
      if current.id !in deliveries {
        return Err(NotFound);
      }
      var delivery := deliveries[current.id];
      if delivery.status != current.status {
        return Ok(delivery);
      }
      delivery := delivery.(status := next);
      if strategy.Some? {
        delivery := delivery.(strategy := strategy);
      }
      delivery := delivery.(errorCode := if next.Failed? then code else None);
      if !next.Injected? {
        delivery := delivery.(turn := None);
      }
      deliveries := deliveries[current.id := delivery];
      hide MessageDone;
      var done := MessageTerminalState(current.message);
      if done {
        completed := completed + [current.message];
      }
      r := Ok(delivery);
    }

    method TransitionDeliveryWithTurnId(id: Id, turn: Id)
      modifies this`deliveries
      ensures Snapshot() == Stamp(old(Snapshot()), id, turn)
    {
      if id in deliveries {
        deliveries := deliveries[id := deliveries[id].(turn := Some(turn))];
      }
    }

    /** From the claim on. */
    method SendAndSettle(delivery: Delivery, answer: SendAnswer) returns (r: Result<Delivery, Error>)
      modifies this`deliveries, this`completed
      ensures (TheWorld(), r) == ClaimAndSend(old(TheWorld()), delivery, answer)
    {
      hide MoveTo, Stamp;
      var injecting := TransitionDeliveryStatus(delivery, Injecting, None, None);
      if injecting.Err? {
        return injecting;
      }
      match answer {
        case Accepted(turn) =>
          r := TransitionDeliveryStatus(injecting.value, Injected, Some("runtime_send_turn"), None);
          if r.Ok? {
            TransitionDeliveryWithTurnId(r.value.id, turn);
          }
        case OwnershipRejected =>
          r := TransitionDeliveryStatus(injecting.value, Deferred, None, Some("turn_ownership_rejected"));
        case ProviderRejected =>
          r := TransitionDeliveryStatus(injecting.value, Failed, None, Some("provider_rejected"));
      }
    }

    method InjectDelivery(id: Id, trigger: Trigger, env: Env) returns (r: Result<Delivery, Error>)
      modifies this`deliveries, this`completed
      ensures (TheWorld(), r) == Inject(old(TheWorld()), id, trigger, env)
    {
      hide MoveTo, ClaimAndSend, Blocker;
      if id !in deliveries {
        return Err(NotFound);
      }
      var delivery := deliveries[id];
      if delivery.message !in messages {
        return Err(InvalidState);
      }
      if !IsOpen(delivery.status) {
        return Ok(delivery);
      }
      var blocker := FindRecipientQueueBlocker(delivery);
      if blocker.Some? {
        if delivery.status.Pending? {
          r := TransitionDeliveryStatus(delivery, Deferred, None, None);
        } else {
          r := Ok(delivery);
        }
        return;
      }
      match Decide(delivery, messages[delivery.message], trigger, env) {
        case Stop => r := Err(InvalidState);
        case Move(next, code) => r := TransitionDeliveryStatus(delivery, next, None, code);
        case Proceed => r := SendAndSettle(delivery, env.send);
      }
    }

    method DeferredOf(recipient: Id) returns (ids: seq<Id>)
      ensures ids == DeferredIds(deliveries, QueueOf(Snapshot(), recipient))
    {
      hide DeferredIds;
      var queue := if recipient in recipientDeliveryIds then recipientDeliveryIds[recipient] else [];
      ids := [];
      NoneDeferred(deliveries);
      var i := 0;
      while i < |queue|
        invariant i <= |queue|
        invariant ids + DeferredIds(deliveries, queue[i..]) == DeferredIds(deliveries, queue)
      {
        DeferredNext(deliveries, queue, i, ids);
        if queue[i] in deliveries && deliveries[queue[i]].status.Deferred? {
          ids := ids + [queue[i]];
        }
        i := i + 1;
      }
      assert queue[i..] == [];
    }

    method ResumeDeferredForRecipient(recipient: Id, trigger: Trigger, envs: seq<Env>)
      requires |envs| == |DeferredIds(deliveries, QueueOf(Snapshot(), recipient))|
      modifies this`deliveries, this`completed
      ensures TheWorld() == Resume(old(TheWorld()), recipient, trigger, envs)
    {
      hide Inject;
      var ids := DeferredOf(recipient);
      ghost var start := TheWorld();
      var i := 0;
      while i < |ids|
        invariant i <= |ids|
        invariant Pass(TheWorld(), ids[i..], trigger, envs[i..]) == Pass(start, ids, trigger, envs)
      {
        assert ids[i..][1..] == ids[i + 1..] && envs[i..][1..] == envs[i + 1..];
        var _ := InjectDelivery(ids[i], trigger, envs[i]);
        i := i + 1;
      }
    }

    /** Put a failed or deferred delivery back, then try it. */
    method RetryDelivery(teamId: Id, deliveryId: Id, env: Env) returns (r: Result<Delivery, Error>)
      modifies this`deliveries, this`completed
      ensures
        var retried := Named(teamId, deliveryId, Retry(old(Snapshot()), Trim(teamId), Trim(deliveryId)));
        (TheWorld(), r) == if retried.Err? then (old(TheWorld()), Err(retried.error))
                           else Inject(World(retried.value, old(completed)), Trim(deliveryId), Retried, env)
    {
      hide Inject;
      var team, id := Trim(teamId), Trim(deliveryId);
      if team == "" || id == "" {
        return Err(InvalidState);
      }
      if id !in deliveries {
        return Err(NotFound);
      }
      var delivery := deliveries[id];
      if delivery.team != team || !(delivery.status.Failed? || delivery.status.Deferred?) {
        return Err(InvalidState);
      }
      deliveries := deliveries[id := delivery.(status := Pending, strategy := None, turn := None, errorCode := None)];
      r := InjectDelivery(id, Retried, env);
    }

    /** Check every delivery of the message, then cancel every one. */
    method CancelMessage(teamId: Id, messageId: Id) returns (error: Option<Error>)
      modifies this`deliveries, this`completed
      ensures
        var r := Named(teamId, messageId, Cancel(old(Snapshot()), Trim(teamId), Trim(messageId)));
        && Snapshot() == After(old(Snapshot()), r) && error == ErrorOf(r)
        && completed == if r.Ok? then old(completed) + [Trim(messageId)] else old(completed)
    {
      var team, message := Trim(teamId), Trim(messageId);
      if team == "" || message == "" {
        return Some(InvalidState);
      }
      if message !in messages {
        return Some(NotFound);
      }
      if messages[message].team != team {
        return Some(InvalidState);
      }
      var ids := if message in messageDeliveryIds then messageDeliveryIds[message] else [];
      var open := AllOpen(ids);
      if !open {
        return Some(InvalidState);
      }
      CancelThese(ids);
      completed := completed + [message];
      error := None;
    }

    method AllOpen(ids: seq<Id>) returns (open: bool)
      ensures open <==> !exists d :: d in ids && d in deliveries && !IsOpen(deliveries[d].status)
    {
      var i := 0;
      while i < |ids|
        invariant i <= |ids|
        invariant forall j :: 0 <= j < i && ids[j] in deliveries ==> IsOpen(deliveries[ids[j]].status)
      {
        if ids[i] in deliveries && !IsOpen(deliveries[ids[i]].status) {
          return false;
        }
        i := i + 1;
      }
      open := true;
    }

    method CancelThese(ids: seq<Id>)
      modifies this`deliveries
      ensures deliveries == CancelAll(old(deliveries), ids)
    {
      var i := 0;
      while i < |ids|
        invariant i <= |ids| && deliveries == CancelAll(old(deliveries), ids[..i])
      {
        if ids[i] in deliveries {
          deliveries := deliveries[ids[i] := deliveries[ids[i]].(status := Cancelled)];
        }
        i := i + 1;
      }
      assert ids[..i] == ids;
    }

    // ---- Reading a team's messages ----

    method ListMessages(teamId: Id, cursor: Option<Id>, limit: Option<nat>) returns (r: Result<Page, Error>)
      ensures r == if Trim(teamId) == "" then Err(InvalidState) else PageOf(Snapshot(), Trim(teamId), cursor, limit)
    {
      var team := Trim(teamId);
      if team == "" {
        return Err(InvalidState);
      }
      var ids := if team in teamMessageIds then teamMessageIds[team] else [];
      var start := PageStart(ids, cursor);
      if start.None? {
        return Err(InvalidState);
      }
      hide Start, Present, Upto, Clamp;
      var page := PageMessages(messages, ids[start.value..], Clamp(limit));
      var next := if |ids| - start.value > |page| && page != [] then Some(page[|page| - 1].id) else None;
      r := Ok(Page(page, next));
    }

    // ---- Deleting a team ----

    /** Take out the messages, and the index entries of those that have a key. */
    method RemoveMessages(ids: seq<Id>)
      modifies this`messages, this`idempotencyIndex
      ensures messages == old(messages) - Ids(ids)
      ensures idempotencyIndex == old(idempotencyIndex) - KeysOf(old(messages), ids)
    {
      var i := 0;
      while i < |ids|
        invariant i <= |ids| && messages == old(messages) - Ids(ids[..i])
        invariant idempotencyIndex == old(idempotencyIndex) - KeysOf(old(messages), ids[..i])
      {
        KeysOfNext(old(messages), ids, i);
        if ids[i] in messages {
          var message := messages[ids[i]];
          messages := messages - {ids[i]};
          var key := NonEmpty(message.key);
          if key.Some? {
            idempotencyIndex := idempotencyIndex - {IdempotencyKey(message.team, message.sender, message.scope, key.value)};
          }
        }
        i := i + 1;
      }
      assert ids[..i] == ids;
    }

    /** The deliveries listed under the team or one of its messages, whose lists go. */
    method CollectDeliveries(teamList: seq<Id>, messageIds: seq<Id>) returns (removed: set<Id>)
      modifies this`messageDeliveryIds
      ensures messageDeliveryIds == old(messageDeliveryIds) - Ids(messageIds)
      ensures removed == Ids(teamList) + ListedUnder(old(messageDeliveryIds), messageIds)
    {
      removed := ToSet(teamList);
      hide ListedUnder, Ids;
      NothingListedUnder(messageDeliveryIds);
      var i := 0;
      while i < |messageIds|
        invariant i <= |messageIds| && messageDeliveryIds == old(messageDeliveryIds) - Ids(messageIds[..i])
        invariant removed == Ids(teamList) + ListedUnder(old(messageDeliveryIds), messageIds[..i])
      {
        ListedUnderNext(old(messageDeliveryIds), messageIds, i);
        var listed := if messageIds[i] in messageDeliveryIds then messageDeliveryIds[messageIds[i]] else [];
        messageDeliveryIds := messageDeliveryIds - {messageIds[i]};
        var more := ToSet(listed);
        AlreadyListed(old(messageDeliveryIds), messageIds, i);
        removed := removed + more;
        i := i + 1;
      }
      assert messageIds[..i] == messageIds;
    }

    /** Take the deliveries out of the map and out of their recipients' queues; what was open counts as cancelled. */
    method RemoveDeliveries(removed: set<Id>) returns (cancelled: map<Id, Delivery>)
      requires Indexes(recipientDeliveryIds, Owners(deliveries, ByRecipient))
      modifies this`deliveries, this`recipientDeliveryIds
      ensures deliveries == old(deliveries) - removed
      ensures recipientDeliveryIds == Without(old(recipientDeliveryIds), removed)
      ensures cancelled == CancelledAmong(old(deliveries), removed)
    {
      cancelled := map[];
      var left := removed;
      WithoutNothing(recipientDeliveryIds);
      hide Indexes, Without, RemoveFrom, Owners, CancelledAmong;
      assert removed - left == {};
      NoneCancelled(deliveries);
      while left != {}
        invariant left <= removed && deliveries == old(deliveries) - (removed - left)
        invariant recipientDeliveryIds == Without(old(recipientDeliveryIds), removed - left)
        invariant cancelled == CancelledAmong(old(deliveries), removed - left)
        decreases left
      {
        var id :| id in left;
        assert removed - (left - {id}) == (removed - left) + {id};
        RemoveOne(old(recipientDeliveryIds), old(deliveries), removed - left, id);
        CancelOne(old(deliveries), removed - left, id);
        if id in deliveries {
          var delivery := deliveries[id];
          deliveries := deliveries - {id};
          recipientDeliveryIds := RemoveFrom(recipientDeliveryIds, delivery.recipient, id);
          if IsOpen(delivery.status) {
            cancelled := cancelled[id := delivery.(status := Cancelled)];
          }
        }
        left := left - {id};
      }
      assert removed - left == removed;
    }

    method DeleteTeam(teamId: Id) returns (error: Option<Error>, cancelled: map<Id, Delivery>)
      requires RepInv(Snapshot())
      modifies this
      ensures
        var r := Named(teamId, teamId, TeamState.DeleteTeam(old(Snapshot()), Trim(teamId)));
        && Snapshot() == After(old(Snapshot()), r) && error == ErrorOf(r) && completed == old(completed)
        && cancelled == (if r.Ok? then CancelledAmong(old(deliveries), Doomed(old(Snapshot()), Trim(teamId))) else map[])
    {
      hide CancelledAmong, Doomed, Trim;
      var team := Trim(teamId);
      cancelled := map[];
      if team == "" {
        return Some(InvalidState), cancelled;
      }
      if team !in teams {
        return Some(NotFound), cancelled;
      }
      ReadyToRemove(Snapshot());
      hide RepInv;
      cancelled := TakeOut(team);
      error := None;
    }

    method TakeDeliveries(teamList: seq<Id>, messageIds: seq<Id>) returns (cancelled: map<Id, Delivery>)
      requires Indexes(recipientDeliveryIds, Owners(deliveries, ByRecipient))
      modifies this`messageDeliveryIds, this`deliveries, this`recipientDeliveryIds
      ensures
        var removed := Ids(teamList) + ListedUnder(old(messageDeliveryIds), messageIds);
        && messageDeliveryIds == old(messageDeliveryIds) - Ids(messageIds)
        && deliveries == old(deliveries) - removed
        && recipientDeliveryIds == Without(old(recipientDeliveryIds), removed)
        && cancelled == CancelledAmong(old(deliveries), removed)
    {
      hide Without, Indexes, Owners, CancelledAmong, ListedUnder, Ids;
      var removed := CollectDeliveries(teamList, messageIds);
      cancelled := RemoveDeliveries(removed);
    }

    /** Take out the team's own entries, and return its two id lists. */
    method DropTeam(team: Id) returns (messageIds: seq<Id>, listed: seq<Id>)
      modifies this`teams, this`membersByTeam, this`teamMessageIds, this`teamDeliveryIds
      ensures teams == old(teams) - {team} && membersByTeam == old(membersByTeam) - {team}
      ensures teamMessageIds == old(teamMessageIds) - {team} && teamDeliveryIds == old(teamDeliveryIds) - {team}
      ensures messageIds == ListOf(old(teamMessageIds), team) && listed == ListOf(old(teamDeliveryIds), team)
    {
      teams := teams - {team};
      membersByTeam := membersByTeam - {team};
      messageIds := if team in teamMessageIds then teamMessageIds[team] else [];
      listed := if team in teamDeliveryIds then teamDeliveryIds[team] else [];
      teamMessageIds := teamMessageIds - {team};
      teamDeliveryIds := teamDeliveryIds - {team};
    }

    method TakeOut(team: Id) returns (cancelled: map<Id, Delivery>)
      requires team in teams && Indexes(recipientDeliveryIds, Owners(deliveries, ByRecipient))
      modifies this
      ensures Snapshot() == TeamState.DeleteTeam(old(Snapshot()), team).value && completed == old(completed)
      ensures cancelled == CancelledAmong(old(deliveries), Doomed(old(Snapshot()), team))
    {
      hide Without, Indexes, Owners, CancelledAmong, PurgePrefix, Doomed, KeysOf, ListedUnder, Ids;
      hide TeamState.DeleteTeam;
      hide ListOf;
      var messageIds, listed := DropTeam(team);
      RemoveMessages(messageIds);
      cancelled := TakeDeliveries(listed, messageIds);
      idempotencyIndex := PurgePrefix(idempotencyIndex, team + "|");
      DeletedIs(old(Snapshot()), team, messageIds, listed);
    }
  }

  lemma DeferredNext(deliveries: map<Id, Delivery>, queue: seq<Id>, i: nat, ids: seq<Id>)
    requires i < |queue|
    ensures
      var more := if queue[i] in deliveries && deliveries[queue[i]].status.Deferred? then [queue[i]] else [];
      ids + more + DeferredIds(deliveries, queue[i + 1..]) == ids + DeferredIds(deliveries, queue[i..])
  {
    assert queue[i..][1..] == queue[i + 1..];
  }

  lemma NoneDeferred(deliveries: map<Id, Delivery>)
    ensures DeferredIds(deliveries, []) == []
  {
  }

  function Ids(ids: seq<Id>): set<Id> {
    set x | x in ids
  }

  function KeysOf(messages: map<Id, Message>, ids: seq<Id>): set<string> {
    set m | m in ids && m in messages && MessageKey(messages[m]).Some? :: MessageKey(messages[m]).value
  }

  lemma KeysOfNext(messages: map<Id, Message>, ids: seq<Id>, i: nat)
    requires i < |ids|
    ensures Ids(ids[..i + 1]) == Ids(ids[..i]) + {ids[i]}
    ensures KeysOf(messages, ids[..i + 1])
         == KeysOf(messages, ids[..i])
            + if ids[i] in messages && MessageKey(messages[ids[i]]).Some? then {MessageKey(messages[ids[i]]).value} else {}
  {
    assert ids[..i + 1] == ids[..i] + [ids[i]];
  }

  /** A list of ids as a set. */
  method ToSet(ids: seq<Id>) returns (all: set<Id>)
    ensures all == Ids(ids)
  {
    all := {};
    var i := 0;
    while i < |ids|
      invariant i <= |ids| && all == Ids(ids[..i])
    {
      all := all + {ids[i]};
      i := i + 1;
    }
    assert ids[..i] == ids;
  }

  lemma NothingListedUnder(lists: map<Id, seq<Id>>)
    ensures ListedUnder(lists, []) == {} && Ids([]) == {}
  {
  }

  /** A message named before has had its list taken. */
  lemma AlreadyListed(lists: map<Id, seq<Id>>, ids: seq<Id>, i: nat)
    requires i < |ids|
    ensures
      var left := lists - Ids(ids[..i]);
      ListedUnder(lists, ids[..i]) + Ids(ListOf(left, ids[i])) == ListedUnder(lists, ids[..i]) + Ids(ListOf(lists, ids[i]))
  {
  }

  function ListedUnder(lists: map<Id, seq<Id>>, ids: seq<Id>): set<Id> {
    set m, d | m in ids && d in ListOf(lists, m) :: d
  }

  lemma ListedUnderNext(lists: map<Id, seq<Id>>, ids: seq<Id>, i: nat)
    requires i < |ids|
    ensures Ids(ids[..i + 1]) == Ids(ids[..i]) + {ids[i]}
    ensures ListedUnder(lists, ids[..i + 1]) == ListedUnder(lists, ids[..i]) + Ids(ListOf(lists, ids[i]))
  {
    assert ids[..i + 1] == ids[..i] + [ids[i]];
  }

  /** The state a delete leaves, in terms of the two lists it starts from. */
  lemma DeletedIs(s: State, team: Id, messageIds: seq<Id>, listed: seq<Id>)
    requires team in s.teams && messageIds == ListOf(s.teamMessages, team) && listed == ListOf(s.teamDeliveries, team)
    ensures
      var removed := Ids(listed) + ListedUnder(s.messageDeliveries, messageIds);
      && Doomed(s, team) == removed
      && TeamState.DeleteTeam(s, team) == Ok(State(
           s.teams - {team}, s.members - {team}, s.messages - Ids(messageIds), s.deliveries - removed,
           s.teamMessages - {team}, s.teamDeliveries - {team}, s.messageDeliveries - Ids(messageIds),
           Without(s.recipientDeliveries, removed),
           PurgePrefix(s.idempotency - KeysOf(s.messages, messageIds), team + "|")))
  {
    DoomedIs(s, team);
    hide Doomed, DoomedKeys, TeamMessageSet, Ids, ListedUnder, KeysOf, Without, PurgePrefix;
  }

  lemma DoomedIs(s: State, team: Id)
    ensures Doomed(s, team) == Ids(ListOf(s.teamDeliveries, team)) + ListedUnder(s.messageDeliveries, ListOf(s.teamMessages, team))
    ensures DoomedKeys(s, team) == KeysOf(s.messages, ListOf(s.teamMessages, team))
    ensures TeamMessageSet(s, team) == Ids(ListOf(s.teamMessages, team))
  {
  }

  function CancelledAmong(deliveries: map<Id, Delivery>, removed: set<Id>): map<Id, Delivery> {
    map d | d in deliveries && d in removed && IsOpen(deliveries[d].status) :: deliveries[d].(status := Cancelled)
  }

  /** `remove_delivery_from_recipient_index`. */
  function RemoveFrom(index: map<Id, seq<Id>>, recipient: Id, id: Id): map<Id, seq<Id>> {
    if recipient !in index then index
    else if Retain(index[recipient], {id}) == [] then index - {recipient}
    else index[recipient := Retain(index[recipient], {id})]
  }

  lemma WithoutNothing(index: map<Id, seq<Id>>)
    requires forall k :: k in index ==> index[k] != []
    ensures Without(index, {}) == index
  {
    forall k | k in index ensures Retain(index[k], {}) == index[k] {
      RetainNothing(index[k], {});
    }
  }

  /** Taking out one id more changes only its owner's list. */
  lemma OneMoreRetained(index: map<Id, seq<Id>>, owner: map<Id, Id>, gone: set<Id>, id: Id, k: Id)
    requires Indexes(index, owner) && k in index
    ensures Retain(index[k], gone + {id})
         == if id in owner && owner[id] == k then Retain(Retain(index[k], gone), {id}) else Retain(index[k], gone)
  {
    RetainTwice(index[k], gone, {id});
    hide Retain;
    if !(id in owner && owner[id] == k) {
      assert id !in index[k];
      hide Indexes;
      RetainNothing(Retain(index[k], gone), {id});
    }
  }

  lemma OneMoreWithout(index: map<Id, seq<Id>>, owner: map<Id, Id>, gone: set<Id>, id: Id)
    requires Indexes(index, owner) && id in owner
    ensures Without(index, gone + {id}) == RemoveFrom(Without(index, gone), owner[id], id)
  {
    var most, all := RemoveFrom(Without(index, gone), owner[id], id), Without(index, gone + {id});
    forall k ensures (k in all <==> k in most) && (k in all ==> all[k] == most[k]) {
      if k in index {
        OneMoreRetained(index, owner, gone, id, k);
        hide Indexes;
        RemovedAt(index, owner[id], gone, id, k);
      }
    }
    hide Indexes, Retain, Without, RemoveFrom;
  }

  /** Key by key. */
  lemma RemovedAt(index: map<Id, seq<Id>>, r: Id, gone: set<Id>, id: Id, k: Id)
    requires k in index
    requires Retain(index[k], gone + {id}) == if r == k then Retain(Retain(index[k], gone), {id}) else Retain(index[k], gone)
    ensures
      var most, all := RemoveFrom(Without(index, gone), r, id), Without(index, gone + {id});
      (k in all <==> k in most) && (k in all ==> all[k] == most[k])
  {
    NothingRetained(id);
    hide Retain;
  }

  lemma NothingRetained(id: Id)
    ensures Retain([], {id}) == []
  {
  }

  /** One removed delivery, seen in the queues. */
  lemma RemoveOne(index: map<Id, seq<Id>>, deliveries: map<Id, Delivery>, gone: set<Id>, id: Id)
    requires Indexes(index, Owners(deliveries, ByRecipient))
    ensures Without(index, gone + {id})
         == if id in deliveries then RemoveFrom(Without(index, gone), deliveries[id].recipient, id) else Without(index, gone)
  {
    var owner := Owners(deliveries, ByRecipient);
    hide Indexes, Without, RemoveFrom;
    if id in deliveries {
      assert id in owner && owner[id] == deliveries[id].recipient;
      OneMoreWithout(index, owner, gone, id);
    } else {
      UnlistedWithout(index, owner, gone, id);
    }
  }

  /** One removed delivery, seen in the cancelled ones. */
  lemma CancelOne(deliveries: map<Id, Delivery>, gone: set<Id>, id: Id)
    ensures CancelledAmong(deliveries, gone + {id})
         == if id in deliveries && IsOpen(deliveries[id].status)
            then CancelledAmong(deliveries, gone)[id := deliveries[id].(status := Cancelled)]
            else CancelledAmong(deliveries, gone)
  {
  }

  lemma NoneCancelled(deliveries: map<Id, Delivery>)
    ensures CancelledAmong(deliveries, {}) == map[]
  {
  }

  lemma UnlistedWithout(index: map<Id, seq<Id>>, owner: map<Id, Id>, gone: set<Id>, id: Id)
    requires Indexes(index, owner) && id !in owner
    ensures Without(index, gone + {id}) == Without(index, gone)
  {
    forall k | k in index ensures Retain(index[k], gone + {id}) == Retain(index[k], gone) {
      OneMoreRetained(index, owner, gone, id, k);
    }
  }

  lemma ReadyToRemove(s: State)
    requires RepInv(s)
    ensures Indexes(s.recipientDeliveries, Owners(s.deliveries, ByRecipient))
  {
    assert ColumnOk(s, ByRecipient);
  }

  lemma SeniorToSelf(a: Member)
    ensures Senior(a, a)
  {
  }

  /** If `earlier` is not senior to `next`, then `next` is senior to everybody `earlier` is senior to. */
  lemma SeniorFollows(next: Member, earlier: Member, a: Member)
    requires !Senior(earlier, next) && (Senior(earlier, a) || a == next)
    ensures Senior(next, a)
  {
    LexTotal(earlier.agent, next.agent);
    if a != next && next.joinedAt == earlier.joinedAt == a.joinedAt && earlier.agent != a.agent {
      LexTransitive(next.agent, earlier.agent, a.agent);
    }
  }
}
