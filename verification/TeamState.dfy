/**
The state of the team message service: nine maps. Each locked section of the service is a
function on the state; the representation invariant ties the maps together, and every section
keeps it.
*/
module TeamState {
  import opened Wrappers
  import opened Text
  import opened TeamIndex

  datatype TeamRecord = TeamRecord(id: Id, lead: Id, updatedAt: int)

  datatype Member = Member(team: Id, agent: Id, joinedAt: int)

  datatype Message = Message(
    id: Id, team: Id, scope: string, sender: Id, recipients: seq<Id>, policy: string, key: Option<string>, body: string)

  /** Delivery statuses; `Other` is any text a persisted row may hold instead. */
  datatype Status = Pending | Deferred | Injecting | Injected | Failed | Cancelled | Other(text: string)

  datatype Delivery = Delivery(
    id: Id, message: Id, team: Id, recipient: Id, status: Status, policy: Option<string>,
    strategy: Option<string>, turn: Option<Id>, errorCode: Option<string>)

  datatype State = State(
    teams: map<Id, TeamRecord>, members: map<Id, map<Id, Member>>,
    messages: map<Id, Message>, deliveries: map<Id, Delivery>,
    teamMessages: map<Id, seq<Id>>, teamDeliveries: map<Id, seq<Id>>,
    messageDeliveries: map<Id, seq<Id>>, recipientDeliveries: map<Id, seq<Id>>,
    idempotency: map<string, Id>)

  datatype Error = NotFound | InvalidState

  /** Session statuses as the session manager reports them. */
  type Sessions = map<Id, string>

  predicate IsTerminal(status: Status) {
    status.Injected? || status.Failed? || status.Cancelled?
  }

  predicate IsOpen(status: Status) {
    status.Pending? || status.Deferred?
  }

  predicate IsValidTransition(current: Status, next: Status) {
    match current
    case Pending => next.Pending? || next.Deferred? || next.Injecting? || next.Cancelled?
    case Deferred => next.Pending? || next.Deferred? || next.Injecting? || next.Cancelled?
    case Injecting => next.Injected? || next.Failed? || next.Deferred?
    case _ => false
  }

  function NormalizeScope(scope: string): Option<string> {
    var normal := Lower(Trim(scope));
    if normal == "direct" || normal == "broadcast" then Some(normal) else None
  }

  function NormalizePolicy(policy: string): Option<string> {
    var normal := Lower(Trim(policy));
    if normal == "non_interrupting" || normal == "interrupt_after_tool_boundary"
       || normal == "immediate_interrupt" || normal == "start_new_turn_only"
    then Some(normal) else None
  }

  /** Session ids as `allocate_id` makes them: prefix, provider, milliseconds and a counter. */
  function SessionId(provider: string, millis: nat, counter: nat): Id {
    "sess_" + provider + "_" + Decimal(millis) + "_" + Decimal(counter)
  }

  lemma SessionIdHasNoBar(provider: string, millis: nat, counter: nat)
    requires provider == "codex" || provider == "claude" || provider == "acp"
    ensures NoBar(SessionId(provider, millis, counter))
  {
    DecimalHasNoBar(millis);
    DecimalHasNoBar(counter);
    assert NoBar("sess_" + provider + "_");
  }

  /** Every session there is has an id without bars. */
  ghost predicate PlainSessions(sessions: Sessions) {
    forall id :: id in sessions ==> NoBar(id)
  }

  /** Why a session cannot take part, if it cannot. */
  function Unavailable(sessions: Sessions, id: Id): Option<Error> {
    if id !in sessions then Some(NotFound)
    else if sessions[id] == "closed" || sessions[id] == "failed" then Some(InvalidState)
    else None
  }

  function FirstUnavailable(sessions: Sessions, ids: seq<Id>): Option<Error> {
    if ids == [] then None else Unavailable(sessions, ids[0]).Or(FirstUnavailable(sessions, ids[1..]))
  }

  // ---- Idempotency keys ----

  function IdempotencyKey(team: Id, sender: Id, scope: string, key: string): string {
    team + "|" + (sender + "|" + (scope + "|" + key))
  }

  /** The index key of a message that has one. */
  function MessageKey(m: Message): Option<string> {
    var key := NonEmpty(m.key);
    if key.Some? then Some(IdempotencyKey(m.team, m.sender, m.scope, key.value)) else None
  }

  /** With no bar in team, sender and scope, the joined key determines all four parts. */
  lemma IdempotencyKeyIsInjective(t: Id, s: Id, c: string, k: string, t': Id, s': Id, c': string, k': string)
    requires NoBar(t) && NoBar(s) && NoBar(c) && NoBar(t') && NoBar(s') && NoBar(c')
    requires IdempotencyKey(t, s, c, k) == IdempotencyKey(t', s', c', k')
    ensures t == t' && s == s' && c == c' && k == k'
  {
    SplitAtBar(t, s + "|" + (c + "|" + k), t', s' + "|" + (c' + "|" + k'));
    SplitAtBar(s, c + "|" + k, s', c' + "|" + k');
    SplitAtBar(c, k, c', k');
  }

  // ---- The representation invariant ----

  datatype Column = ByTeam | ByMessage | ByRecipient

  function Owner(d: Delivery, column: Column): Id {
    match column
    case ByTeam => d.team
    case ByMessage => d.message
    case ByRecipient => d.recipient
  }

  function Lists(s: State, column: Column): map<Id, seq<Id>> {
    match column
    case ByTeam => s.teamDeliveries
    case ByMessage => s.messageDeliveries
    case ByRecipient => s.recipientDeliveries
  }

  function Owners(deliveries: map<Id, Delivery>, column: Column): map<Id, Id> {
    map d | d in deliveries :: Owner(deliveries[d], column)
  }

  function MessageTeams(messages: map<Id, Message>): map<Id, Id> {
    map m | m in messages :: messages[m].team
  }

  ghost predicate ColumnOk(s: State, column: Column) {
    Indexes(Lists(s, column), Owners(s.deliveries, column))
  }

  /** Each id is in the lists of its owners exactly once and nowhere else, and every listed id resolves. */
  ghost predicate ListsOk(s: State) {
    && Indexes(s.teamMessages, MessageTeams(s.messages))
    && forall column :: ColumnOk(s, column)
  }

  /** Records are stored under their ids; a delivery's message exists and shares its team; teams are live. */
  ghost predicate LinksOk(s: State) {
    && (forall d :: d in s.deliveries ==>
          && s.deliveries[d].id == d && s.deliveries[d].message in s.messages
          && s.messages[s.deliveries[d].message].team == s.deliveries[d].team)
    && (forall m :: m in s.messages ==> s.messages[m].id == m && s.messages[m].team in s.teams && WasAdmitted(s.messages[m]))
  }

  predicate IsScope(scope: string) {
    scope == "direct" || scope == "broadcast"
  }

  /** The sender has a session's id, and the scope is one of the two there are. */
  predicate WasAdmitted(m: Message) {
    NoBar(m.sender) && IsScope(m.scope)
  }

  /** The index covers exactly the keyed messages. */
  ghost predicate KeysOk(s: State) {
    && (forall m :: m in s.messages && MessageKey(s.messages[m]).Some? ==>
          && MessageKey(s.messages[m]).value in s.idempotency
          && s.idempotency[MessageKey(s.messages[m]).value] == m)
    && (forall k :: k in s.idempotency ==>
          s.idempotency[k] in s.messages && MessageKey(s.messages[s.idempotency[k]]) == Some(k))
  }

  /** Every live team has its member table, its lead is a member, and neither its id nor a member's has a bar. */
  ghost predicate TeamsOk(s: State) {
    && s.members.Keys == s.teams.Keys
    && (forall t :: t in s.teams ==> s.teams[t].id == t && NoBar(t) && s.teams[t].lead in s.members[t])
    && (forall t, a :: t in s.members && a in s.members[t] ==> MemberOk(s.members[t][a], t, a))
  }

  predicate MemberOk(m: Member, team: Id, agent: Id) {
    m.team == team && m.agent == agent && NoBar(agent)
  }

  ghost predicate RepInv(s: State) {
    ListsOk(s) && LinksOk(s) && KeysOk(s) && TeamsOk(s)
  }

  function Empty(): State {
    State(map[], map[], map[], map[], map[], map[], map[], map[], map[])
  }

  // ---- Teams and members ----

  function Roster(team: Id, lead: Id, agents: seq<Id>, now: int): map<Id, Member> {
    map a | a in {lead} + (set x | x in agents) :: Member(team, a, now)
  }

  /** `create_team`, with the new id supplied. */
  function CreateTeam(s: State, team: Id, name: string, lead: Id, agents: seq<Id>, sessions: Sessions, now: int):
    Result<State, Error>
  {
    var missing := FirstUnavailable(sessions, [Trim(lead)] + agents);
    if Trim(name) == "" || Trim(lead) == "" then Err(InvalidState)
    else if missing.Some? then Err(missing.value)
    else
      Ok(s.(teams := s.teams[team := TeamRecord(team, Trim(lead), now)],
            members := s.members[team := Roster(team, Trim(lead), agents, now)]))
  }

  function MembersOf(s: State, team: Id): map<Id, Member> {
    if team in s.members then s.members[team] else map[]
  }

  function JoinTeam(s: State, team: Id, agent: Id, sessions: Sessions, now: int): Result<State, Error> {
    if team == "" || agent == "" then Err(InvalidState)
    else if Unavailable(sessions, agent).Some? then Err(Unavailable(sessions, agent).value)
    else if team !in s.teams then Err(NotFound)
    else if agent in MembersOf(s, team) then Err(InvalidState)
    else
      Ok(s.(members := s.members[team := MembersOf(s, team)[agent := Member(team, agent, now)]],
            teams := s.teams[team := s.teams[team].(updatedAt := now)]))
  }

  /** Joined earlier, or at the same time with the smaller id. */
  predicate Senior(a: Member, b: Member) {
    a.joinedAt < b.joinedAt || (a.joinedAt == b.joinedAt && (a.agent == b.agent || LexLess(a.agent, b.agent)))
  }

  ghost predicate IsOldest(members: map<Id, Member>, agent: Id) {
    agent in members && forall a :: a in members ==> Senior(members[agent], members[a])
  }

  /** There is only one oldest member. */
  lemma OldestIsUnique(members: map<Id, Member>, a: Id, b: Id)
    requires forall m :: m in members ==> members[m].agent == m
    requires IsOldest(members, a) && IsOldest(members, b)
    ensures a == b
  {
    LexTotal(a, b);
  }

  /** `remove_team_member`; `heir` is the oldest member left, who leads when the lead was removed. */
  function RemoveMember(s: State, team: Id, agent: Id, heir: Id, now: int): Result<State, Error> {
    if team !in s.teams || team !in s.members || agent !in s.members[team] then Err(NotFound)
    else if |s.members[team]| <= 1 then Err(InvalidState)
    else
      var lead := if s.teams[team].lead == agent then heir else s.teams[team].lead;
      Ok(s.(members := s.members[team := s.members[team] - {agent}],
            teams := s.teams[team := s.teams[team].(lead := lead, updatedAt := now)]))
  }

  function SetLead(s: State, team: Id, agent: Id, now: int): Result<State, Error> {
    if agent !in MembersOf(s, team) then Err(InvalidState)
    else if team !in s.teams then Err(NotFound)
    else if s.teams[team].lead == agent then Ok(s)
    else Ok(s.(teams := s.teams[team := s.teams[team].(lead := agent, updatedAt := now)]))
  }

  // ---- Messages ----

  datatype Request = Request(
    team: Id, scope: string, sender: Id, recipients: seq<Id>, policy: string, key: Option<string>, body: string)

  /** A request after validation: everything normalised and the recipients without repeats. */
  datatype Admitted = Admitted(scope: string, sender: Id, recipients: seq<Id>, policy: string, key: Option<string>)

  /** The recipients, trimmed, each the first time it is named, all of them available. */
  function Recipients(named: seq<Id>, sessions: Sessions): Result<seq<Id>, Error> {
    if named == [] then Ok([])
    else
      var earlier := Recipients(named[..|named| - 1], sessions);
      var next := Trim(named[|named| - 1]);
      if earlier.Err? then earlier
      else if next == "" then Err(InvalidState)
      else if next in earlier.value then earlier
      else if Unavailable(sessions, next).Some? then Err(Unavailable(sessions, next).value)
      else Ok(earlier.value + [next])
  }

  function Admit(req: Request, sessions: Sessions, maxPending: nat): Result<Admitted, Error> {
    var scope := NormalizeScope(req.scope);
    var policy := NormalizePolicy(req.policy);
    if scope.None? || policy.None? || Trim(req.sender) == "" || |req.recipients| > maxPending then Err(InvalidState)
    else
      var recipients := Recipients(req.recipients, sessions);
      if recipients.Err? then Err(recipients.error)
      else Ok(Admitted(scope.value, Trim(req.sender), recipients.value, policy.value, NonEmpty(req.key)))
  }

  /** What validation lets through: a trimmed key, one of the two scopes, one of the four policies. */
  ghost predicate Normal(a: Admitted) {
    NonEmpty(a.key) == a.key && IsScope(a.scope) && NormalizePolicy(a.policy) == Some(a.policy)
  }

  datatype Ack = Ack(message: Message, deliveries: seq<Delivery>, created: bool)

  predicate Belong(s: State, team: Id, a: Admitted) {
    && team in s.teams && a.sender in MembersOf(s, team)
    && forall i :: 0 <= i < |a.recipients| ==> a.recipients[i] in MembersOf(s, team)
  }

  function AdmittedKey(team: Id, a: Admitted): Option<string> {
    if a.key.Some? then Some(IdempotencyKey(team, a.sender, a.scope, a.key.value)) else None
  }

  /** The message an accepted resend finds. */
  function Earlier(s: State, team: Id, a: Admitted): Option<Id> {
    var key := AdmittedKey(team, a);
    if key.Some? && key.value in s.idempotency && s.idempotency[key.value] in s.messages
    then Some(s.idempotency[key.value]) else None
  }

  function Resolve(deliveries: map<Id, Delivery>, ids: seq<Id>): seq<Delivery> {
    if ids == [] then []
    else Resolve(deliveries, ids[..|ids| - 1])
         + if ids[|ids| - 1] in deliveries then [deliveries[ids[|ids| - 1]]] else []
  }

  function NewMessage(team: Id, a: Admitted, id: Id, body: string): Message {
    Message(id, team, a.scope, a.sender, a.recipients, a.policy, a.key, body)
  }

  function NewDeliveries(m: Message, ids: seq<Id>): (r: seq<Delivery>)
    requires |ids| == |m.recipients|
    ensures |r| == |ids|
  {
    seq(|ids|, i requires 0 <= i < |ids| =>
      Delivery(ids[i], m.id, m.team, m.recipients[i], Pending, Some(m.policy), None, None, None))
  }

  function AddMessage(s: State, m: Message): State {
    s.(messages := s.messages[m.id := m],
       teamMessages := Push(s.teamMessages, m.team, m.id),
       idempotency := if MessageKey(m).Some? then s.idempotency[MessageKey(m).value := m.id] else s.idempotency)
  }

  function AddDelivery(s: State, d: Delivery): State {
    s.(deliveries := s.deliveries[d.id := d],
       teamDeliveries := Push(s.teamDeliveries, d.team, d.id),
       messageDeliveries := Push(s.messageDeliveries, d.message, d.id),
       recipientDeliveries := Push(s.recipientDeliveries, d.recipient, d.id))
  }

  function AddDeliveries(s: State, ds: seq<Delivery>): State {
    if ds == [] then s else AddDelivery(AddDeliveries(s, ds[..|ds| - 1]), ds[|ds| - 1])
  }

  /** The ids the counters hand out are new. */
  ghost predicate Fresh(s: State, messageId: Id, deliveryIds: seq<Id>) {
    messageId !in s.messages && NoRepeats(deliveryIds) && forall i :: 0 <= i < |deliveryIds| ==> deliveryIds[i] !in s.deliveries
  }

  /** The locked section of `create_message_and_deliveries`. */
  function CreateMessage(s: State, team: Id, a: Admitted, messageId: Id, deliveryIds: seq<Id>, body: string):
    Result<(State, Ack), Error>
  {
    if team !in s.teams then Err(NotFound)
    else if !Belong(s, team, a) then Err(InvalidState)
    else
      var earlier := Earlier(s, team, a);
      if earlier.Some? then
        Ok((s, Ack(s.messages[earlier.value],
                   Resolve(s.deliveries, ListOf(s.messageDeliveries, earlier.value)), false)))
      else if |deliveryIds| != |a.recipients| then Err(InvalidState)
      else
        var m := NewMessage(team, a, messageId, body);
        var ds := NewDeliveries(m, deliveryIds);
        Ok((AddDeliveries(AddMessage(s, m), ds), Ack(m, ds, true)))
  }

  // ---- Deliveries ----

  function PutDelivery(s: State, d: Delivery): State {
    s.(deliveries := s.deliveries[d.id := d])
  }

  /** The record after a status write. */
  function Moved(d: Delivery, next: Status, strategy: Option<string>, code: Option<string>): Delivery {
    d.(status := next, strategy := strategy.Or(d.strategy),
       errorCode := if next.Failed? then code else None,
       turn := if next.Injected? then d.turn else None)
  }

  /** The locked compare-and-set of `transition_delivery_status`. */
  function Write(s: State, current: Delivery, next: Status, strategy: Option<string>, code: Option<string>):
    (State, Result<Delivery, Error>)
  {
    if current.id !in s.deliveries then (s, Err(NotFound))
    else if s.deliveries[current.id].status != current.status then (s, Ok(s.deliveries[current.id]))
    else
      var d := Moved(s.deliveries[current.id], next, strategy, code);
      (s.(deliveries := s.deliveries[current.id := d]), Ok(d))
  }

  /** `transition_delivery_status`: an illegal edge is refused before the lock is taken. */
  function Transition(s: State, current: Delivery, next: Status, strategy: Option<string>, code: Option<string>):
    (State, Result<Delivery, Error>)
  {
    if !IsValidTransition(current.status, next) then
      (s, if current.status == next then Ok(current) else Err(InvalidState))
    else Write(s, current, next, strategy, code)
  }

  function Stamp(s: State, id: Id, turn: Id): State {
    if id !in s.deliveries then s
    else s.(deliveries := s.deliveries[id := s.deliveries[id].(turn := Some(turn))])
  }

  function Retry(s: State, team: Id, id: Id): Result<State, Error> {
    if id !in s.deliveries then Err(NotFound)
    else if s.deliveries[id].team != team then Err(InvalidState)
    else if !s.deliveries[id].status.Failed? && !s.deliveries[id].status.Deferred? then Err(InvalidState)
    else
      Ok(s.(deliveries := s.deliveries[id :=
        s.deliveries[id].(status := Pending, strategy := None, turn := None, errorCode := None)]))
  }

  function CancelAll(deliveries: map<Id, Delivery>, ids: seq<Id>): map<Id, Delivery> {
    map d | d in deliveries :: if d in ids then deliveries[d].(status := Cancelled) else deliveries[d]
  }

  /** `cancel_message`: all of the message's deliveries are still open, or nothing happens. */
  function Cancel(s: State, team: Id, message: Id): Result<State, Error> {
    if message !in s.messages then Err(NotFound)
    else if s.messages[message].team != team then Err(InvalidState)
    else
      var ids := ListOf(s.messageDeliveries, message);
      if exists d :: d in ids && d in s.deliveries && !IsOpen(s.deliveries[d].status) then Err(InvalidState)
      else Ok(s.(deliveries := CancelAll(s.deliveries, ids)))
  }

  // ---- Deleting a team ----

  /** The deliveries listed under the team or under one of its messages. */
  function Doomed(s: State, team: Id): set<Id> {
    (set d | d in ListOf(s.teamDeliveries, team))
    + (set m, d | m in ListOf(s.teamMessages, team) && d in ListOf(s.messageDeliveries, m) :: d)
  }

  /** The index keys of the team's messages. */
  function DoomedKeys(s: State, team: Id): set<string> {
    set m | m in ListOf(s.teamMessages, team) && m in s.messages && MessageKey(s.messages[m]).Some?
      :: MessageKey(s.messages[m]).value
  }

  function PurgePrefix(index: map<string, Id>, prefix: string): map<string, Id> {
    map k | k in index && !StartsWith(k, prefix) :: index[k]
  }

  function DeleteTeam(s: State, team: Id): Result<State, Error> {
    if team !in s.teams then Err(NotFound)
    else
      var messages := TeamMessageSet(s, team);
      Ok(State(
        s.teams - {team}, s.members - {team}, s.messages - messages, s.deliveries - Doomed(s, team),
        s.teamMessages - {team}, s.teamDeliveries - {team}, s.messageDeliveries - messages,
        Without(s.recipientDeliveries, Doomed(s, team)),
        PurgePrefix(s.idempotency - DoomedKeys(s, team), team + "|")))
  }

  // ---- Every section keeps the invariant ----

  /** Lists stay exact when neither they nor the deliveries change. */
  lemma ColumnsStay(s: State, next: State)
    requires ListsOk(s) && next.deliveries == s.deliveries
    requires forall column :: Lists(next, column) == Lists(s, column)
    ensures forall column :: ColumnOk(next, column)
  {
    forall column ensures ColumnOk(next, column) {
      assert ColumnOk(s, column);
    }
  }

  /** Changing team records and member tables touches the rest only through which teams are live. */
  lemma OnlyTeamsChange(s: State, next: State)
    requires ListsOk(s) && LinksOk(s) && KeysOk(s) && s.teams.Keys <= next.teams.Keys
    requires next == s.(teams := next.teams, members := next.members)
    ensures ListsOk(next) && LinksOk(next) && KeysOk(next)
  {
    hide WasAdmitted;
    ColumnsStay(s, next);
  }

  lemma NewTeamOk(s: State, team: Id, lead: Id, agents: seq<Id>, sessions: Sessions, now: int)
    requires TeamsOk(s) && NoBar(team) && PlainSessions(sessions) && forall id :: id in [lead] + agents ==> id in sessions
    ensures TeamsOk(s.(teams := s.teams[team := TeamRecord(team, lead, now)],
                       members := s.members[team := Roster(team, lead, agents, now)]))
  {
    RosterIsPlain(team, lead, agents, sessions, now);
    hide Roster, MemberOk, NoBar, PlainSessions;
  }

  lemma CreateTeamKeeps(s: State, team: Id, name: string, lead: Id, agents: seq<Id>, sessions: Sessions, now: int)
    requires RepInv(s) && team !in s.teams && NoBar(team) && PlainSessions(sessions)
    ensures CreateTeam(s, team, name, lead, agents, sessions, now).Ok? ==>
              RepInv(CreateTeam(s, team, name, lead, agents, sessions, now).value)
  {
    hide ListsOk, LinksOk, KeysOk, TeamsOk, FirstUnavailable;
    var r := CreateTeam(s, team, name, lead, agents, sessions, now);
    if r.Ok? {
      AllAvailable(sessions, [Trim(lead)] + agents);
      NewTeamOk(s, team, Trim(lead), agents, sessions, now);
      assert r.value == s.(teams := r.value.teams, members := r.value.members);
      OnlyTeamsChange(s, r.value);
    }
  }

  lemma {:induction false} AllAvailable(sessions: Sessions, ids: seq<Id>)
    requires FirstUnavailable(sessions, ids).None?
    ensures forall id :: id in ids ==> id in sessions
  {
    if ids != [] {
      AllAvailable(sessions, ids[1..]);
    }
  }

  lemma RosterIsPlain(team: Id, lead: Id, agents: seq<Id>, sessions: Sessions, now: int)
    requires PlainSessions(sessions) && forall id :: id in [lead] + agents ==> id in sessions
    ensures
      var roster := Roster(team, lead, agents, now);
      lead in roster && forall a :: a in roster ==> MemberOk(roster[a], team, a)
  {
    assert lead in [lead] + agents;
    assert forall a :: a in agents ==> a in [lead] + agents;
  }

  lemma JoinTeams(s: State, team: Id, agent: Id, sessions: Sessions, now: int)
    requires TeamsOk(s) && PlainSessions(sessions) && JoinTeam(s, team, agent, sessions, now).Ok?
    ensures TeamsOk(JoinTeam(s, team, agent, sessions, now).value)
  {
    assert NoBar(agent);
    hide NoBar, PlainSessions, Unavailable;
    assert MemberOk(Member(team, agent, now), team, agent);
    hide MemberOk;
    OneTeamChanges(s, JoinTeam(s, team, agent, sessions, now).value, team);
    hide TeamsOk;
  }

  lemma OneTeamChanges(s: State, next: State, team: Id)
    requires TeamsOk(s) && team in s.teams && team in next.teams && team in next.members
    requires next.teams == s.teams[team := next.teams[team]] && next.members == s.members[team := next.members[team]]
    requires next.teams[team].id == team && next.teams[team].lead in next.members[team]
    requires forall a :: a in next.members[team] ==> MemberOk(next.members[team][a], team, a)
    ensures TeamsOk(next)
  {
    hide MemberOk, NoBar;
  }

  lemma JoinKeeps(s: State, team: Id, agent: Id, sessions: Sessions, now: int)
    requires RepInv(s) && PlainSessions(sessions)
    ensures JoinTeam(s, team, agent, sessions, now).Ok? ==> RepInv(JoinTeam(s, team, agent, sessions, now).value)
  {
    if JoinTeam(s, team, agent, sessions, now).Ok? {
      OnlyTeamsChange(s, JoinTeam(s, team, agent, sessions, now).value);
      JoinTeams(s, team, agent, sessions, now);
    }
  }

  lemma RemoveMemberTeams(s: State, team: Id, agent: Id, heir: Id, now: int)
    requires TeamsOk(s) && RemoveMember(s, team, agent, heir, now).Ok? && IsOldest(s.members[team] - {agent}, heir)
    ensures TeamsOk(RemoveMember(s, team, agent, heir, now).value)
  {
    hide MemberOk, NoBar;
  }

  lemma RemoveMemberKeeps(s: State, team: Id, agent: Id, heir: Id, now: int)
    requires RepInv(s)
    requires RemoveMember(s, team, agent, heir, now).Ok? ==> IsOldest(s.members[team] - {agent}, heir)
    ensures RemoveMember(s, team, agent, heir, now).Ok? ==> RepInv(RemoveMember(s, team, agent, heir, now).value)
  {
    if RemoveMember(s, team, agent, heir, now).Ok? {
      OnlyTeamsChange(s, RemoveMember(s, team, agent, heir, now).value);
      RemoveMemberTeams(s, team, agent, heir, now);
    }
  }

  lemma SetLeadTeams(s: State, team: Id, agent: Id, now: int)
    requires TeamsOk(s) && SetLead(s, team, agent, now).Ok?
    ensures TeamsOk(SetLead(s, team, agent, now).value)
  {
    hide MemberOk, NoBar;
  }

  lemma SetLeadKeeps(s: State, team: Id, agent: Id, now: int)
    requires RepInv(s)
    ensures SetLead(s, team, agent, now).Ok? ==> RepInv(SetLead(s, team, agent, now).value)
  {
    hide ListsOk, LinksOk, KeysOk, TeamsOk;
    if SetLead(s, team, agent, now).Ok? {
      SetLeadTeams(s, team, agent, now);
      var next := SetLead(s, team, agent, now).value;
      assert next == s.(teams := next.teams) && next.teams.Keys == s.teams.Keys;
      OnlyTeamsChange(s, next);
    }
  }

  /** The same deliveries under the same owners: only statuses and the like differ. */
  ghost predicate SameRouting(s: State, next: State) {
    && next == s.(deliveries := next.deliveries)
    && next.deliveries.Keys == s.deliveries.Keys
    && forall d :: d in s.deliveries ==> SameRoute(s.deliveries[d], next.deliveries[d])
  }

  predicate SameRoute(a: Delivery, b: Delivery) {
    a.id == b.id && a.message == b.message && a.team == b.team && a.recipient == b.recipient
  }

  lemma SameRoutingLists(s: State, next: State)
    requires ListsOk(s) && SameRouting(s, next)
    ensures ListsOk(next)
  {
    forall column ensures ColumnOk(next, column) {
      assert ColumnOk(s, column);
      SameOwners(s, next, column);
    }
  }

  lemma SameOwners(s: State, next: State, column: Column)
    requires SameRouting(s, next)
    ensures Owners(next.deliveries, column) == Owners(s.deliveries, column)
  {
    forall d | d in s.deliveries ensures SameRoute(s.deliveries[d], next.deliveries[d]) {
    }
  }

  lemma SameRoutingLinks(s: State, next: State)
    requires LinksOk(s) && SameRouting(s, next)
    ensures LinksOk(next)
  {
    hide WasAdmitted;
    forall d | d in next.deliveries ensures SameRoute(s.deliveries[d], next.deliveries[d]) {
    }
  }

  lemma KeysStay(s: State, next: State)
    requires KeysOk(s) && next.messages == s.messages && next.idempotency == s.idempotency
    ensures KeysOk(next)
  {
  }

  lemma TeamsStay(s: State, next: State)
    requires TeamsOk(s) && next.teams == s.teams && next.members == s.members
    ensures TeamsOk(next)
  {
  }

  lemma SameRoutingKeeps(s: State, next: State)
    requires RepInv(s) && SameRouting(s, next)
    ensures RepInv(next)
  {
    hide ListsOk, LinksOk, KeysOk, TeamsOk;
    SameRoutingLists(s, next);
    SameRoutingLinks(s, next);
    KeysStay(s, next);
    TeamsStay(s, next);
  }

  /** One delivery's record changes and keeps its route. */
  lemma OneDeliveryKeeps(s: State, d: Delivery)
    requires RepInv(s) && d.id in s.deliveries && SameRoute(s.deliveries[d.id], d)
    ensures RepInv(s.(deliveries := s.deliveries[d.id := d]))
  {
    hide RepInv;
    SameRoutingKeeps(s, s.(deliveries := s.deliveries[d.id := d]));
  }

  lemma TransitionKeeps(s: State, current: Delivery, next: Status, strategy: Option<string>, code: Option<string>)
    requires RepInv(s)
    ensures RepInv(Transition(s, current, next, strategy, code).0)
  {
    var after := Transition(s, current, next, strategy, code).0;
    if after != s {
      assert LinksOk(s);
      OneDeliveryKeeps(s, Moved(s.deliveries[current.id], next, strategy, code));
    }
  }

  lemma StampKeeps(s: State, id: Id, turn: Id)
    requires RepInv(s)
    ensures RepInv(Stamp(s, id, turn))
  {
    if id in s.deliveries {
      assert LinksOk(s);
      OneDeliveryKeeps(s, s.deliveries[id].(turn := Some(turn)));
    }
  }

  lemma RetryKeeps(s: State, team: Id, id: Id)
    requires RepInv(s) && Retry(s, team, id).Ok?
    ensures RepInv(Retry(s, team, id).value)
  {
    hide RepInv;
    SameRoutingKeeps(s, Retry(s, team, id).value);
  }

  lemma CancelKeeps(s: State, team: Id, message: Id)
    requires RepInv(s) && Cancel(s, team, message).Ok?
    ensures RepInv(Cancel(s, team, message).value)
  {
    hide RepInv;
    SameRoutingKeeps(s, Cancel(s, team, message).value);
  }

  lemma AddMessageLists(s: State, m: Message)
    requires ListsOk(s) && m.id !in s.messages
    ensures ListsOk(AddMessage(s, m))
  {
    PushKeeps(s.teamMessages, MessageTeams(s.messages), m.team, m.id);
    assert MessageTeams(AddMessage(s, m).messages) == MessageTeams(s.messages)[m.id := m.team];
    ColumnsStay(s, AddMessage(s, m));
  }

  lemma AddMessageKeys(s: State, m: Message)
    requires KeysOk(s) && m.id !in s.messages
    requires MessageKey(m).Some? ==> MessageKey(m).value !in s.idempotency
    ensures KeysOk(AddMessage(s, m))
  {
  }

  lemma AddMessageKeeps(s: State, m: Message)
    requires RepInv(s) && m.id !in s.messages && m.team in s.teams && WasAdmitted(m)
    requires MessageKey(m).Some? ==> MessageKey(m).value !in s.idempotency
    ensures RepInv(AddMessage(s, m))
  {
    AddMessageLists(s, m);
    AddMessageKeys(s, m);
    AddMessageLinks(s, m);
    hide ListsOk, KeysOk, LinksOk, MessageKey;
  }

  lemma AddMessageLinks(s: State, m: Message)
    requires LinksOk(s) && m.id !in s.messages && m.team in s.teams && WasAdmitted(m)
    ensures LinksOk(AddMessage(s, m))
  {
    hide WasAdmitted;
    hide MessageKey, Push;
  }

  lemma AddDeliveryLists(s: State, d: Delivery, column: Column)
    ensures Lists(AddDelivery(s, d), column) == Push(Lists(s, column), Owner(d, column), d.id)
  {
    hide Push;
  }

  lemma AddDeliveryOwners(s: State, d: Delivery, column: Column)
    ensures Owners(AddDelivery(s, d).deliveries, column) == Owners(s.deliveries, column)[d.id := Owner(d, column)]
  {
    hide Push;
  }

  lemma AddDeliveryColumn(s: State, d: Delivery, column: Column)
    requires ColumnOk(s, column) && d.id !in s.deliveries
    ensures ColumnOk(AddDelivery(s, d), column)
  {
    PushKeeps(Lists(s, column), Owners(s.deliveries, column), Owner(d, column), d.id) by {
      assert d.id !in Owners(s.deliveries, column);
    }
    hide Indexes, Lists, Owners, Push, ListOf, Owner;
    AddDeliveryLists(s, d, column);
    AddDeliveryOwners(s, d, column);
  }

  lemma AddDeliveryLinks(s: State, d: Delivery)
    requires LinksOk(s) && d.message in s.messages && s.messages[d.message].team == d.team
    ensures LinksOk(AddDelivery(s, d))
  {
    hide WasAdmitted;
  }

  lemma AddDeliveryColumns(s: State, d: Delivery)
    requires ListsOk(s) && d.id !in s.deliveries
    ensures ListsOk(AddDelivery(s, d))
  {
    forall column ensures ColumnOk(AddDelivery(s, d), column) {
      assert ColumnOk(s, column);
      hide ColumnOk, Indexes;
      AddDeliveryColumn(s, d, column);
    }
  }

  lemma AddDeliveryKeeps(s: State, d: Delivery)
    requires RepInv(s) && d.id !in s.deliveries && d.message in s.messages && s.messages[d.message].team == d.team
    ensures RepInv(AddDelivery(s, d))
  {
    AddDeliveryColumns(s, d);
    hide ListsOk, LinksOk, KeysOk, TeamsOk;
    AddDeliveryLinks(s, d);
    KeysStay(s, AddDelivery(s, d));
    TeamsStay(s, AddDelivery(s, d));
  }

  /** New deliveries of known messages, with new and distinct ids. */
  ghost predicate Addable(s: State, ds: seq<Delivery>) {
    && (forall i :: 0 <= i < |ds| ==> ds[i].id !in s.deliveries)
    && (forall i :: 0 <= i < |ds| ==> ds[i].message in s.messages && s.messages[ds[i].message].team == ds[i].team)
    && (forall i, j :: 0 <= i < j < |ds| ==> ds[i].id != ds[j].id)
  }

  /** What adding deliveries leaves alone, and which ids it adds. */
  lemma {:induction false} AddDeliveriesFrame(s: State, ds: seq<Delivery>)
    ensures
      var next := AddDeliveries(s, ds);
      && next.messages == s.messages && next.teams == s.teams && next.members == s.members
      && next.teamMessages == s.teamMessages && next.idempotency == s.idempotency
      && s.deliveries.Keys <= next.deliveries.Keys
      && (forall x :: x in next.deliveries && x !in s.deliveries ==> exists i :: 0 <= i < |ds| && ds[i].id == x)
  {
    if ds != [] {
      AddDeliveriesFrame(s, ds[..|ds| - 1]);
    }
  }

  lemma {:induction false} AddDeliveriesKeeps(s: State, ds: seq<Delivery>)
    requires RepInv(s) && Addable(s, ds)
    ensures RepInv(AddDeliveries(s, ds))
  {
    hide RepInv;
    if ds != [] {
      var front, last := ds[..|ds| - 1], ds[|ds| - 1];
      AddDeliveriesKeeps(s, front);
      AddDeliveriesFrame(s, front);
      AddDeliveryKeeps(AddDeliveries(s, front), last);
    }
  }

  lemma NewDeliveriesAddable(s: State, m: Message, ids: seq<Id>)
    requires |ids| == |m.recipients| && Fresh(s, m.id, ids)
    ensures Addable(AddMessage(s, m), NewDeliveries(m, ids))
  {
  }

  lemma CreateMessageKeeps(s: State, team: Id, a: Admitted, messageId: Id, deliveryIds: seq<Id>, body: string)
    requires RepInv(s) && Fresh(s, messageId, deliveryIds) && Normal(a)
    ensures
      var r := CreateMessage(s, team, a, messageId, deliveryIds, body);
      r.Ok? ==> RepInv(r.value.0)
  {
    var r := CreateMessage(s, team, a, messageId, deliveryIds, body);
    if r.Ok? && r.value.1.created {
      var m := NewMessage(team, a, messageId, body);
      assert MessageKey(m) == AdmittedKey(team, a);
      assert KeysOk(s);
      assert WasAdmitted(m) by {
        assert TeamsOk(s);
      }
      AddMessageKeeps(s, m);
      NewDeliveriesAddable(s, m, deliveryIds);
      AddDeliveriesKeeps(AddMessage(s, m), NewDeliveries(m, deliveryIds));
    }
  }

  /** What validation admits is normalised: validating it again would change nothing. */
  lemma AdmittedIsNormal(req: Request, sessions: Sessions, maxPending: nat)
    requires Admit(req, sessions, maxPending).Ok?
    ensures Normal(Admit(req, sessions, maxPending).value)
  {
    if req.key.Some? {
      TrimIsIdempotent(req.key.value);
    }
    PolicyIsNormal(req.policy);
  }

  lemma PolicyIsNormal(policy: string)
    ensures NormalizePolicy(policy).Some? ==> NormalizePolicy(NormalizePolicy(policy).value) == NormalizePolicy(policy)
  {
    var normal := Lower(Trim(policy));
    LowerTwice(Trim(policy));
    if NormalizePolicy(policy).Some? {
      assert !IsWhitespace(normal[0]) && !IsWhitespace(normal[|normal| - 1]);
      assert Trim(normal) == normal;
    }
  }

  lemma DoomedIsTheTeams(s: State, team: Id, d: Id)
    requires ColumnOk(s, ByTeam) && ColumnOk(s, ByMessage) && Indexes(s.teamMessages, MessageTeams(s.messages)) && LinksOk(s)
    requires d in s.deliveries
    ensures d in Doomed(s, team) <==> s.deliveries[d].team == team
  {
    assert d in Owners(s.deliveries, ByTeam) && d in Owners(s.deliveries, ByMessage);
    if d in Doomed(s, team) && d !in ListOf(s.teamDeliveries, team) {
      var m :| m in ListOf(s.teamMessages, team) && d in ListOf(s.messageDeliveries, m);
      assert MessageTeams(s.messages)[m] == team;
      assert Owners(s.deliveries, ByMessage)[d] == m;
    }
  }

  /** Under the invariant, what a delete takes is exactly the team's deliveries. */
  lemma DoomedAreTheTeams(s: State, team: Id)
    requires RepInv(s)
    ensures forall d :: d in s.deliveries ==> (d in Doomed(s, team) <==> s.deliveries[d].team == team)
    ensures forall m :: m in s.messages ==> (m in ListOf(s.teamMessages, team) <==> s.messages[m].team == team)
  {
    assert ColumnOk(s, ByTeam) && ColumnOk(s, ByMessage);
    forall d | d in s.deliveries ensures d in Doomed(s, team) <==> s.deliveries[d].team == team {
      hide RepInv, ListsOk, LinksOk, ColumnOk, Doomed, Indexes;
      DoomedIsTheTeams(s, team, d);
    }
    hide Doomed, LinksOk, KeysOk, TeamsOk;
    forall m | m in s.messages ensures m in ListOf(s.teamMessages, team) <==> s.messages[m].team == team {
      assert m in MessageTeams(s.messages);
    }
  }

  /**
  The purge by prefix takes exactly the deleted team's keys: the index afterwards is the old one
  restricted to messages of other teams.
  */
  lemma PurgeIsExact(s: State, team: Id)
    requires RepInv(s) && team in s.teams
    ensures PurgePrefix(s.idempotency - DoomedKeys(s, team), team + "|")
         == map k | k in s.idempotency && s.messages[s.idempotency[k]].team != team :: s.idempotency[k]
  {
    hide *;
    forall k | k in s.idempotency
      ensures s.idempotency[k] in s.messages
      ensures s.messages[s.idempotency[k]].team == team <==> StartsWith(k, team + "|")
      ensures k in DoomedKeys(s, team) ==> s.messages[s.idempotency[k]].team == team
    {
      KeyBelongs(s, team, k);
      if k in DoomedKeys(s, team) {
        DoomedKeyBelongs(s, team, k);
      }
    }
    PurgedBy(s, team);
  }

  /** A filter that takes what another one takes, key by key, leaves the same index. */
  lemma PurgedBy(s: State, team: Id)
    requires forall k :: k in s.idempotency ==>
               && s.idempotency[k] in s.messages
               && (s.messages[s.idempotency[k]].team == team <==> StartsWith(k, team + "|"))
               && (k in DoomedKeys(s, team) ==> s.messages[s.idempotency[k]].team == team)
    ensures PurgePrefix(s.idempotency - DoomedKeys(s, team), team + "|")
         == map k | k in s.idempotency && s.messages[s.idempotency[k]].team != team :: s.idempotency[k]
  {
    hide DoomedKeys, StartsWith;
  }

  lemma KeyBelongs(s: State, team: Id, k: string)
    requires RepInv(s) && team in s.teams && k in s.idempotency
    ensures s.idempotency[k] in s.messages
    ensures s.messages[s.idempotency[k]].team == team <==> StartsWith(k, team + "|")
  {
    hide WasAdmitted, MemberOk, ListsOk;
    var m := s.messages[s.idempotency[k]];
    assert MessageKey(m) == Some(k);
    assert NoBar(m.team) && NoBar(team);
    hide RepInv, NoBar, MessageKey;
    KeyNamesTeam(m, k, team);
  }

  lemma DoomedKeyBelongs(s: State, team: Id, k: string)
    requires RepInv(s) && team in s.teams && k in s.idempotency && k in DoomedKeys(s, team)
    ensures s.idempotency[k] in s.messages && s.messages[s.idempotency[k]].team == team
  {
    hide MessageKey, WasAdmitted, MemberOk, ListsOk;
    DoomedAreTheTeams(s, team);
  }

  /** A message's key starts with a team's prefix exactly when it is the message's team. */
  lemma KeyNamesTeam(m: Message, k: string, team: Id)
    requires MessageKey(m) == Some(k) && NoBar(m.team) && NoBar(team)
    ensures m.team == team <==> StartsWith(k, team + "|")
  {
    var rest := m.sender + "|" + (m.scope + "|" + NonEmpty(m.key).value);
    assert k == m.team + "|" + rest;
    assert m.team + "|" <= k;
    if StartsWith(k, team + "|") {
      var tail := k[|team| + 1..];
      assert k == team + "|" + tail;
      SplitAtBar(m.team, rest, team, tail);
    }
  }

  /** The owners of what is left. */
  lemma DeleteOwners(s: State, team: Id, column: Column)
    requires team in s.teams
    ensures Owners(DeleteTeam(s, team).value.deliveries, column) == Owners(s.deliveries, column) - Doomed(s, team)
  {
  }

  function TeamMessageSet(s: State, team: Id): set<Id> {
    set m | m in ListOf(s.teamMessages, team)
  }

  lemma DeleteMessageLists(s: State, team: Id)
    requires Indexes(s.teamMessages, MessageTeams(s.messages)) && team in s.teams
    requires forall m :: m in s.messages ==> (m in ListOf(s.teamMessages, team) <==> s.messages[m].team == team)
    ensures
      var next := DeleteTeam(s, team).value;
      Indexes(next.teamMessages, MessageTeams(next.messages))
  {
    var messages := TeamMessageSet(s, team);
    DropKeysKeeps(s.teamMessages, MessageTeams(s.messages), {team}, messages);
    assert MessageTeams(s.messages - messages) == MessageTeams(s.messages) - messages;
  }

  /** Which deliveries go, as seen from the lists dropped by team and by message. */
  lemma DoomedByColumn(s: State, team: Id)
    requires RepInv(s)
    ensures forall d :: d in s.deliveries ==> (d in Doomed(s, team) <==> s.deliveries[d].team in {team})
    ensures forall d :: d in s.deliveries ==> (d in Doomed(s, team) <==> s.deliveries[d].message in TeamMessageSet(s, team))
  {
    DoomedAreTheTeams(s, team);
    assert LinksOk(s);
  }

  lemma DeleteColumn(s: State, team: Id, column: Column)
    requires RepInv(s) && team in s.teams
    ensures ColumnOk(DeleteTeam(s, team).value, column)
  {
    DoomedByColumn(s, team);
    DeleteOwners(s, team, column);
    assert ColumnOk(s, column);
    var owners := Owners(s.deliveries, column);
    match column
    case ByTeam => DropKeysKeeps(s.teamDeliveries, owners, {team}, Doomed(s, team));
    case ByMessage => DropKeysKeeps(s.messageDeliveries, owners, TeamMessageSet(s, team), Doomed(s, team));
    case ByRecipient => WithoutKeeps(s.recipientDeliveries, owners, Doomed(s, team));
  }

  lemma DeleteTeamKeeps(s: State, team: Id)
    requires RepInv(s) && team in s.teams
    ensures RepInv(DeleteTeam(s, team).value)
  {
    DoomedAreTheTeams(s, team);
    DeleteMessageLists(s, team);
    forall column ensures ColumnOk(DeleteTeam(s, team).value, column) {
      DeleteColumn(s, team, column);
    }
    DeleteLinksAndKeys(s, team);
  }

  lemma DeleteLinksAndKeys(s: State, team: Id)
    requires RepInv(s) && team in s.teams
    ensures LinksOk(DeleteTeam(s, team).value) && KeysOk(DeleteTeam(s, team).value) && TeamsOk(DeleteTeam(s, team).value)
  {
    DeleteKeys(s, team);
    DeleteLinks(s, team);
    DeleteTeams(s, team);
    hide RepInv, LinksOk, KeysOk, TeamsOk, DeleteTeam;
  }

  lemma DeleteLinks(s: State, team: Id)
    requires RepInv(s) && team in s.teams
    ensures LinksOk(DeleteTeam(s, team).value)
  {
    DoomedAreTheTeams(s, team);
    TeamMessagesAre(s, team);
    assert LinksOk(s);
    LinksRestrict(s, DeleteTeam(s, team).value, team);
    hide *;
  }

  /** What belongs to the other teams is linked as before. */
  lemma LinksRestrict(s: State, next: State, team: Id)
    requires LinksOk(s)
    requires forall t :: t in s.teams && t != team ==> t in next.teams
    requires forall m :: m in next.messages <==> m in s.messages && s.messages[m].team != team
    requires forall m :: m in next.messages ==> next.messages[m] == s.messages[m]
    requires forall d :: d in next.deliveries ==> d in s.deliveries && next.deliveries[d] == s.deliveries[d] && s.deliveries[d].team != team
    ensures LinksOk(next)
  {
    hide WasAdmitted;
  }

  lemma TeamMessagesAre(s: State, team: Id)
    requires RepInv(s)
    ensures forall m :: m in s.messages ==> (m in TeamMessageSet(s, team) <==> s.messages[m].team == team)
  {
    DoomedAreTheTeams(s, team);
    hide RepInv;
  }

  lemma DeleteTeams(s: State, team: Id)
    requires TeamsOk(s) && team in s.teams
    ensures TeamsOk(DeleteTeam(s, team).value)
  {
    hide MemberOk, NoBar;
    hide Doomed, DoomedKeys, PurgePrefix, Without;
  }

  /** The index restricted together with the messages stays exact. */
  lemma KeysRestrict(s: State, next: State, team: Id)
    requires KeysOk(s) && next.messages.Keys <= s.messages.Keys
    requires forall m :: m in s.messages ==> (m in next.messages <==> s.messages[m].team != team)
    requires forall m :: m in next.messages ==> next.messages[m] == s.messages[m]
    requires next.idempotency
          == map k | k in s.idempotency && s.messages[s.idempotency[k]].team != team :: s.idempotency[k]
    ensures KeysOk(next)
  {
    hide MessageKey;
  }

  lemma DeleteKeys(s: State, team: Id)
    requires RepInv(s) && team in s.teams
    ensures KeysOk(DeleteTeam(s, team).value)
  {
    DoomedAreTheTeams(s, team);
    PurgeIsExact(s, team);
    hide ListsOk, LinksOk, TeamsOk, KeysOk, Doomed, DoomedKeys, PurgePrefix, MessageKey, Without;
    KeysRestrict(s, DeleteTeam(s, team).value, team);
  }
}
