/** Rebuilding the nine maps from the persisted rows. */
module TeamHydration {
  import opened Wrappers
  import opened Text
  import opened TeamIndex
  import opened TeamState

  datatype TeamRow = TeamRow(team: TeamRecord, deleted: bool)

  datatype Rows = Rows(teams: seq<TeamRow>, members: seq<Member>, messages: seq<Message>, deliveries: seq<Delivery>)

  function LoadTeam(s: State, row: TeamRow): State {
    if row.deleted then s else s.(teams := s.teams[row.team.id := row.team])
  }

  function LoadMember(s: State, m: Member): State {
    if m.team !in s.teams then s
    else s.(members := s.members[m.team := MembersOf(s, m.team)[m.agent := m]])
  }

  function LoadMessage(s: State, m: Message): State {
    if m.team !in s.teams then s else AddMessage(s, m)
  }

  function LoadDelivery(s: State, d: Delivery): State {
    if d.team !in s.teams || d.message !in s.messages then s else AddDelivery(s, d)
  }

  function LoadTeams(s: State, rows: seq<TeamRow>): State {
    if rows == [] then s else LoadTeam(LoadTeams(s, rows[..|rows| - 1]), rows[|rows| - 1])
  }

  function LoadMembers(s: State, rows: seq<Member>): State {
    if rows == [] then s else LoadMember(LoadMembers(s, rows[..|rows| - 1]), rows[|rows| - 1])
  }

  function LoadMessages(s: State, rows: seq<Message>): State {
    if rows == [] then s else LoadMessage(LoadMessages(s, rows[..|rows| - 1]), rows[|rows| - 1])
  }

  function LoadDeliveries(s: State, rows: seq<Delivery>): State {
    if rows == [] then s else LoadDelivery(LoadDeliveries(s, rows[..|rows| - 1]), rows[|rows| - 1])
  }

  function Hydrate(rows: Rows): State {
    LoadDeliveries(LoadMessages(LoadMembers(LoadTeams(Empty(), rows.teams), rows.members), rows.messages), rows.deliveries)
  }

  // ---- Well-formed rows ----

  ghost predicate Live(rows: Rows, team: Id) {
    exists i :: 0 <= i < |rows.teams| && !rows.teams[i].deleted && rows.teams[i].team.id == team
  }

  /**
  What the tables hold when every service call stored its records: unique ids, and among the live teams a
  member row for each lead, no bars in team and member ids and in senders, one message per idempotency key,
  and deliveries in the team of their message.
  */
  ghost predicate WellFormed(rows: Rows) {
    && (forall i, j :: 0 <= i < j < |rows.teams| ==> rows.teams[i].team.id != rows.teams[j].team.id)
    && (forall i, j :: 0 <= i < j < |rows.messages| ==> rows.messages[i].id != rows.messages[j].id)
    && (forall i, j :: 0 <= i < j < |rows.deliveries| ==> rows.deliveries[i].id != rows.deliveries[j].id)
    && (forall i :: 0 <= i < |rows.teams| && !rows.teams[i].deleted ==> NoBar(rows.teams[i].team.id) && HasLead(rows, rows.teams[i].team))
    && (forall i :: 0 <= i < |rows.members| && Live(rows, rows.members[i].team) ==> NoBar(rows.members[i].agent))
    && (forall i :: 0 <= i < |rows.messages| && Live(rows, rows.messages[i].team) ==> WasAdmitted(rows.messages[i]))
    && (forall i, j :: 0 <= i < j < |rows.messages| && Live(rows, rows.messages[i].team) && Live(rows, rows.messages[j].team) ==>
          MessageKey(rows.messages[i]).None? || MessageKey(rows.messages[i]) != MessageKey(rows.messages[j]))
    && (forall i, j :: 0 <= i < |rows.deliveries| && 0 <= j < |rows.messages| && rows.deliveries[i].message == rows.messages[j].id ==>
          Live(rows, rows.deliveries[i].team) && Live(rows, rows.messages[j].team) ==>
            rows.deliveries[i].team == rows.messages[j].team)
  }

  ghost predicate HasLead(rows: Rows, team: TeamRecord) {
    exists j :: 0 <= j < |rows.members| && rows.members[j].team == team.id && rows.members[j].agent == team.lead
  }

  // ---- Hydration establishes the invariant ----

  lemma {:induction false} TeamsLoaded(rows: seq<TeamRow>)
    requires forall i, j :: 0 <= i < j < |rows| ==> rows[i].team.id != rows[j].team.id
    ensures
      var s := LoadTeams(Empty(), rows);
      && s == Empty().(teams := s.teams)
      && (forall t :: t in s.teams <==> exists i :: 0 <= i < |rows| && !rows[i].deleted && rows[i].team.id == t)
      && (forall i :: 0 <= i < |rows| && !rows[i].deleted ==> s.teams[rows[i].team.id] == rows[i].team)
  {
    if rows != [] {
      TeamsLoaded(rows[..|rows| - 1]);
    }
  }

  ghost predicate MembersMatch(s: State) {
    && s.members.Keys <= s.teams.Keys
    && forall t, a :: t in s.members && a in s.members[t] ==> MemberOk(s.members[t][a], t, a)
  }

  predicate Holds(s: State, m: Member) {
    m.team in s.members && m.agent in s.members[m.team]
  }

  lemma LoadMemberStep(s: State, m: Member)
    requires MembersMatch(s) && (m.team in s.teams ==> NoBar(m.agent))
    ensures MembersMatch(LoadMember(s, m)) && LoadMember(s, m) == s.(members := LoadMember(s, m).members)
    ensures m.team in s.teams ==> Holds(LoadMember(s, m), m)
    ensures forall x :: Holds(s, x) ==> Holds(LoadMember(s, m), x)
  {
    hide NoBar;
  }

  lemma {:induction false} MembersLoaded(s: State, rows: seq<Member>)
    requires s.members == map[] && forall i :: 0 <= i < |rows| && rows[i].team in s.teams ==> NoBar(rows[i].agent)
    ensures
      var next := LoadMembers(s, rows);
      && next == s.(members := next.members) && MembersMatch(next)
      && (forall i :: 0 <= i < |rows| && rows[i].team in s.teams ==> Holds(next, rows[i]))
  {
    hide NoBar;
    if rows != [] {
      MembersLoaded(s, rows[..|rows| - 1]);
      LoadMemberStep(LoadMembers(s, rows[..|rows| - 1]), rows[|rows| - 1]);
    }
  }

  lemma MembersArePlain(rows: Rows, s: State)
    requires WellFormed(rows) && HasLiveTeams(s, rows)
    ensures forall i :: 0 <= i < |rows.members| && rows.members[i].team in s.teams ==> NoBar(rows.members[i].agent)
  {
    hide NoBar, Live, WasAdmitted, MessageKey, HasLead;
  }

  lemma LeadLoaded(rows: Rows, s: State, t: Id)
    requires WellFormed(rows) && t in s.teams && Live(rows, t)
    requires forall i :: 0 <= i < |rows.teams| && !rows.teams[i].deleted ==>
               rows.teams[i].team.id in s.teams && s.teams[rows.teams[i].team.id] == rows.teams[i].team
    requires forall i :: 0 <= i < |rows.members| && rows.members[i].team in s.teams ==> Holds(s, rows.members[i])
    ensures t in s.members && s.teams[t].id == t && NoBar(t) && s.teams[t].lead in s.members[t]
  {
    hide NoBar, WasAdmitted, MessageKey;
    var i :| 0 <= i < |rows.teams| && !rows.teams[i].deleted && rows.teams[i].team.id == t;
    assert HasLead(rows, rows.teams[i].team);
    var j :| 0 <= j < |rows.members| && rows.members[j].team == t && rows.members[j].agent == s.teams[t].lead;
    assert Holds(s, rows.members[j]);
  }

  lemma LiveTeamsOk(rows: Rows, s: State)
    requires WellFormed(rows) && HasLiveTeams(s, rows) && MembersMatch(s)
    requires forall i :: 0 <= i < |rows.teams| && !rows.teams[i].deleted ==>
               rows.teams[i].team.id in s.teams && s.teams[rows.teams[i].team.id] == rows.teams[i].team
    requires forall i :: 0 <= i < |rows.members| && rows.members[i].team in s.teams ==> Holds(s, rows.members[i])
    ensures TeamsOk(s)
  {
    hide WellFormed, MemberOk, NoBar;
    forall t | t in s.teams ensures t in s.members && s.teams[t].id == t && NoBar(t) && s.teams[t].lead in s.members[t] {
      LeadLoaded(rows, s, t);
    }
  }

  lemma TeamsAndMembersOk(rows: Rows)
    requires WellFormed(rows)
    ensures
      var s := LoadMembers(LoadTeams(Empty(), rows.teams), rows.members);
      && RepInv(s) && s.messages == map[] && s.deliveries == map[] && s.recipientDeliveries == map[]
      && HasLiveTeams(s, rows)
  {
    var s0 := LoadTeams(Empty(), rows.teams);
    TeamsLoaded(rows.teams);
    assert HasLiveTeams(s0, rows);
    MembersArePlain(rows, s0);
    hide WellFormed, MemberOk, NoBar, MembersMatch, Holds, TeamsOk;
    MembersLoaded(s0, rows.members);
    LiveTeamsOk(rows, LoadMembers(s0, rows.members));
    NothingListed(LoadMembers(s0, rows.members));
  }

  lemma NothingListed(s: State)
    requires s == Empty().(teams := s.teams, members := s.members) && TeamsOk(s)
    ensures RepInv(s)
  {
    forall column ensures ColumnOk(s, column) {
      assert Owners(s.deliveries, column) == map[];
    }
    assert MessageTeams(s.messages) == map[];
  }

  /** Rows that were admitted wherever their team is live, and whose keys differ pairwise there. */
  ghost predicate DistinctKeys(teams: set<Id>, rows: seq<Message>) {
    && (forall i, j :: 0 <= i < j < |rows| ==> rows[i].id != rows[j].id)
    && (forall i :: 0 <= i < |rows| && rows[i].team in teams ==> WasAdmitted(rows[i]))
    && (forall i, j :: 0 <= i < j < |rows| && rows[i].team in teams && rows[j].team in teams ==>
          MessageKey(rows[i]).None? || MessageKey(rows[i]) != MessageKey(rows[j]))
  }

  /** Every loaded message is one of the rows. */
  ghost predicate FromRows(s: State, rows: seq<Message>) {
    forall m :: m in s.messages ==> exists i :: 0 <= i < |rows| && rows[i] == s.messages[m]
  }

  lemma FromRowsGrows(s: State, rows: seq<Message>, last: Message)
    requires FromRows(s, rows)
    ensures FromRows(s, rows + [last]) && FromRows(AddMessage(s, last), rows + [last])
  {
    var all := rows + [last];
    forall m | m in s.messages ensures exists i :: 0 <= i < |all| && all[i] == s.messages[m] {
      var i :| 0 <= i < |rows| && rows[i] == s.messages[m];
      assert all[i] == s.messages[m];
    }
    assert all[|rows|] == last;
  }

  lemma {:induction false} MessagesLoaded(s: State, rows: seq<Message>)
    requires RepInv(s) && s.messages == map[] && DistinctKeys(s.teams.Keys, rows)
    ensures
      var next := LoadMessages(s, rows);
      && RepInv(next) && next.teams == s.teams && next.deliveries == s.deliveries
      && next.recipientDeliveries == s.recipientDeliveries && FromRows(next, rows)
  {
    if rows != [] {
      var earlier, last := rows[..|rows| - 1], rows[|rows| - 1];
      assert rows == earlier + [last];
      MessagesLoaded(s, earlier);
      var mid := LoadMessages(s, earlier);
      FromRowsGrows(mid, earlier, last);
      if last.team in s.teams {
        NewKeyIsUnused(mid, earlier, last);
        AddMessageKeeps(mid, last);
      }
    }
  }

  lemma NewKeyIsUnused(s: State, rows: seq<Message>, last: Message)
    requires KeysOk(s) && LinksOk(s) && DistinctKeys(s.teams.Keys, rows + [last]) && last.team in s.teams
    requires FromRows(s, rows)
    ensures last.id !in s.messages
    ensures MessageKey(last).Some? ==> MessageKey(last).value !in s.idempotency
  {
    var all := rows + [last];
    forall m | m in s.messages ensures m != last.id && (MessageKey(last).Some? ==> MessageKey(s.messages[m]) != MessageKey(last)) {
      var i :| 0 <= i < |rows| && rows[i] == s.messages[m];
      assert all[i] == s.messages[m] && all[|rows|] == last;
    }
  }

  ghost predicate LoadableDeliveries(s: State, rows: seq<Delivery>) {
    && (forall i, j :: 0 <= i < j < |rows| ==> rows[i].id != rows[j].id)
    && (forall i :: 0 <= i < |rows| && rows[i].team in s.teams && rows[i].message in s.messages ==>
          rows[i].team == s.messages[rows[i].message].team)
  }

  /** The ids of the rows that are kept for one recipient, in row order. */
  function RowQueue(s: State, rows: seq<Delivery>, recipient: Id): seq<Id> {
    if rows == [] then []
    else
      var last := rows[|rows| - 1];
      RowQueue(s, rows[..|rows| - 1], recipient)
      + if last.recipient == recipient && last.team in s.teams && last.message in s.messages then [last.id] else []
  }

  /** Every loaded delivery is one of the rows. */
  ghost predicate DeliveriesFrom(s: State, rows: seq<Delivery>) {
    forall d :: d in s.deliveries ==> exists i :: 0 <= i < |rows| && rows[i] == s.deliveries[d]
  }

  lemma NewDelivery(s: State, rows: seq<Delivery>)
    requires rows != [] && LinksOk(s) && DeliveriesFrom(s, rows[..|rows| - 1])
    requires forall i, j :: 0 <= i < j < |rows| ==> rows[i].id != rows[j].id
    ensures rows[|rows| - 1].id !in s.deliveries
  {
  }

  lemma DeliveriesCome(s: State, rows: seq<Delivery>)
    requires rows != [] && DeliveriesFrom(LoadDeliveries(s, rows[..|rows| - 1]), rows[..|rows| - 1])
    ensures DeliveriesFrom(LoadDeliveries(s, rows), rows)
  {
    var next, short := LoadDeliveries(s, rows), rows[..|rows| - 1];
    forall d | d in next.deliveries ensures exists i :: 0 <= i < |rows| && rows[i] == next.deliveries[d] {
      if next.deliveries[d] == rows[|rows| - 1] {
      } else {
        var i :| 0 <= i < |short| && short[i] == next.deliveries[d];
        assert rows[i] == next.deliveries[d];
      }
    }
  }

  lemma {:induction false} DeliveriesLoaded(s: State, rows: seq<Delivery>)
    requires RepInv(s) && s.deliveries == map[] && LoadableDeliveries(s, rows)
    ensures
      var next := LoadDeliveries(s, rows);
      && RepInv(next) && next.messages == s.messages && next.teams == s.teams && DeliveriesFrom(next, rows)
  {
    if rows != [] {
      var earlier, last := rows[..|rows| - 1], rows[|rows| - 1];
      DeliveriesLoaded(s, earlier);
      var mid := LoadDeliveries(s, earlier);
      DeliveriesCome(s, rows);
      if last.team in s.teams && last.message in s.messages {
        NewDelivery(mid, rows);
        hide RepInv, LoadableDeliveries;
        AddDeliveryKeeps(mid, last);
      }
    }
  }

  lemma {:induction false} QueuesLoaded(s: State, rows: seq<Delivery>, recipient: Id)
    requires s.recipientDeliveries == map[]
    ensures LoadDeliveries(s, rows).messages == s.messages && LoadDeliveries(s, rows).teams == s.teams
    ensures ListOf(LoadDeliveries(s, rows).recipientDeliveries, recipient) == RowQueue(s, rows, recipient)
  {
    if rows != [] {
      QueuesLoaded(s, rows[..|rows| - 1], recipient);
    }
  }

  /** The state has exactly the live teams. */
  ghost predicate HasLiveTeams(s: State, rows: Rows) {
    forall t :: t in s.teams <==> Live(rows, t)
  }

  lemma KeysOfRows(rows: Rows, s: State)
    requires WellFormed(rows) && HasLiveTeams(s, rows)
    ensures DistinctKeys(s.teams.Keys, rows.messages)
  {
    hide MessageKey, WasAdmitted, Live, HasLead;
  }

  lemma DeliveriesOfRows(rows: Rows, s: State)
    requires WellFormed(rows) && HasLiveTeams(s, rows) && FromRows(s, rows.messages) && LinksOk(s)
    ensures LoadableDeliveries(s, rows.deliveries)
  {
    hide MessageKey, WasAdmitted, Live, HasLead;
    forall i | 0 <= i < |rows.deliveries| && rows.deliveries[i].team in s.teams && rows.deliveries[i].message in s.messages
      ensures rows.deliveries[i].team == s.messages[rows.deliveries[i].message].team
    {
      var m := s.messages[rows.deliveries[i].message];
      var j :| 0 <= j < |rows.messages| && rows.messages[j] == m;
    }
  }

  lemma LinksHold(s: State)
    requires RepInv(s)
    ensures LinksOk(s)
  {
  }

  lemma SameTeams(s: State, next: State, rows: Rows)
    requires HasLiveTeams(s, rows) && next.teams == s.teams
    ensures HasLiveTeams(next, rows)
  {
  }

  /** Well-formed rows hydrate to a state in which every map agrees with every other. */
  lemma HydrationEstablishes(rows: Rows)
    requires WellFormed(rows)
    ensures RepInv(Hydrate(rows))
  {
    var s1 := LoadMembers(LoadTeams(Empty(), rows.teams), rows.members);
    TeamsAndMembersOk(rows);
    hide RepInv, LinksOk, WellFormed, HasLiveTeams, DistinctKeys, LoadableDeliveries, FromRows;
    KeysOfRows(rows, s1);
    MessagesLoaded(s1, rows.messages);
    var s2 := LoadMessages(s1, rows.messages);
    SameTeams(s1, s2, rows);
    LinksHold(s2);
    DeliveriesOfRows(rows, s2);
    DeliveriesLoaded(s2, rows.deliveries);
  }

  /** Each recipient's queue is the kept rows of that recipient in row order. */
  lemma QueuesFollowRows(rows: Rows, recipient: Id)
    requires WellFormed(rows)
    ensures
      var s := LoadMessages(LoadMembers(LoadTeams(Empty(), rows.teams), rows.members), rows.messages);
      ListOf(Hydrate(rows).recipientDeliveries, recipient) == RowQueue(s, rows.deliveries, recipient)
  {
    TeamsAndMembersOk(rows);
    var s1 := LoadMembers(LoadTeams(Empty(), rows.teams), rows.members);
    hide RepInv, WellFormed, HasLiveTeams, DistinctKeys, FromRows;
    KeysOfRows(rows, s1);
    MessagesLoaded(s1, rows.messages);
    var s := LoadMessages(s1, rows.messages);
    QueuesLoaded(s, rows.deliveries, recipient);
  }
}
