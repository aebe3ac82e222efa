/**
A restart: the rows that the calls of a service have stored, and what they hydrate to. Everything
comes back except the order of lists, which follows the order of the rows.
*/
module TeamRestart {
  import opened Wrappers
  import opened Text
  import opened TeamIndex
  import opened TeamState
  import opened TeamHydration
  import opened DeliveryMachine
  import opened DeliveryRuns

  // ---- The stored rows ----

  /** Each live team is stored as it is; rows of deleted teams remain and are marked. */
  ghost predicate TeamsStored(s: State, rows: seq<TeamRow>) {
    && (forall i, j :: 0 <= i < j < |rows| ==> rows[i].team.id != rows[j].team.id)
    && (forall i :: 0 <= i < |rows| && !rows[i].deleted ==>
          rows[i].team.id in s.teams && s.teams[rows[i].team.id] == rows[i].team)
    && (forall t :: t in s.teams ==> exists i :: 0 <= i < |rows| && !rows[i].deleted && rows[i].team.id == t)
  }

  ghost predicate MembersStored(s: State, rows: seq<Member>) {
    && (forall i :: 0 <= i < |rows| && rows[i].team in s.teams ==>
          rows[i].team in s.members && rows[i].agent in s.members[rows[i].team]
          && s.members[rows[i].team][rows[i].agent] == rows[i])
    && (forall t, a :: t in s.members && a in s.members[t] ==> exists i :: 0 <= i < |rows| && rows[i] == s.members[t][a])
  }

  ghost predicate MessagesStored(s: State, rows: seq<Message>) {
    && (forall i, j :: 0 <= i < j < |rows| ==> rows[i].id != rows[j].id)
    && (forall i :: 0 <= i < |rows| && rows[i].team in s.teams ==> rows[i].id in s.messages && s.messages[rows[i].id] == rows[i])
    && (forall m :: m in s.messages ==> exists i :: 0 <= i < |rows| && rows[i] == s.messages[m])
  }

  ghost predicate DeliveriesStored(s: State, rows: seq<Delivery>) {
    && (forall i, j :: 0 <= i < j < |rows| ==> rows[i].id != rows[j].id)
    && (forall i :: 0 <= i < |rows| && rows[i].team in s.teams ==>
          rows[i].id in s.deliveries && s.deliveries[rows[i].id] == rows[i])
    && (forall d :: d in s.deliveries ==> exists i :: 0 <= i < |rows| && rows[i] == s.deliveries[d])
  }

  /** The tables after every call has stored its records; of deleted teams they may hold anything. */
  ghost predicate Stored(s: State, rows: Rows) {
    && TeamsStored(s, rows.teams) && MembersStored(s, rows.members)
    && MessagesStored(s, rows.messages) && DeliveriesStored(s, rows.deliveries)
  }

  // ---- They are well formed ----

  lemma LiveAreTheTeams(s: State, rows: Rows)
    requires TeamsStored(s, rows.teams)
    ensures HasLiveTeams(s, rows)
  {
  }

  lemma LeadsStored(s: State, rows: Rows, i: nat)
    requires TeamsOk(s) && TeamsStored(s, rows.teams) && MembersStored(s, rows.members)
    requires i < |rows.teams| && !rows.teams[i].deleted
    ensures NoBar(rows.teams[i].team.id) && HasLead(rows, rows.teams[i].team)
  {
    hide NoBar;
    var team := rows.teams[i].team;
    assert team.lead in s.members[team.id] && MemberOk(s.members[team.id][team.lead], team.id, team.lead);
    var j :| 0 <= j < |rows.members| && rows.members[j] == s.members[team.id][team.lead];
  }

  lemma MembersPlain(s: State, rows: Rows, i: nat)
    requires TeamsOk(s) && MembersStored(s, rows.members) && i < |rows.members| && rows.members[i].team in s.teams
    ensures NoBar(rows.members[i].agent)
  {
    var m := rows.members[i];
    assert MemberOk(s.members[m.team][m.agent], m.team, m.agent);
  }

  lemma KeysDiffer(s: State, rows: seq<Message>, i: nat, j: nat)
    requires KeysOk(s) && MessagesStored(s, rows) && i < j < |rows| && rows[i].team in s.teams && rows[j].team in s.teams
    ensures MessageKey(rows[i]).None? || MessageKey(rows[i]) != MessageKey(rows[j])
  {
    hide MessageKey;
    assert rows[i].id != rows[j].id;
  }

  lemma TeamsAgree(s: State, rows: Rows, i: nat, j: nat)
    requires LinksOk(s) && MessagesStored(s, rows.messages) && DeliveriesStored(s, rows.deliveries)
    requires i < |rows.deliveries| && j < |rows.messages| && rows.deliveries[i].message == rows.messages[j].id
    requires rows.deliveries[i].team in s.teams && rows.messages[j].team in s.teams
    ensures rows.deliveries[i].team == rows.messages[j].team
  {
    hide WasAdmitted;
  }

  /** What a service has stored is what hydration needs. */
  lemma StoredRowsAreWellFormed(s: State, rows: Rows)
    requires RepInv(s) && Stored(s, rows)
    ensures WellFormed(rows)
  {
    LiveAreTheTeams(s, rows);
    assert TeamsOk(s) && LinksOk(s) && KeysOk(s);
    hide RepInv, ListsOk, LinksOk, KeysOk, TeamsOk, MembersStored, Live, NoBar, WasAdmitted, HasLead, MessageKey;
    forall i | 0 <= i < |rows.teams| && !rows.teams[i].deleted
      ensures NoBar(rows.teams[i].team.id) && HasLead(rows, rows.teams[i].team)
    {
      LeadsStored(s, rows, i);
    }
    forall i | 0 <= i < |rows.members| && Live(rows, rows.members[i].team) ensures NoBar(rows.members[i].agent) {
      MembersPlain(s, rows, i);
    }
    forall i | 0 <= i < |rows.messages| && Live(rows, rows.messages[i].team) ensures WasAdmitted(rows.messages[i]) {
      SenderPlain(s, rows.messages[i]);
    }
    forall i, j | 0 <= i < j < |rows.messages| && Live(rows, rows.messages[i].team) && Live(rows, rows.messages[j].team)
      ensures MessageKey(rows.messages[i]).None? || MessageKey(rows.messages[i]) != MessageKey(rows.messages[j])
    {
      KeysDiffer(s, rows.messages, i, j);
    }
    forall i, j | 0 <= i < |rows.deliveries| && 0 <= j < |rows.messages| && rows.deliveries[i].message == rows.messages[j].id
                  && Live(rows, rows.deliveries[i].team) && Live(rows, rows.messages[j].team)
      ensures rows.deliveries[i].team == rows.messages[j].team
    {
      TeamsAgree(s, rows, i, j);
    }
    hide MessagesStored, DeliveriesStored, HasLiveTeams;
  }

  lemma SenderPlain(s: State, m: Message)
    requires LinksOk(s) && m.id in s.messages && s.messages[m.id] == m
    ensures WasAdmitted(m)
  {
  }

  // ---- What comes back ----

  lemma TeamsReturn(s: State, rows: seq<TeamRow>)
    requires TeamsStored(s, rows)
    ensures LoadTeams(Empty(), rows).teams == s.teams
  {
    TeamsLoaded(rows);
  }

  /** Every member entry loaded so far is the one the service has. */
  ghost predicate WithinMembers(s: State, members: map<Id, map<Id, Member>>) {
    forall t, a :: t in members && a in members[t] ==> t in s.members && a in s.members[t] && s.members[t][a] == members[t][a]
  }

  lemma {:induction false} MembersWithin(s: State, start: State, rows: seq<Member>)
    requires start.members == map[] && start.teams.Keys == s.teams.Keys && MembersStored(s, rows)
    ensures WithinMembers(s, LoadMembers(start, rows).members) && LoadMembers(start, rows).teams == start.teams
    ensures forall i :: 0 <= i < |rows| && rows[i].team in s.teams ==> Holds(LoadMembers(start, rows), rows[i])
  {
    WithinFirst(s, start, rows, |rows|);
    assert rows[..|rows|] == rows;
  }

  lemma {:induction false} WithinFirst(s: State, start: State, rows: seq<Member>, k: nat)
    requires start.members == map[] && start.teams.Keys == s.teams.Keys && MembersStored(s, rows) && k <= |rows|
    ensures WithinMembers(s, LoadMembers(start, rows[..k]).members) && LoadMembers(start, rows[..k]).teams == start.teams
    ensures forall i :: 0 <= i < k && rows[i].team in s.teams ==> Holds(LoadMembers(start, rows[..k]), rows[i])
  {
    if k > 0 {
      WithinFirst(s, start, rows, k - 1);
      assert rows[..k][..k - 1] == rows[..k - 1];
      OneMoreMember(s, LoadMembers(start, rows[..k - 1]), rows[k - 1]);
      hide LoadMember, WithinMembers, Holds;
    }
  }

  lemma OneMoreMember(s: State, now: State, m: Member)
    requires WithinMembers(s, now.members) && now.teams.Keys == s.teams.Keys
    requires m.team in s.teams ==> m.team in s.members && m.agent in s.members[m.team] && s.members[m.team][m.agent] == m
    ensures WithinMembers(s, LoadMember(now, m).members) && LoadMember(now, m).teams == now.teams
    ensures m.team in s.teams ==> Holds(LoadMember(now, m), m)
    ensures forall x :: Holds(now, x) ==> Holds(LoadMember(now, m), x)
  {
  }

  lemma MembersReturn(s: State, start: State, rows: seq<Member>)
    requires TeamsOk(s) && start.members == map[] && start.teams == s.teams && MembersStored(s, rows)
    requires TeamsOk(LoadMembers(start, rows))
    ensures LoadMembers(start, rows).members == s.members
  {
    hide MemberOk, NoBar;
    var next := LoadMembers(start, rows);
    MembersWithin(s, start, rows);
    forall t | t in s.members ensures t in next.members && next.members[t] == s.members[t] {
      SameTable(s, next, rows, t);
    }
  }

  lemma SameTable(s: State, next: State, rows: seq<Member>, t: Id)
    requires TeamsOk(s) && next.teams == s.teams && MembersStored(s, rows) && WithinMembers(s, next.members) && t in s.members
    requires next.members.Keys == next.teams.Keys
    requires forall i :: 0 <= i < |rows| && rows[i].team in s.teams ==> Holds(next, rows[i])
    ensures t in next.members && next.members[t] == s.members[t]
  {
    hide NoBar;
    forall a | a in s.members[t] ensures a in next.members[t] {
      assert MemberOk(s.members[t][a], t, a);
      var i :| 0 <= i < |rows| && rows[i] == s.members[t][a];
      assert Holds(next, rows[i]);
    }
  }

  lemma {:induction false} MessagesKept(start: State, rows: seq<Message>)
    requires start.messages == map[] && forall i, j :: 0 <= i < j < |rows| ==> rows[i].id != rows[j].id
    ensures
      var next := LoadMessages(start, rows);
      && next.teams == start.teams && next.members == start.members && FromRows(next, rows)
      && (forall m :: m in next.messages ==> next.messages[m].id == m && next.messages[m].team in start.teams)
      && (forall i :: 0 <= i < |rows| && rows[i].team in start.teams ==> rows[i].id in next.messages && next.messages[rows[i].id] == rows[i])
  {
    if rows != [] {
      hide Push;
      var short, last := rows[..|rows| - 1], rows[|rows| - 1];
      MessagesKept(start, short);
      assert short + [last] == rows;
      FromRowsGrows(LoadMessages(start, short), short, last);
    }
  }

  lemma MessagesReturn(s: State, start: State, rows: seq<Message>)
    requires LinksOk(s) && start.messages == map[] && start.teams == s.teams && MessagesStored(s, rows)
    ensures LoadMessages(start, rows).messages == s.messages
  {
    hide WasAdmitted;
    var next := LoadMessages(start, rows);
    MessagesKept(start, rows);
    forall m | m in s.messages ensures m in next.messages && next.messages[m] == s.messages[m] {
      var i :| 0 <= i < |rows| && rows[i] == s.messages[m];
    }
    forall m | m in next.messages ensures m in s.messages {
      var i :| 0 <= i < |rows| && rows[i] == next.messages[m];
    }
  }

  /** The deliveries loaded are those of the rows whose team and message are there. */
  ghost predicate Came(next: State, start: State, rows: seq<Delivery>) {
    && (forall d :: d in next.deliveries ==> next.deliveries[d].id == d && next.deliveries[d].team in start.teams)
    && (forall i :: 0 <= i < |rows| && rows[i].team in start.teams && rows[i].message in start.messages ==>
          rows[i].id in next.deliveries && next.deliveries[rows[i].id] == rows[i])
  }

  lemma OneMoreCame(now: State, start: State, short: seq<Delivery>, last: Delivery)
    requires Came(now, start, short) && now.teams == start.teams && now.messages == start.messages
    requires forall i :: 0 <= i < |short| ==> short[i].id != last.id
    ensures Came(LoadDelivery(now, last), start, short + [last])
  {
    hide Push;
  }

  lemma {:induction false} DeliveriesKept(start: State, rows: seq<Delivery>)
    requires start.deliveries == map[] && forall i, j :: 0 <= i < j < |rows| ==> rows[i].id != rows[j].id
    ensures
      var next := LoadDeliveries(start, rows);
      && next.teams == start.teams && next.members == start.members && next.messages == start.messages
      && DeliveriesFrom(next, rows) && Came(next, start, rows)
  {
    if rows != [] {
      var short, last := rows[..|rows| - 1], rows[|rows| - 1];
      assert rows == short + [last];
      DeliveriesKept(start, short);
      DeliveriesCome(start, rows);
      OneMoreCame(LoadDeliveries(start, short), start, short, last);
      hide Came, DeliveriesFrom, Push;
    }
  }

  lemma DeliveriesReturn(s: State, start: State, rows: seq<Delivery>)
    requires LinksOk(s) && start.deliveries == map[] && start.teams == s.teams && start.messages == s.messages
    requires DeliveriesStored(s, rows)
    ensures LoadDeliveries(start, rows).deliveries == s.deliveries
  {
    hide WasAdmitted;
    var next := LoadDeliveries(start, rows);
    DeliveriesKept(start, rows);
    forall d | d in s.deliveries ensures d in next.deliveries && next.deliveries[d] == s.deliveries[d] {
      var i :| 0 <= i < |rows| && rows[i] == s.deliveries[d];
    }
    forall d | d in next.deliveries ensures d in s.deliveries {
      var i :| 0 <= i < |rows| && rows[i] == next.deliveries[d];
    }
  }

  // ---- The rest is determined ----

  /** The same lists, apart from their order. */
  ghost predicate SameLists(a: map<Id, seq<Id>>, b: map<Id, seq<Id>>) {
    a.Keys == b.Keys && forall k :: k in a ==> multiset(a[k]) == multiset(b[k])
  }

  ghost predicate SameUpToOrder(a: State, b: State) {
    && a.teams == b.teams && a.members == b.members && a.messages == b.messages && a.deliveries == b.deliveries
    && a.idempotency == b.idempotency && SameLists(a.teamMessages, b.teamMessages)
    && forall column :: SameLists(Lists(a, column), Lists(b, column))
  }

  lemma {:induction false} SameElements(a: seq<Id>, b: seq<Id>)
    requires NoRepeats(a) && NoRepeats(b) && forall x :: x in a <==> x in b
    ensures multiset(a) == multiset(b)
  {
    forall x ensures multiset(a)[x] == multiset(b)[x] {
      Once(a, x);
      Once(b, x);
    }
  }

  lemma {:induction false} Once(ids: seq<Id>, x: Id)
    requires NoRepeats(ids)
    ensures multiset(ids)[x] == if x in ids then 1 else 0
  {
    if ids != [] {
      Once(ids[1..], x);
      assert ids == [ids[0]] + ids[1..];
    }
  }

  lemma IndexDetermines(a: map<Id, seq<Id>>, b: map<Id, seq<Id>>, owner: map<Id, Id>)
    requires Indexes(a, owner) && Indexes(b, owner)
    ensures SameLists(a, b)
  {
    forall k | k in a ensures k in b {
      assert a[k][0] in owner;
    }
    forall k | k in b ensures k in a {
      assert b[k][0] in owner;
    }
    forall k | k in a ensures multiset(a[k]) == multiset(b[k]) {
      assert forall x :: x in a[k] <==> x in owner && owner[x] == k;
      SameElements(a[k], b[k]);
    }
  }

  lemma KeysDetermine(a: State, b: State)
    requires KeysOk(a) && KeysOk(b) && a.messages == b.messages
    ensures a.idempotency == b.idempotency
  {
    hide MessageKey;
  }

  lemma RepInvDetermines(a: State, b: State)
    requires RepInv(a) && RepInv(b) && a.teams == b.teams && a.members == b.members
    requires a.messages == b.messages && a.deliveries == b.deliveries
    ensures SameUpToOrder(a, b)
  {
    assert Indexes(a.teamMessages, MessageTeams(a.messages)) && Indexes(b.teamMessages, MessageTeams(b.messages));
    assert KeysOk(a) && KeysOk(b);
    forall column ensures SameLists(Lists(a, column), Lists(b, column)) {
      assert ColumnOk(a, column) && ColumnOk(b, column);
      hide Indexes, SameLists, Lists, Owners;
      IndexDetermines(Lists(a, column), Lists(b, column), Owners(a.deliveries, column));
    }
    hide RepInv, Indexes, SameLists, KeysOk, MessageTeams;
    IndexDetermines(a.teamMessages, b.teamMessages, MessageTeams(a.messages));
    KeysDetermine(a, b);
  }

  lemma RecordsReturn(s: State, rows: Rows)
    requires RepInv(s) && Stored(s, rows) && WellFormed(rows)
    ensures
      var next := Hydrate(rows);
      next.teams == s.teams && next.members == s.members && next.messages == s.messages && next.deliveries == s.deliveries
  {
    var s0 := LoadTeams(Empty(), rows.teams);
    var s1 := LoadMembers(s0, rows.members);
    var s2 := LoadMessages(s1, rows.messages);
    TeamsAndMembersOk(rows);
    TeamsLoaded(rows.teams);
    assert TeamsOk(s) && LinksOk(s) && TeamsOk(s1);
    hide RepInv, TeamsOk, LinksOk, WellFormed, TeamsStored, MembersStored, MessagesStored, DeliveriesStored;
    TeamsReturn(s, rows.teams);
    MembersReturn(s, s0, rows.members);
    MembersWithin(s, s0, rows.members);
    MessagesReturn(s, s1, rows.messages);
    DistinctMessages(s, rows.messages);
    MessagesKept(s1, rows.messages);
    NoDeliveriesYet(s1, rows.messages);
    DeliveriesReturn(s, s2, rows.deliveries);
    DistinctDeliveries(s, rows.deliveries);
    DeliveriesKept(s2, rows.deliveries);
  }

  lemma DistinctMessages(s: State, rows: seq<Message>)
    requires MessagesStored(s, rows)
    ensures forall i, j :: 0 <= i < j < |rows| ==> rows[i].id != rows[j].id
  {
  }

  lemma DistinctDeliveries(s: State, rows: seq<Delivery>)
    requires DeliveriesStored(s, rows)
    ensures forall i, j :: 0 <= i < j < |rows| ==> rows[i].id != rows[j].id
  {
  }

  lemma {:induction false} NoDeliveriesYet(s: State, rows: seq<Message>)
    ensures LoadMessages(s, rows).deliveries == s.deliveries
  {
    if rows != [] {
      NoDeliveriesYet(s, rows[..|rows| - 1]);
    }
  }

  /**
  After any run of the service, the rows it has stored are well formed, and they hydrate to the same state
  up to the order of the id lists.
  */
  lemma RestartRestores(m: Machine, steps: seq<Step>, rows: Rows)
    requires Start(m) && Stored(Run(m, steps).s, rows)
    ensures WellFormed(rows) && RepInv(Hydrate(rows)) && SameUpToOrder(Run(m, steps).s, Hydrate(rows))
  {
    EveryRunKeepsTheMaps(m, steps);
    var s := Run(m, steps).s;
    StoredRowsAreWellFormed(s, rows);
    hide RepInv, Stored, WellFormed, Run, Start, Hydrate;
    HydrationEstablishes(rows);
    RecordsReturn(s, rows);
    RepInvDetermines(s, Hydrate(rows));
  }

  // ---- Queue order ----

  /** The order of the rows: creation time, then the text of the id. */
  predicate Before(created: map<Id, int>, a: Id, b: Id) {
    && a in created && b in created
    && (created[a] < created[b] || (created[a] == created[b] && LexLess(a, b)))
  }

  ghost predicate Sorted(created: map<Id, int>, ids: seq<Id>) {
    forall i, j :: 0 <= i < j < |ids| ==> Before(created, ids[i], ids[j])
  }

  ghost predicate RowsSorted(created: map<Id, int>, rows: seq<Delivery>) {
    forall i, j :: 0 <= i < j < |rows| ==> Before(created, rows[i].id, rows[j].id)
  }

  lemma BeforeIsStrict(created: map<Id, int>, a: Id, b: Id)
    requires Before(created, a, b)
    ensures a != b && !Before(created, b, a)
  {
    LexTotal(a, b);
  }

  lemma {:induction false} QueueIsSorted(s: State, rows: seq<Delivery>, recipient: Id, created: map<Id, int>)
    requires RowsSorted(created, rows)
    ensures Sorted(created, RowQueue(s, rows, recipient))
    ensures forall x :: x in RowQueue(s, rows, recipient) ==> exists i :: 0 <= i < |rows| && rows[i].id == x
  {
    hide Before;
    if rows != [] {
      var short, last := rows[..|rows| - 1], rows[|rows| - 1];
      QueueIsSorted(s, short, recipient, created);
      forall x | x in RowQueue(s, short, recipient) ensures Before(created, x, last.id) {
        var i :| 0 <= i < |short| && short[i].id == x;
        assert Before(created, rows[i].id, rows[|rows| - 1].id);
      }
      forall x | x in RowQueue(s, rows, recipient) ensures exists i :: 0 <= i < |rows| && rows[i].id == x {
        if x in RowQueue(s, short, recipient) {
          var i :| 0 <= i < |short| && short[i].id == x;
          assert rows[i].id == x;
        }
      }
    }
  }

  lemma RestOfSorted(created: map<Id, int>, ids: seq<Id>)
    requires Sorted(created, ids) && ids != []
    ensures Sorted(created, ids[1..]) && forall x :: x in ids[1..] <==> x in ids && x != ids[0]
  {
    hide Before;
    forall x | x in ids[1..] ensures x != ids[0] {
      var i :| 0 <= i < |ids[1..]| && ids[1..][i] == x;
      assert Before(created, ids[0], ids[i + 1]);
      BeforeIsStrict(created, ids[0], ids[i + 1]);
    }
  }

  lemma FirstIsFirst(created: map<Id, int>, a: seq<Id>, b: seq<Id>)
    requires Sorted(created, a) && Sorted(created, b) && a != [] && b != [] && a[0] in b && b[0] in a
    ensures a[0] == b[0]
  {
    hide Before;
    var i :| 0 <= i < |b| && b[i] == a[0];
    var j :| 0 <= j < |a| && a[j] == b[0];
    if i > 0 && j > 0 {
      BeforeIsStrict(created, b[0], b[i]);
    }
  }

  /** A sorted list is determined by its elements. */
  lemma {:induction false} SortedIsUnique(created: map<Id, int>, a: seq<Id>, b: seq<Id>)
    requires Sorted(created, a) && Sorted(created, b) && forall x :: x in a <==> x in b
    ensures a == b
  {
    hide Sorted;
    assert (a != [] ==> a[0] in a) && (b != [] ==> b[0] in b);
    if a != [] && b != [] {
      FirstIsFirst(created, a, b);
      RestOfSorted(created, a);
      RestOfSorted(created, b);
      SortedIsUnique(created, a[1..], b[1..]);
      assert a == [a[0]] + a[1..] && b == [b[0]] + b[1..];
    }
  }

  /**
  A restart keeps a recipient's queue in order exactly when the queue was in the order of creation time and
  then id; deliveries of one millisecond whose ids sort otherwise change places.
  */
  lemma RestartKeepsQueueExactlyWhen(m: Machine, steps: seq<Step>, rows: Rows, created: map<Id, int>, recipient: Id)
    requires Start(m) && Stored(Run(m, steps).s, rows) && RowsSorted(created, rows.deliveries)
    ensures
      var queue := ListOf(Run(m, steps).s.recipientDeliveries, recipient);
      ListOf(Hydrate(rows).recipientDeliveries, recipient) == queue <==> Sorted(created, queue)
  {
    RestartRestores(m, steps, rows);
    var s, next := Run(m, steps).s, Hydrate(rows);
    var kept := LoadMessages(LoadMembers(LoadTeams(Empty(), rows.teams), rows.members), rows.messages);
    QueuesFollowRows(rows, recipient);
    QueueIsSorted(kept, rows.deliveries, recipient, created);
    hide Run, Hydrate, RepInv, WellFormed, Start, Stored, Sorted, RowsSorted, RowQueue;
    var queue, again := ListOf(s.recipientDeliveries, recipient), ListOf(next.recipientDeliveries, recipient);
    assert SameLists(Lists(s, ByRecipient), Lists(next, ByRecipient));
    assert multiset(queue) == multiset(again);
    if Sorted(created, queue) {
      forall x ensures x in queue <==> x in again {
        assert x in queue <==> x in multiset(queue);
        assert x in again <==> x in multiset(again);
      }
      SortedIsUnique(created, queue, again);
    }
  }
}
