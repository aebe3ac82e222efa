/** What the idempotency index gives senders. */
module TeamSends {
  import opened Wrappers
  import opened Text
  import opened TeamIndex
  import opened TeamState
  import opened DeliveryMachine
  import opened DeliveryRuns

  /** A send's identity: who sends what kind of message to which team under which key. */
  datatype SendId = SendId(team: Id, sender: Id, scope: string, key: string)

  predicate Carries(m: Message, id: SendId) {
    m.team == id.team && m.sender == id.sender && m.scope == id.scope && NonEmpty(m.key) == Some(id.key)
  }

  /** At most one live message carries a send's identity. */
  lemma OneMessagePerSend(s: State, id: SendId, a: Id, b: Id)
    requires RepInv(s) && a in s.messages && b in s.messages
    requires Carries(s.messages[a], id) && Carries(s.messages[b], id)
    ensures a == b
  {
    assert MessageKey(s.messages[a]) == MessageKey(s.messages[b]);
    assert KeysOk(s);
  }

  lemma {:induction false} ResolveAll(deliveries: map<Id, Delivery>, ids: seq<Id>)
    requires forall d :: d in ids ==> d in deliveries
    ensures |Resolve(deliveries, ids)| == |ids|
    ensures forall i :: 0 <= i < |ids| ==> Resolve(deliveries, ids)[i] == deliveries[ids[i]]
  {
    if ids != [] {
      ResolveAll(deliveries, ids[..|ids| - 1]);
    }
  }

  /** What an acknowledgement of an earlier message must hold: its deliveries as they are now, each once. */
  ghost predicate Current(s: State, message: Id, ds: seq<Delivery>) {
    && (forall i :: 0 <= i < |ds| ==> ds[i].id in s.deliveries && s.deliveries[ds[i].id] == ds[i] && ds[i].message == message)
    && (forall i, j :: 0 <= i < j < |ds| ==> ds[i].id != ds[j].id)
    && (forall d :: d in s.deliveries && s.deliveries[d].message == message ==> exists i :: 0 <= i < |ds| && ds[i].id == d)
  }

  lemma ListedIsCurrent(s: State, message: Id)
    requires RepInv(s)
    ensures Current(s, message, Resolve(s.deliveries, ListOf(s.messageDeliveries, message)))
  {
    var ids := ListOf(s.messageDeliveries, message);
    ListedExactly(s, message);
    hide RepInv;
    ResolveAll(s.deliveries, ids);
  }

  lemma ListedExactly(s: State, message: Id)
    requires RepInv(s)
    ensures
      var ids := ListOf(s.messageDeliveries, message);
      && NoRepeats(ids)
      && (forall d :: d in ids ==> d in s.deliveries && s.deliveries[d].id == d && s.deliveries[d].message == message)
      && (forall d :: d in s.deliveries && s.deliveries[d].message == message ==> d in ids)
  {
    var ids := ListOf(s.messageDeliveries, message);
    var owners := Owners(s.deliveries, ByMessage);
    assert ColumnOk(s, ByMessage) && LinksOk(s);
    hide RepInv, WasAdmitted;
    forall d | d in ids ensures d in s.deliveries && s.deliveries[d].message == message {
      assert d in owners && owners[d] == message;
    }
    forall d | d in s.deliveries && s.deliveries[d].message == message ensures d in ids {
      assert d in owners;
    }
  }

  /**
  While the message of a send is live, an accepted resend of it changes nothing and returns that
  message with its current deliveries.
  */
  lemma ResendReturnsTheMessage(s: State, id: SendId, message: Id, a: Admitted, newId: Id, newIds: seq<Id>, body: string)
    requires RepInv(s) && message in s.messages && Carries(s.messages[message], id)
    requires a.sender == id.sender && a.scope == id.scope && a.key == Some(id.key)
    requires CreateMessage(s, id.team, a, newId, newIds, body).Ok?
    ensures
      var (next, ack) := CreateMessage(s, id.team, a, newId, newIds, body).value;
      next == s && !ack.created && ack.message == s.messages[message] && Current(s, message, ack.deliveries)
  {
    assert MessageKey(s.messages[message]) == AdmittedKey(id.team, a);
    assert KeysOk(s);
    ListedIsCurrent(s, message);
  }

  /**
  Conversely, what an admitted send of a member finds in the index carries the send's own identity: team
  ids, members' ids and scopes hold no bar, so no other send shares its key.
  */
  lemma FoundMessageCarries(s: State, team: Id, a: Admitted)
    requires RepInv(s) && Normal(a) && Belong(s, team, a) && Earlier(s, team, a).Some?
    ensures Carries(s.messages[Earlier(s, team, a).value], SendId(team, a.sender, a.scope, a.key.value))
  {
    var m := s.messages[Earlier(s, team, a).value];
    assert KeysOk(s) && TeamsOk(s) && LinksOk(s);
    assert MessageKey(m) == AdmittedKey(team, a) && WasAdmitted(m);
    assert MemberOk(s.members[team][a.sender], team, a.sender);
    hide RepInv;
    ScopesHaveNoBar(a.scope);
    ScopesHaveNoBar(m.scope);
    IdempotencyKeyIsInjective(m.team, m.sender, m.scope, NonEmpty(m.key).value, team, a.sender, a.scope, a.key.value);
  }

  lemma ScopesHaveNoBar(scope: string)
    requires IsScope(scope)
    ensures NoBar(scope)
  {
  }

  /**
  Over every run, and with no condition on the ids a caller names: if an admitted send finds a message, it is
  one that was sent to the same team, by the same sender, in the same scope and under the same key.
  */
  lemma SendsFindTheirOwn(m: Machine, steps: seq<Step>, req: Request, sessions: Sessions, maxPending: nat)
    requires Start(m) && Admit(req, sessions, maxPending).Ok?
    ensures
      var s, a := Run(m, steps).s, Admit(req, sessions, maxPending).value;
      Belong(s, req.team, a) && Earlier(s, req.team, a).Some? ==>
        Carries(s.messages[Earlier(s, req.team, a).value], SendId(req.team, a.sender, a.scope, a.key.value))
  {
    hide Start, Admit, Run, RepInv, Belong, Earlier;
    AdmittedIsNormal(req, sessions, maxPending);
    var s, a := Run(m, steps).s, Admit(req, sessions, maxPending).value;
    RepInvInRuns(m, steps);
    if Belong(s, req.team, a) && Earlier(s, req.team, a).Some? {
      FoundMessageCarries(s, req.team, a);
    }
  }

  lemma RepInvInRuns(m: Machine, steps: seq<Step>)
    requires Start(m)
    ensures RepInv(Run(m, steps).s)
  {
    EveryRunKeepsTheMaps(m, steps);
  }

  /** Deleting a team leaves the index exact: other teams' sends are still found, the team's own are not. */
  lemma DeleteForgetsOnlyTheTeam(s: State, team: Id, m: Id)
    requires RepInv(s) && team in s.teams && m in s.messages && MessageKey(s.messages[m]).Some?
    ensures
      var next := DeleteTeam(s, team).value;
      var key := MessageKey(s.messages[m]).value;
      (key in next.idempotency && next.idempotency[key] == m) <==> s.messages[m].team != team
  {
    PurgeIsExact(s, team);
    assert KeysOk(s);
  }
}
