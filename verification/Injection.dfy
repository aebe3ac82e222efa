/** The pieces of `inject_delivery`: what it reads, how it decides, and what it looks for in the queue. */
module Injection {
  import opened Wrappers
  import opened TeamIndex
  import opened TeamState

  datatype Trigger = Queue | Retried | TurnCompletedBoundary | StartupRecovery

  /** What the session manager answers about the recipient. */
  datatype SessionAnswer = NoSession | Found(status: string, active: bool)

  datatype SendAnswer = Accepted(turn: Id) | OwnershipRejected | ProviderRejected

  datatype Env = Env(session: SessionAnswer, interruptOk: bool, send: SendAnswer)

  /** Give up, write a final status, or go on and claim the delivery. */
  datatype Decision = Stop | Move(next: Status, code: Option<string>) | Proceed

  function Decide(d: Delivery, m: Message, trigger: Trigger, env: Env): Decision {
    var policy := NormalizePolicy(d.policy.GetOr(m.policy));
    if policy.None? then Stop
    else
      match env.session
      case NoSession => Move(Failed, Some("recipient_session_not_found"))
      case Found(status, active) =>
        if status == "closed" || status == "failed" then Move(Failed, Some("recipient_session_closed"))
        else if !active then Proceed
        else if policy.value == "immediate_interrupt" then
          if env.interruptOk then Proceed else Stop
        else if policy.value == "interrupt_after_tool_boundary" && trigger == TurnCompletedBoundary then
          if env.interruptOk then Proceed else Stop
        else Move(Deferred, None)
  }

  /** The first delivery ahead of `id` in a queue that is known and not terminal. */
  function FirstOpen(ids: seq<Id>, id: Id, deliveries: map<Id, Delivery>): Option<Id> {
    if ids == [] || ids[0] == id then None
    else if ids[0] in deliveries && !IsTerminal(deliveries[ids[0]].status) then Some(ids[0])
    else FirstOpen(ids[1..], id, deliveries)
  }

  function QueueOf(s: State, recipient: Id): seq<Id> {
    ListOf(s.recipientDeliveries, recipient)
  }

  function Blocker(s: State, d: Delivery): Option<Id> {
    FirstOpen(QueueOf(s, d.recipient), d.id, s.deliveries)
  }

  /** Everything ahead of a delivery in its recipient's queue is terminal. */
  ghost predicate AheadTerminal(s: State, d: Id)
    requires d in s.deliveries
  {
    forall a :: Ahead(QueueOf(s, s.deliveries[d].recipient), a, d) && a in s.deliveries ==>
      IsTerminal(s.deliveries[a].status)
  }

  lemma {:induction false} FirstOpenNone(ids: seq<Id>, id: Id, deliveries: map<Id, Delivery>, k: nat)
    requires NoRepeats(ids) && FirstOpen(ids, id, deliveries).None? && id in ids
    requires k < |ids| && Ahead(ids, ids[k], id)
    ensures ids[k] in deliveries ==> IsTerminal(deliveries[ids[k]].status)
  {
    var i, j :| 0 <= i < j < |ids| && ids[i] == ids[k] && ids[j] == id;
    assert i == k;
    if k > 0 {
      assert ids[1..][k - 1] == ids[k] && ids[1..][j - 1] == id;
      assert Ahead(ids[1..], ids[1..][k - 1], id);
      FirstOpenNone(ids[1..], id, deliveries, k - 1);
    }
  }

  /** A delivery without a blocker is first in line. */
  lemma NoBlockerMeansFirst(s: State, d: Id)
    requires RepInv(s) && d in s.deliveries && Blocker(s, s.deliveries[d]).None?
    ensures AheadTerminal(s, d)
  {
    var queue := QueueOf(s, s.deliveries[d].recipient);
    assert ColumnOk(s, ByRecipient) && LinksOk(s);
    assert d in Owners(s.deliveries, ByRecipient);
    forall a | Ahead(queue, a, d) && a in s.deliveries ensures IsTerminal(s.deliveries[a].status) {
      var i, j :| 0 <= i < j < |queue| && queue[i] == a && queue[j] == d;
      FirstOpenNone(queue, d, s.deliveries, i);
    }
  }

  /** Conversely, a blocker is ahead and open. */
  lemma {:induction false} BlockerIsAhead(ids: seq<Id>, id: Id, deliveries: map<Id, Delivery>)
    requires FirstOpen(ids, id, deliveries).Some? && id in ids
    ensures
      var b := FirstOpen(ids, id, deliveries).value;
      b in deliveries && !IsTerminal(deliveries[b].status) && Ahead(ids, b, id)
  {
    if ids[0] in deliveries && !IsTerminal(deliveries[ids[0]].status) {
      var j :| 0 <= j < |ids| && ids[j] == id;
      assert ids[0] == ids[0] && j > 0;
    } else {
      BlockerIsAhead(ids[1..], id, deliveries);
      AheadInTail(ids, FirstOpen(ids, id, deliveries).value, id);
    }
  }
}
