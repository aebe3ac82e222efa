/**
Service calls taken one at a time: `inject_delivery` from its first look to its last write, and the
announcement that a message is complete.
*/
module DeliveryCalls {
  import opened Wrappers
  import opened TeamIndex
  import opened TeamState
  import opened Injection

  /** The state, and the messages whose completion was announced, in order. */
  datatype World = World(s: State, completed: seq<Id>)

  /** `message_terminal_state`; a message without deliveries counts as done. */
  predicate MessageDone(s: State, message: Id) {
    forall d :: d in ListOf(s.messageDeliveries, message) ==> d in s.deliveries && IsTerminal(s.deliveries[d].status)
  }

  /** The compare-and-set goes through. */
  predicate Lands(s: State, current: Delivery, next: Status) {
    IsValidTransition(current.status, next) && current.id in s.deliveries
    && s.deliveries[current.id].status == current.status
  }

  function Announce(w: World, message: Id): World {
    if MessageDone(w.s, message) then w.(completed := w.completed + [message]) else w
  }

  /** `transition_delivery_status` with its announcement. */
  function MoveTo(w: World, current: Delivery, next: Status, strategy: Option<string>, code: Option<string>):
    (World, Result<Delivery, Error>)
  {
    var (s, r) := Transition(w.s, current, next, strategy, code);
    (if Lands(w.s, current, next) then Announce(w.(s := s), current.message) else w, r)
  }

  /** What is made of the provider's answer. */
  function Conclude(w: World, d: Delivery, answer: SendAnswer): (World, Result<Delivery, Error>) {
    match answer
    case Accepted(turn) =>
      var (after, r) := MoveTo(w, d, Injected, Some("runtime_send_turn"), None);
      (if r.Ok? then after.(s := Stamp(after.s, r.value.id, turn)) else after, r)
    case OwnershipRejected => MoveTo(w, d, Deferred, None, Some("turn_ownership_rejected"))
    case ProviderRejected => MoveTo(w, d, Failed, None, Some("provider_rejected"))
  }

  /** The claim, the send and its settlement. */
  function ClaimAndSend(w: World, d: Delivery, answer: SendAnswer): (World, Result<Delivery, Error>) {
    var (after, claim) := MoveTo(w, d, Injecting, None, None);
    if claim.Err? then (after, claim) else Conclude(after, claim.value, answer)
  }

  function Inject(w: World, id: Id, trigger: Trigger, env: Env): (World, Result<Delivery, Error>) {
    if id !in w.s.deliveries then (w, Err(NotFound))
    else
      var d := w.s.deliveries[id];
      if d.message !in w.s.messages then (w, Err(InvalidState))
      else if !IsOpen(d.status) then (w, Ok(d))
      else if Blocker(w.s, d).Some? then
        if d.status.Pending? then MoveTo(w, d, Deferred, None, None) else (w, Ok(d))
      else
        match Decide(d, w.s.messages[d.message], trigger, env)
        case Stop => (w, Err(InvalidState))
        case Move(next, code) => MoveTo(w, d, next, None, code)
        case Proceed => ClaimAndSend(w, d, env.send)
  }

  /** A write that lands changes the one record, to the status asked for. */
  lemma MoveToLands(w: World, d: Delivery, next: Status, strategy: Option<string>, code: Option<string>)
    requires Lands(w.s, d, next) && d == w.s.deliveries[d.id]
    ensures
      var (after, r) := MoveTo(w, d, next, strategy, code);
      r == Ok(Moved(d, next, strategy, code)) && after.s == PutDelivery(w.s, Moved(d, next, strategy, code))
  {
  }

  /** The record an attempt leaves when nothing stops it. */
  function Sent(d: Delivery, answer: SendAnswer): Delivery {
    match answer
    case Accepted(turn) => Delivery(d.id, d.message, d.team, d.recipient, Injected, d.policy, Some("runtime_send_turn"), Some(turn), None)
    case OwnershipRejected => Delivery(d.id, d.message, d.team, d.recipient, Deferred, d.policy, d.strategy, None, None)
    case ProviderRejected =>
      Delivery(d.id, d.message, d.team, d.recipient, Failed, d.policy, d.strategy, None, Some("provider_rejected"))
  }

  lemma ConcludeSends(w: World, d: Delivery, answer: SendAnswer)
    requires d.id in w.s.deliveries && w.s.deliveries[d.id] == d && d.status.Injecting?
    ensures Conclude(w, d, answer).0.s == PutDelivery(w.s, Sent(d, answer))
  {
    match answer {
      case Accepted(turn) =>
        MoveToLands(w, d, Injected, Some("runtime_send_turn"), None);
        var moved := Moved(d, Injected, Some("runtime_send_turn"), None);
        assert w.s.deliveries[d.id := moved][d.id := moved.(turn := Some(turn))] == w.s.deliveries[d.id := Sent(d, answer)];
      case OwnershipRejected => MoveToLands(w, d, Deferred, None, Some("turn_ownership_rejected"));
      case ProviderRejected => MoveToLands(w, d, Failed, None, Some("provider_rejected"));
    }
  }

  lemma SentOfClaimed(d: Delivery, answer: SendAnswer)
    ensures Sent(Moved(d, Injecting, None, None), answer) == Sent(d, answer)
  {
  }

  lemma ClaimAndSendSends(w: World, d: Delivery, answer: SendAnswer)
    requires d.id in w.s.deliveries && w.s.deliveries[d.id] == d && IsOpen(d.status)
    ensures ClaimAndSend(w, d, answer).0.s == PutDelivery(w.s, Sent(d, answer))
  {
    hide MoveTo, Conclude, Sent;
    var claimed := Moved(d, Injecting, None, None);
    MoveToLands(w, d, Injecting, None, None);
    ConcludeSends(MoveTo(w, d, Injecting, None, None).0, claimed, answer);
    SentOfClaimed(d, answer);
    SentId(d, answer);
    assert w.s.deliveries[d.id := claimed][d.id := Sent(d, answer)] == w.s.deliveries[d.id := Sent(d, answer)];
  }

  lemma SentId(d: Delivery, answer: SendAnswer)
    ensures Sent(d, answer).id == d.id
  {
  }

  /**
  Taken alone, an attempt whose recipient is free leaves its delivery injected with the accepted
  turn, deferred, or failed, as the provider answers, and changes nothing else.
  */
  lemma FreeRecipientIsSent(w: World, id: Id, trigger: Trigger, env: Env)
    requires RepInv(w.s) && id in w.s.deliveries && IsOpen(w.s.deliveries[id].status) && Blocker(w.s, w.s.deliveries[id]).None?
    requires Decide(w.s.deliveries[id], w.s.messages[w.s.deliveries[id].message], trigger, env).Proceed?
    ensures Inject(w, id, trigger, env).0.s == w.s.(deliveries := w.s.deliveries[id := Sent(w.s.deliveries[id], env.send)])
  {
    hide *;
    var d := w.s.deliveries[id];
    ClearCallSends(w, id, trigger, env);
    ClaimAndSendSends(w, d, env.send);
    SentId(d, env.send);
    PutOne(w.s, Sent(d, env.send));
  }

  lemma ClearCallSends(w: World, id: Id, trigger: Trigger, env: Env)
    requires RepInv(w.s) && id in w.s.deliveries && IsOpen(w.s.deliveries[id].status) && Blocker(w.s, w.s.deliveries[id]).None?
    requires Decide(w.s.deliveries[id], w.s.messages[w.s.deliveries[id].message], trigger, env).Proceed?
    ensures w.s.deliveries[id].id == id && Inject(w, id, trigger, env) == ClaimAndSend(w, w.s.deliveries[id], env.send)
  {
    var d := w.s.deliveries[id];
    assert d.id == id && d.message in w.s.messages;
    hide RepInv, ClaimAndSend, Blocker, Decide;
  }

  lemma PutOne(s: State, d: Delivery)
    ensures PutDelivery(s, d) == s.(deliveries := s.deliveries[d.id := d])
  {
  }

  /**
  A recipient that is gone or closed fails nothing: pending and deferred deliveries have no edge to
  failed, so the call returns an error and changes nothing.
  */
  lemma MissingRecipientChangesNothing(w: World, id: Id, trigger: Trigger, env: Env)
    requires RepInv(w.s) && id in w.s.deliveries && IsOpen(w.s.deliveries[id].status) && Blocker(w.s, w.s.deliveries[id]).None?
    requires env.session.NoSession? || env.session.status == "closed" || env.session.status == "failed"
    ensures Inject(w, id, trigger, env) == (w, Err(InvalidState))
  {
    assert w.s.deliveries[id].message in w.s.messages;
  }
}
