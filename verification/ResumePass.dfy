/** One pass over a recipient's deferred deliveries, as when its turn has ended. */
module ResumePass {
  import opened Wrappers
  import opened TeamIndex
  import opened TeamState
  import opened Injection
  import opened DeliveryCalls

  function DeferredIds(deliveries: map<Id, Delivery>, queue: seq<Id>): seq<Id> {
    if queue == [] then []
    else (if queue[0] in deliveries && deliveries[queue[0]].status.Deferred? then [queue[0]] else [])
         + DeferredIds(deliveries, queue[1..])
  }

  /** Each attempt meets its own answers; whatever it returns, the pass goes on. */
  function Pass(w: World, ids: seq<Id>, trigger: Trigger, envs: seq<Env>): World
    requires |envs| == |ids|
    decreases |ids|
  {
    if ids == [] then w else Pass(Inject(w, ids[0], trigger, envs[0]).0, ids[1..], trigger, envs[1..])
  }

  /** `resume_deferred_for_recipient`; the attempts meet the first of the given answers. */
  function Resume(w: World, recipient: Id, trigger: Trigger, envs: seq<Env>): World
    requires |envs| == |DeferredIds(w.s.deliveries, QueueOf(w.s, recipient))|
  {
    Pass(w, DeferredIds(w.s.deliveries, QueueOf(w.s, recipient)), trigger, envs)
  }

  // ---- What the pass is given ----

  /** The recipient can take a turn now. */
  predicate Free(env: Env) {
    env.session.Found? && !env.session.active && env.session.status != "closed" && env.session.status != "failed"
  }

  predicate Busy(env: Env) {
    env.session.Found? && env.session.active
  }

  /** No turn ends during the pass: once a turn runs or was started, the recipient is not free again. */
  ghost predicate NoTurnEnds(envs: seq<Env>) {
    forall i, j :: 0 <= i < j < |envs| && (Busy(envs[i]) || (Free(envs[i]) && envs[i].send.Accepted?)) ==> !Free(envs[j])
  }

  /** A policy that interrupts no turn, or is none at all. */
  predicate Patient(s: State, d: Id)
    requires d in s.deliveries && s.deliveries[d].message in s.messages
  {
    var policy := NormalizePolicy(s.deliveries[d].policy.GetOr(s.messages[s.deliveries[d].message].policy));
    policy.None? || policy.value == "non_interrupting" || policy.value == "start_new_turn_only"
  }

  ghost predicate AllDeferred(deliveries: map<Id, Delivery>, ids: seq<Id>) {
    forall i :: 0 <= i < |ids| ==> ids[i] in deliveries && deliveries[ids[i]].status.Deferred?
  }

  ghost predicate AllPatient(s: State, ids: seq<Id>) {
    forall i :: 0 <= i < |ids| ==>
      ids[i] in s.deliveries && s.deliveries[ids[i]].message in s.messages && Patient(s, ids[i])
  }

  /** Ids of one recipient's queue, in queue order. */
  ghost predicate InOrder(s: State, recipient: Id, ids: seq<Id>) {
    && NoRepeats(ids)
    && (forall i :: 0 <= i < |ids| ==> ids[i] in s.deliveries && s.deliveries[ids[i]].recipient == recipient)
    && (forall i, j :: 0 <= i < j < |ids| ==> Ahead(QueueOf(s, recipient), ids[i], ids[j]))
  }

  /** What the pass leaves: failed ones, then at most one injected, then deferred ones. */
  ghost predicate Shape(deliveries: map<Id, Delivery>, ids: seq<Id>) {
    ids == []
    || (ids[0] in deliveries
        && ((deliveries[ids[0]].status.Failed? && Shape(deliveries, ids[1..]))
            || ((deliveries[ids[0]].status.Injected? || deliveries[ids[0]].status.Deferred?) && AllDeferred(deliveries, ids[1..]))))
  }

  // ---- One attempt ----

  /** The record an attempt leaves: the same delivery under the same policy. */
  ghost predicate OneMoved(s: State, next: State, id: Id) {
    && id in s.deliveries && id in next.deliveries
    && next == s.(deliveries := s.deliveries[id := next.deliveries[id]])
    && SameRoute(s.deliveries[id], next.deliveries[id]) && next.deliveries[id].policy == s.deliveries[id].policy
  }

  lemma SentMoves(d: Delivery, answer: SendAnswer)
    ensures SameRoute(d, Sent(d, answer)) && Sent(d, answer).policy == d.policy
    ensures Sent(d, answer).status.Deferred? || Sent(d, answer).status.Failed? || Sent(d, answer).status.Injected?
    ensures Sent(d, answer).status.Injected? <==> answer.Accepted?
  {
  }

  lemma DeferAgain(w: World, d: Delivery)
    requires d.id in w.s.deliveries && w.s.deliveries[d.id] == d && d.status.Deferred?
    ensures OneMoved(w.s, MoveTo(w, d, Deferred, None, None).0.s, d.id)
    ensures MoveTo(w, d, Deferred, None, None).0.s.deliveries[d.id].status.Deferred?
  {
    MoveToLands(w, d, Deferred, None, None);
    hide MoveTo;
  }

  lemma FailIsRefused(w: World, d: Delivery, code: Option<string>)
    requires d.status.Deferred?
    ensures MoveTo(w, d, Failed, None, code).0 == w
  {
  }

  lemma Same(s: State, id: Id)
    requires id in s.deliveries
    ensures OneMoved(s, s, id)
  {
    assert s.deliveries[id := s.deliveries[id]] == s.deliveries;
  }

  /** One deferred delivery's attempt: what it may become, and when. */
  ghost predicate Outcome(w: World, after: World, id: Id, env: Env) {
    && OneMoved(w.s, after.s, id)
    && var now := after.s.deliveries[id].status;
       && (now.Deferred? || now.Failed? || now.Injected?)
       && (Blocker(w.s, w.s.deliveries[id]).Some? ==> after == w)
       && (!Free(env) ==> now.Deferred?)
       && (now.Injected? ==> env.send.Accepted?)
  }

  lemma DecidePatient(s: State, id: Id, trigger: Trigger, env: Env)
    requires id in s.deliveries && s.deliveries[id].message in s.messages && Patient(s, id)
    ensures
      var r := Decide(s.deliveries[id], s.messages[s.deliveries[id].message], trigger, env);
      && (r.Proceed? ==> Free(env))
      && (r.Move? ==> (r.next == Deferred && r.code == None) || r.next == Failed)
  {
  }

  /** Where the call goes once the queue is known to be clear. */
  lemma ClearCall(w: World, id: Id, trigger: Trigger, env: Env)
    requires id in w.s.deliveries && w.s.deliveries[id].message in w.s.messages && w.s.deliveries[id].status.Deferred?
    ensures
      var d := w.s.deliveries[id];
      var r := Decide(d, w.s.messages[d.message], trigger, env);
      Inject(w, id, trigger, env).0
      == if Blocker(w.s, d).Some? || r.Stop? then w
         else if r.Move? then MoveTo(w, d, r.next, None, r.code).0
         else ClaimAndSend(w, d, env.send).0
  {
    hide Blocker, Decide, MoveTo, ClaimAndSend;
  }

  lemma MoveOutcome(w: World, d: Delivery, env: Env, r: Decision)
    requires r.Move? && ((r.next == Deferred && r.code == None) || r.next == Failed)
    requires d.id in w.s.deliveries && w.s.deliveries[d.id] == d && d.status.Deferred? && Blocker(w.s, d).None?
    ensures Outcome(w, MoveTo(w, d, r.next, None, r.code).0, d.id, env)
  {
    hide Blocker, MoveTo;
    if r.next.Failed? {
      Same(w.s, d.id);
      FailIsRefused(w, d, r.code);
    } else {
      DeferAgain(w, d);
    }
  }

  lemma SendOutcome(w: World, d: Delivery, env: Env)
    requires d.id in w.s.deliveries && w.s.deliveries[d.id] == d && d.status.Deferred? && Blocker(w.s, d).None? && Free(env)
    ensures Outcome(w, ClaimAndSend(w, d, env.send).0, d.id, env)
  {
    hide Blocker, ClaimAndSend, Sent;
    ClaimAndSendSends(w, d, env.send);
    SentMoves(d, env.send);
    SentId(d, env.send);
  }

  lemma KeyIsId(s: State, id: Id)
    requires RepInv(s) && id in s.deliveries
    ensures s.deliveries[id].id == id
  {
    assert LinksOk(s);
  }

  lemma AttemptOutcome(w: World, id: Id, trigger: Trigger, env: Env)
    requires RepInv(w.s) && id in w.s.deliveries && w.s.deliveries[id].status.Deferred?
    requires w.s.deliveries[id].message in w.s.messages && Patient(w.s, id)
    ensures Outcome(w, Inject(w, id, trigger, env).0, id, env)
  {
    hide RepInv, Blocker, Decide, Patient, MoveTo, ClaimAndSend, Inject;
    var d := w.s.deliveries[id];
    KeyIsId(w.s, id);
    Same(w.s, id);
    DecidePatient(w.s, id, trigger, env);
    ClearCall(w, id, trigger, env);
    if Blocker(w.s, d).None? {
      var r := Decide(d, w.s.messages[d.message], trigger, env);
      if r.Move? {
        MoveOutcome(w, d, env, r);
      } else if r.Proceed? {
        SendOutcome(w, d, env);
      }
    }
  }

  // ---- The rest of the pass ----

  lemma RoutesStay(s: State, next: State, id: Id)
    requires RepInv(s) && OneMoved(s, next, id)
    ensures RepInv(next)
  {
    SameRoutingKeeps(s, next);
  }

  lemma GivenStays(s: State, next: State, recipient: Id, ids: seq<Id>)
    requires ids != [] && InOrder(s, recipient, ids) && AllDeferred(s.deliveries, ids) && AllPatient(s, ids)
    requires OneMoved(s, next, ids[0])
    ensures InOrder(next, recipient, ids[1..]) && AllDeferred(next.deliveries, ids[1..]) && AllPatient(next, ids[1..])
  {
    var rest := ids[1..];
    forall i | 0 <= i < |rest| ensures rest[i] == ids[i + 1] && rest[i] != ids[0] {
    }
    forall i | 0 <= i < |rest|
      ensures rest[i] in next.deliveries && next.deliveries[rest[i]] == s.deliveries[rest[i]] && Patient(next, rest[i])
    {
    }
    forall i, j | 0 <= i < j < |rest| ensures Ahead(QueueOf(next, recipient), rest[i], rest[j]) {
      assert Ahead(QueueOf(s, recipient), ids[i + 1], ids[j + 1]);
    }
  }

  /** An open delivery blocks everything behind it. */
  lemma OpenBlocks(s: State, b: Id, d: Id)
    requires RepInv(s) && b in s.deliveries && d in s.deliveries && !IsTerminal(s.deliveries[b].status)
    requires Ahead(QueueOf(s, s.deliveries[d].recipient), b, d)
    ensures Blocker(s, s.deliveries[d]).Some?
  {
    if Blocker(s, s.deliveries[d]).None? {
      NoBlockerMeansFirst(s, d);
    }
  }

  /** Behind a deferred delivery the pass changes nothing. */
  lemma {:induction false} BlockedPass(w: World, b: Id, recipient: Id, ids: seq<Id>, trigger: Trigger, envs: seq<Env>)
    requires RepInv(w.s) && |envs| == |ids| && AllDeferred(w.s.deliveries, ids) && AllPatient(w.s, ids)
    requires InOrder(w.s, recipient, ids) && b in w.s.deliveries && !IsTerminal(w.s.deliveries[b].status)
    requires forall i :: 0 <= i < |ids| ==> Ahead(QueueOf(w.s, recipient), b, ids[i])
    ensures Pass(w, ids, trigger, envs) == w
    decreases |ids|
  {
    if ids != [] {
      OpenBlocks(w.s, b, ids[0]);
      AttemptOutcome(w, ids[0], trigger, envs[0]);
      Same(w.s, ids[0]);
      GivenStays(w.s, w.s, recipient, ids);
      hide RepInv, Inject, Blocker, Patient, InOrder, AllPatient, AllDeferred;
      forall i | 0 <= i < |ids[1..]| ensures Ahead(QueueOf(w.s, recipient), b, ids[1..][i]) {
        assert ids[1..][i] == ids[i + 1];
      }
      BlockedPass(w, b, recipient, ids[1..], trigger, envs[1..]);
    }
  }

  /** Everything else keeps its record. */
  ghost predicate Untouched(s: State, next: State, ids: seq<Id>) {
    && next.deliveries.Keys == s.deliveries.Keys
    && forall x :: x in s.deliveries && x !in ids ==> next.deliveries[x] == s.deliveries[x]
  }

  lemma UntouchedThen(s: State, mid: State, next: State, ids: seq<Id>)
    requires ids != [] && OneMoved(s, mid, ids[0]) && Untouched(mid, next, ids[1..])
    ensures Untouched(s, next, ids) && ids[0] in next.deliveries
    ensures ids[0] !in ids[1..] ==> next.deliveries[ids[0]] == mid.deliveries[ids[0]]
  {
  }

  lemma PassOpens(w: World, ids: seq<Id>, trigger: Trigger, envs: seq<Env>)
    requires ids != [] && |envs| == |ids|
    ensures Pass(w, ids, trigger, envs) == Pass(Inject(w, ids[0], trigger, envs[0]).0, ids[1..], trigger, envs[1..])
  {
    hide Inject;
  }

  lemma BusyOutcome(w: World, after: World, id: Id, env: Env)
    requires Outcome(w, after, id, env) && !Free(env)
    ensures OneMoved(w.s, after.s, id) && id in after.s.deliveries && after.s.deliveries[id].status.Deferred?
  {
  }

  /** While the recipient is not free the pass leaves everything deferred. */
  lemma {:induction false} BusyPass(w: World, recipient: Id, ids: seq<Id>, trigger: Trigger, envs: seq<Env>)
    requires RepInv(w.s) && |envs| == |ids| && AllDeferred(w.s.deliveries, ids) && AllPatient(w.s, ids)
    requires InOrder(w.s, recipient, ids) && forall i :: 0 <= i < |envs| ==> !Free(envs[i])
    ensures AllDeferred(Pass(w, ids, trigger, envs).s.deliveries, ids) && Untouched(w.s, Pass(w, ids, trigger, envs).s, ids)
    decreases |ids|
  {
    if ids != [] {
      hide *;
      PassOpens(w, ids, trigger, envs);
      var mid := Inject(w, ids[0], trigger, envs[0]).0;
      FirstGiven(w.s, recipient, ids);
      AttemptOutcome(w, ids[0], trigger, envs[0]);
      BusyOutcome(w, mid, ids[0], envs[0]);
      RoutesStay(w.s, mid.s, ids[0]);
      GivenStays(w.s, mid.s, recipient, ids);
      BusyPass(mid, recipient, ids[1..], trigger, envs[1..]);
      var after := Pass(mid, ids[1..], trigger, envs[1..]);
      UntouchedThen(w.s, mid.s, after.s, ids);
      DeferredCons(after.s.deliveries, ids);
    }
  }

  lemma FirstIsNotInRest(ids: seq<Id>)
    requires NoRepeats(ids) && ids != []
    ensures ids[0] !in ids[1..]
  {
  }

  lemma DeferredCons(deliveries: map<Id, Delivery>, ids: seq<Id>)
    requires ids != [] && ids[0] in deliveries && deliveries[ids[0]].status.Deferred? && AllDeferred(deliveries, ids[1..])
    ensures AllDeferred(deliveries, ids)
  {
    forall i | 0 <= i < |ids| ensures ids[i] in deliveries && deliveries[ids[i]].status.Deferred? {
      if i > 0 {
        assert ids[1..][i - 1] == ids[i];
      }
    }
  }

  lemma TurnsLater(envs: seq<Env>)
    requires envs != [] && NoTurnEnds(envs)
    ensures NoTurnEnds(envs[1..])
    ensures Free(envs[0]) && envs[0].send.Accepted? ==> forall i :: 0 <= i < |envs[1..]| ==> !Free(envs[1..][i])
  {
  }

  lemma AllBehindFirst(s: State, recipient: Id, ids: seq<Id>)
    requires InOrder(s, recipient, ids) && ids != []
    ensures forall i :: 0 <= i < |ids[1..]| ==> Ahead(QueueOf(s, recipient), ids[0], ids[1..][i])
  {
    forall i | 0 <= i < |ids[1..]| ensures Ahead(QueueOf(s, recipient), ids[0], ids[1..][i]) {
      assert ids[1..][i] == ids[i + 1];
    }
  }

  lemma {:induction false} PassShape(w: World, recipient: Id, ids: seq<Id>, trigger: Trigger, envs: seq<Env>)
    requires RepInv(w.s) && |envs| == |ids| && AllDeferred(w.s.deliveries, ids) && AllPatient(w.s, ids)
    requires InOrder(w.s, recipient, ids) && NoTurnEnds(envs)
    ensures Shape(Pass(w, ids, trigger, envs).s.deliveries, ids) && Untouched(w.s, Pass(w, ids, trigger, envs).s, ids)
    decreases |ids|
  {
    if ids != [] {
      hide RepInv, Inject, Blocker, Patient, InOrder, AllPatient, AllDeferred, Untouched, OneMoved, NoTurnEnds, NoRepeats;
      var mid := Inject(w, ids[0], trigger, envs[0]).0;
      FirstGiven(w.s, recipient, ids);
      AttemptOutcome(w, ids[0], trigger, envs[0]);
      RoutesStay(w.s, mid.s, ids[0]);
      GivenStays(w.s, mid.s, recipient, ids);
      OrderStays(w.s, mid.s, recipient, ids);
      TurnsLater(envs);
      var after := Pass(mid, ids[1..], trigger, envs[1..]);
      if mid.s.deliveries[ids[0]].status.Failed? {
        PassShape(mid, recipient, ids[1..], trigger, envs[1..]);
      } else if mid.s.deliveries[ids[0]].status.Injected? {
        BusyPass(mid, recipient, ids[1..], trigger, envs[1..]);
      } else {
        AllBehindFirst(mid.s, recipient, ids);
        FirstMoved(w.s, mid.s, ids[0]);
        BlockedPass(mid, ids[0], recipient, ids[1..], trigger, envs[1..]);
        NothingTouched(mid.s, ids[1..]);
      }
      UntouchedThen(w.s, mid.s, after.s, ids);
    }
  }

  lemma NothingTouched(s: State, ids: seq<Id>)
    ensures Untouched(s, s, ids)
  {
  }

  lemma FirstMoved(s: State, next: State, id: Id)
    requires OneMoved(s, next, id)
    ensures id in next.deliveries
  {
  }

  /** What is given of the first id. */
  lemma FirstGiven(s: State, recipient: Id, ids: seq<Id>)
    requires ids != [] && InOrder(s, recipient, ids) && AllDeferred(s.deliveries, ids) && AllPatient(s, ids)
    ensures ids[0] in s.deliveries && s.deliveries[ids[0]].status.Deferred?
    ensures s.deliveries[ids[0]].message in s.messages && Patient(s, ids[0]) && ids[0] !in ids[1..]
  {
    FirstIsNotInRest(ids);
  }

  lemma OrderStays(s: State, next: State, recipient: Id, ids: seq<Id>)
    requires ids != [] && InOrder(s, recipient, ids) && OneMoved(s, next, ids[0])
    ensures InOrder(next, recipient, ids)
  {
  }

  // ---- The ids a pass takes ----

  predicate IsDeferred(deliveries: map<Id, Delivery>, d: Id) {
    d in deliveries && deliveries[d].status.Deferred?
  }

  lemma {:induction false} DeferredAreQueued(deliveries: map<Id, Delivery>, queue: seq<Id>)
    ensures forall x :: x in DeferredIds(deliveries, queue) <==> x in queue && IsDeferred(deliveries, x)
    ensures NoRepeats(queue) ==> NoRepeats(DeferredIds(deliveries, queue))
  {
    if queue != [] {
      DeferredAreQueued(deliveries, queue[1..]);
      if NoRepeats(queue) {
        FirstIsNotInRest(queue);
      }
    }
  }

  lemma {:induction false} DeferredKeepOrder(deliveries: map<Id, Delivery>, queue: seq<Id>, i: nat, j: nat)
    requires i < j < |DeferredIds(deliveries, queue)|
    ensures Ahead(queue, DeferredIds(deliveries, queue)[i], DeferredIds(deliveries, queue)[j])
  {
    var rest := DeferredIds(deliveries, queue[1..]);
    var a, b := DeferredIds(deliveries, queue)[i], DeferredIds(deliveries, queue)[j];
    if !IsDeferred(deliveries, queue[0]) {
      DeferredKeepOrder(deliveries, queue[1..], i, j);
      AheadInTail(queue, a, b);
    } else if i > 0 {
      DeferredKeepOrder(deliveries, queue[1..], i - 1, j - 1);
      AheadInTail(queue, a, b);
    } else {
      DeferredAreQueued(deliveries, queue[1..]);
      assert b == rest[j - 1] && b in queue[1..];
      var k :| 0 <= k < |queue[1..]| && queue[1..][k] == b;
      assert queue[0] == a && queue[k + 1] == b;
    }
  }

  lemma QueueIsOwned(s: State, recipient: Id)
    requires RepInv(s)
    ensures NoRepeats(QueueOf(s, recipient))
    ensures forall x :: x in QueueOf(s, recipient) <==> x in s.deliveries && s.deliveries[x].recipient == recipient
  {
    assert ColumnOk(s, ByRecipient);
    forall x | x in s.deliveries && s.deliveries[x].recipient == recipient ensures x in QueueOf(s, recipient) {
      assert x in Owners(s.deliveries, ByRecipient);
    }
    forall x | x in QueueOf(s, recipient) ensures x in s.deliveries && s.deliveries[x].recipient == recipient {
      assert x in Owners(s.deliveries, ByRecipient);
    }
  }

  /** Every deferred delivery of the recipient is under a policy that interrupts nothing. */
  ghost predicate AllArePatient(s: State, recipient: Id) {
    forall d :: d in s.deliveries && s.deliveries[d].recipient == recipient && s.deliveries[d].status.Deferred? ==>
      s.deliveries[d].message in s.messages && Patient(s, d)
  }

  lemma TakenAreGiven(s: State, recipient: Id)
    requires RepInv(s) && AllArePatient(s, recipient)
    ensures
      var ids := DeferredIds(s.deliveries, QueueOf(s, recipient));
      InOrder(s, recipient, ids) && AllDeferred(s.deliveries, ids) && AllPatient(s, ids)
  {
    var ids := DeferredIds(s.deliveries, QueueOf(s, recipient));
    QueueIsOwned(s, recipient);
    DeferredAreQueued(s.deliveries, QueueOf(s, recipient));
    forall i | 0 <= i < |ids| ensures IsDeferred(s.deliveries, ids[i]) && s.deliveries[ids[i]].recipient == recipient {
      assert ids[i] in ids;
    }
    forall i, j | 0 <= i < j < |ids| ensures Ahead(QueueOf(s, recipient), ids[i], ids[j]) {
      DeferredKeepOrder(s.deliveries, QueueOf(s, recipient), i, j);
    }
  }

  lemma {:induction false} ShapeHasOneInjected(deliveries: map<Id, Delivery>, ids: seq<Id>, x: Id, y: Id)
    requires Shape(deliveries, ids) && x in ids && y in ids && x in deliveries && y in deliveries
    requires deliveries[x].status.Injected? && deliveries[y].status.Injected?
    ensures x == y
  {
    if deliveries[ids[0]].status.Failed? {
      ShapeHasOneInjected(deliveries, ids[1..], x, y);
    }
  }

  /**
  The shape of a resume pass: with policies that interrupt nothing and no turn ending meanwhile, the
  formerly deferred deliveries end, in queue order, as a run of failed ones, then at most one injected,
  then deferred ones; no other delivery changes, and so at most one turn is started.
  */
  lemma ResumeStartsOneTurn(w: World, recipient: Id, trigger: Trigger, envs: seq<Env>)
    requires RepInv(w.s) && AllArePatient(w.s, recipient) && NoTurnEnds(envs)
    requires |envs| == |DeferredIds(w.s.deliveries, QueueOf(w.s, recipient))|
    ensures
      var ids := DeferredIds(w.s.deliveries, QueueOf(w.s, recipient));
      var after := Resume(w, recipient, trigger, envs).s;
      && (forall d :: d in ids <==> d in w.s.deliveries && w.s.deliveries[d].recipient == recipient && w.s.deliveries[d].status.Deferred?)
      && Shape(after.deliveries, ids) && Untouched(w.s, after, ids)
      && (forall x, y :: x in ids && y in ids && after.deliveries[x].status.Injected? && after.deliveries[y].status.Injected? ==> x == y)
  {
    var ids := DeferredIds(w.s.deliveries, QueueOf(w.s, recipient));
    TakenAreGiven(w.s, recipient);
    QueueIsOwned(w.s, recipient);
    DeferredAreQueued(w.s.deliveries, QueueOf(w.s, recipient));
    PassShape(w, recipient, ids, trigger, envs);
    hide RepInv, InOrder, AllPatient, Shape, Pass, AllArePatient;
    var after := Resume(w, recipient, trigger, envs).s;
    forall x, y | x in ids && y in ids && after.deliveries[x].status.Injected? && after.deliveries[y].status.Injected?
      ensures x == y
    {
      ShapeHasOneInjected(after.deliveries, ids, x, y);
    }
  }
}
