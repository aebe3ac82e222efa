/**
The session manager's calls as atomic steps over its records, its event log and the wait tasks it
has spawned. Provider answers, clock readings and new ids are inputs of each step.
*/
module TurnMachine {
  import opened Wrappers
  import opened Recovery

  datatype EventKind =
    | SessionCreated | SessionResumed | SessionClosed
    | TurnStarted | TurnInProgress | TurnCompleted | TurnInterrupted | TurnFailed
    | InterruptRequested | ApprovalRequested | ApprovalResolved | ProviderError

  datatype Event = Event(kind: EventKind, session: Id, turn: Option<Id>)

  /** A spawned task that waits for a provider to finish one turn. */
  datatype Wait = Wait(session: Id, turn: Id)

  datatype Manager = Manager(records: Records, events: seq<Event>, waits: set<Wait>)

  datatype Ack = Acked(session: Id, turn: Id) | Rejected

  datatype ProviderStatus = Completed | Interrupted | Failed | InProgress

  datatype Decision = Accept | Decline

  datatype ProviderSession = Made(session: Id, providerRef: string, canonicalRef: Option<string>) | Unmade

  datatype Step =
    | CreateSession(session: Id, provider: string, mode: Option<string>, made: ProviderSession, now: int)
    | ResumeSession(session: Id, newRef: Option<string>, newCanonical: Option<string>, made: ProviderSession, now: int)
    | CloseSession(session: Id, accepted: bool, now: int)
    | ForceClose(session: Id, now: int)
    | SendTurn(session: Id, turn: Id, approval: Id, asked: Option<string>, ack: Ack, now: int)
    | InterruptTurn(session: Id, turn: Id, accepted: bool)
    | RespondApproval(session: Id, approval: Id, decision: Option<Decision>, payload: Option<string>, accepted: bool, now: int)
    | TurnResult(wait: Wait, status: ProviderStatus, now: int)
    | WaitFailure(wait: Wait, now: int)
    | Restart
    | Recover(env: Env, left: set<Id>)

  predicate HasAdapter(provider: string, registered: set<Kind>) {
    ParseKind(provider).Some? && ParseKind(provider).value in registered
  }

  function StatusText(status: ProviderStatus): string {
    match status
    case Completed => "completed"
    case Interrupted => "interrupted"
    case Failed => "failed"
    case InProgress => "in_progress"
  }

  function KindOf(status: ProviderStatus): EventKind {
    match status
    case Completed => TurnCompleted
    case Interrupted => TurnInterrupted
    case Failed => TurnFailed
    case InProgress => TurnInProgress
  }

  function PutSession(r: Records, s: SessionRecord): Records {
    r.(sessions := r.sessions[s.id := s])
  }

  function PutTurn(r: Records, t: TurnRecord): Records {
    r.(turns := r.turns[t.id := t])
  }

  function PutApproval(r: Records, a: ApprovalRecord): Records {
    r.(approvals := r.approvals[a.id := a])
  }

  function Log(m: Manager, kind: EventKind, session: Id, turn: Option<Id>): Manager {
    m.(events := m.events + [Event(kind, session, turn)])
  }

  // ---- Sessions ----

  function Create(m: Manager, session: Id, provider: string, mode: Option<string>, made: ProviderSession, now: int,
                  registered: set<Kind>): Manager
  {
    if session in m.records.sessions || !HasAdapter(provider, registered) then m
    else if made.Unmade? || made.session != session then m
    else
      var s := SessionRecord(session, provider, "ready", mode, Some(made.providerRef), made.canonicalRef, None, None, now);
      Log(m.(records := PutSession(m.records, s)), SessionCreated, session, None)
  }

  function Resume(m: Manager, session: Id, newRef: Option<string>, newCanonical: Option<string>, made: ProviderSession,
                  now: int, registered: set<Kind>): Manager
  {
    if session !in m.records.sessions then m
    else
      var s := m.records.sessions[session];
      if !HasAdapter(s.provider, registered) || newRef.Or(s.providerRef).None? then m
      else if made.Unmade? || made.session != session then m
      else
        var s' := s.(providerRef := Some(made.providerRef), canonicalRef := made.canonicalRef,
                     status := if s.status != "closed" then "ready" else s.status, updatedAt := now);
        Log(m.(records := PutSession(m.records, s')), SessionResumed, session, None)
  }

  function FinalizeClose(m: Manager, session: Id, now: int): Manager {
    if session !in m.records.sessions then m
    else
      var s := m.records.sessions[session].(status := "closed", activeTurn := None, updatedAt := now);
      Log(m.(records := PutSession(m.records, s)), SessionClosed, session, None)
  }

  // ---- Turns ----

  predicate NeedsApproval(s: SessionRecord, asked: Option<string>) {
    asked.Or(s.permissionMode) == Some("require_approval")
  }

  /** Whether a turn may be sent at all. */
  predicate Writable(m: Manager, session: Id) {
    && session in m.records.sessions
    && !IsShut(m.records.sessions[session].status)
    && m.records.sessions[session].activeTurn.None?
    && ParseKind(m.records.sessions[session].provider).Some?
  }

  /** A rejected turn is stored as failed and the session stays writable. */
  function SendRejected(m: Manager, session: Id, turn: Id, now: int): Manager
    requires session in m.records.sessions
  {
    var t := TurnRecord(turn, session, "failed", Some(now), Some("send_turn"));
    var s := m.records.sessions[session].(activeTurn := None, status := "ready", updatedAt := now);
    Log(m.(records := PutSession(PutTurn(m.records, t), s)), TurnFailed, session, Some(turn))
  }

  function SendHeld(m: Manager, session: Id, turn: Id, approval: Id, now: int): Manager
    requires session in m.records.sessions
  {
    var t := TurnRecord(turn, session, "waiting_for_approval", None, None);
    var s := m.records.sessions[session].(activeTurn := Some(turn), status := "waiting_for_approval", updatedAt := now);
    var a := ApprovalRecord(approval, session, turn, "pending", None, None);
    Log(m.(records := PutApproval(PutSession(PutTurn(m.records, t), s), a)), ApprovalRequested, session, Some(turn))
  }

  function SendStarted(m: Manager, session: Id, turn: Id, now: int): Manager
    requires session in m.records.sessions
  {
    var t := TurnRecord(turn, session, "in_progress", None, None);
    var s := m.records.sessions[session].(activeTurn := Some(turn), status := "turn_running", updatedAt := now);
    var m' := Log(m.(records := PutSession(PutTurn(m.records, t), s)), TurnStarted, session, Some(turn));
    m'.(waits := m.waits + {Wait(session, turn)})
  }

  function Send(m: Manager, session: Id, turn: Id, approval: Id, asked: Option<string>, ack: Ack, now: int): Manager {
    if turn in m.records.turns || approval in m.records.approvals || !Writable(m, session) then m
    else if ack.Rejected? then SendRejected(m, session, turn, now)
    else if ack != Acked(session, turn) then m
    else if NeedsApproval(m.records.sessions[session], asked) then SendHeld(m, session, turn, approval, now)
    else SendStarted(m, session, turn, now)
  }

  function Interrupt(m: Manager, session: Id, turn: Id, accepted: bool, registered: set<Kind>): Manager {
    if session !in m.records.sessions || m.records.sessions[session].activeTurn != Some(turn) then m
    else if !HasAdapter(m.records.sessions[session].provider, registered) || !accepted then m
    else Log(m, InterruptRequested, session, Some(turn))
  }

  predicate Answerable(m: Manager, session: Id, approval: Id, registered: set<Kind>) {
    && session in m.records.sessions && HasAdapter(m.records.sessions[session].provider, registered)
    && approval in m.records.approvals
    && m.records.approvals[approval].session == session
    && m.records.approvals[approval].status == "pending"
  }

  function Resolve(m: Manager, session: Id, approval: Id, decision: Decision, payload: Option<string>, now: int): Manager
    requires approval in m.records.approvals
  {
    var a := m.records.approvals[approval].(status := if decision.Accept? then "accept" else "decline",
                                            response := payload, resolvedAt := Some(now));
    Log(m.(records := m.records.(approvals := m.records.approvals[approval := a])), ApprovalResolved, session, Some(a.turn))
  }

  function TurnAccepted(m: Manager, session: Id, turn: Id, now: int): Manager
    requires session in m.records.sessions
  {
    var r := if turn in m.records.turns then
               m.records.(turns := m.records.turns[turn := m.records.turns[turn].(status := "in_progress", error := None)])
             else m.records;
    var s := r.sessions[session].(status := "turn_running", updatedAt := now);
    var m' := Log(m.(records := r.(sessions := r.sessions[session := s])), TurnStarted, session, Some(turn));
    m'.(waits := m.waits + {Wait(session, turn)})
  }

  function TurnDeclined(m: Manager, session: Id, turn: Id, now: int): Manager
    requires session in m.records.sessions
  {
    var r := if turn in m.records.turns then
               m.records.(turns := m.records.turns[turn :=
                 m.records.turns[turn].(status := "interrupted", completedAt := Some(now), error := Some("approval declined"))])
             else m.records;
    var s := Release(r.sessions[session], turn).(updatedAt := now);
    Log(m.(records := r.(sessions := r.sessions[session := s])), TurnInterrupted, session, Some(turn))
  }

  /** Drop the turn from the session if it is the active one, and make an open session ready. */
  function Release(s: SessionRecord, turn: Id): SessionRecord {
    var s' := if s.activeTurn == Some(turn) then s.(activeTurn := None) else s;
    ReadyUnlessShut(s')
  }

  function Respond(m: Manager, session: Id, approval: Id, decision: Option<Decision>, payload: Option<string>,
                   accepted: bool, now: int, registered: set<Kind>): Manager
  {
    if !Answerable(m, session, approval, registered) || decision.None? || !accepted then m
    else
      var turn := m.records.approvals[approval].turn;
      var m' := Resolve(m, session, approval, decision.value, payload, now);
      if decision.value.Accept? then TurnAccepted(m', session, turn, now) else TurnDeclined(m', session, turn, now)
  }

  /** A terminal turn is left alone; a different terminal answer fails the session instead. */
  function Conflict(m: Manager, turn: TurnRecord, status: ProviderStatus, now: int): Manager {
    if turn.status == StatusText(status) || turn.session !in m.records.sessions then m
    else
      var s := m.records.sessions[turn.session].(status := "failed", failureCode := Some("terminal_conflict"), updatedAt := now);
      m.(records := m.records.(sessions := m.records.sessions[turn.session := s]))
  }

  function ApplyResult(m: Manager, wait: Wait, status: ProviderStatus, now: int): Manager {
    if wait.turn !in m.records.turns || m.records.turns[wait.turn].session != wait.session then m
    else
      var turn := m.records.turns[wait.turn];
      if IsTerminal(turn.status) then Conflict(m, turn, status, now)
      else
        var r := m.records.(turns := m.records.turns[wait.turn := turn.(status := StatusText(status), completedAt := Some(now))]);
        if wait.session !in r.sessions then m.(records := r)
        else
          var s := Release(r.sessions[wait.session], wait.turn).(updatedAt := now);
          Log(m.(records := r.(sessions := r.sessions[wait.session := s])), KindOf(status), wait.session, Some(wait.turn))
  }

  function FailTurn(r: Records, turn: Id, now: int): Records {
    if turn !in r.turns || IsTerminal(r.turns[turn].status) then r
    else
      r.(turns := r.turns[turn :=
        r.turns[turn].(status := "failed", completedAt := Some(now), error := Some("wait_for_turn"))])
  }

  function FailSession(r: Records, wait: Wait, now: int): Records {
    if wait.session !in r.sessions then r
    else
      var s := r.sessions[wait.session];
      r.(sessions := r.sessions[wait.session :=
        s.(activeTurn := if s.activeTurn == Some(wait.turn) then None else s.activeTurn,
           status := "failed", failureCode := Some("provider_wait_failure"), updatedAt := now)])
  }

  function ApplyFailure(m: Manager, wait: Wait, now: int): Manager {
    Log(m.(records := FailSession(FailTurn(m.records, wait.turn, now), wait, now)), ProviderError, wait.session, Some(wait.turn))
  }

  // ---- Restart and recovery ----

  /** The wait tasks a recovery spawns. */
  function ResumedWaits(r: Records, env: Env): set<Wait> {
    set s | s in r.sessions && Reattach(r.sessions[s], env).Ok? && VerdictOn(r, r.sessions[s], env) == Running
      :: Wait(s, Reattach(r.sessions[s], env).value.activeTurn.value)
  }

  ghost function RecoverAll(m: Manager, env: Env): Manager {
    if !Recovers(m.records, env) || !Keyed(m.records) then m
    else m.(records := Recovered(m.records, env), waits := m.waits + ResumedWaits(m.records, env))
  }

  /** The sessions outside `left` can be recovered. */
  ghost predicate Reaches(r: Records, env: Env, left: set<Id>) {
    forall s :: s in r.sessions && s !in left ==> RecoverSession(r, r.sessions[s], env).Ok?
  }

  /** The turns repaired by sessions outside `left`. */
  ghost function RepairedExcept(r: Records, env: Env, left: set<Id>): map<Id, TurnRecord> {
    map t | t in r.turns ::
      if r.turns[t].session !in left && Repairs(r, env, t) then Repaired(r.turns[t], env) else r.turns[t]
  }

  ghost function WaitsExcept(r: Records, env: Env, left: set<Id>): set<Wait> {
    set w | w in ResumedWaits(r, env) && w.session !in left
  }

  /** The session loop returned early: `left` was not reached, nor were the approvals. */
  ghost function RecoverPart(m: Manager, env: Env, left: set<Id>): Manager
    requires Reaches(m.records, env, left)
  {
    var r := m.records;
    var sessions := map s | s in r.sessions :: if s in left then r.sessions[s] else RecoverSession(r, r.sessions[s], env).value;
    m.(records := Records(sessions, RepairedExcept(r, env, left), r.approvals), waits := m.waits + WaitsExcept(r, env, left))
  }

  /** A recovery that succeeds, or one that fails with `left` still to do. */
  ghost function Recover1(m: Manager, env: Env, left: set<Id>): Manager {
    if !Keyed(m.records) then m
    else if Recovers(m.records, env) then RecoverAll(m, env)
    else if Reaches(m.records, env, left) then RecoverPart(m, env, left)
    else m
  }

  /** One manager call; a call that fails leaves what its source leaves. A wait answers at most once. */
  ghost function Take1(m: Manager, step: Step, registered: set<Kind>): Manager {
    match step
    case CreateSession(session, provider, mode, made, now) => Create(m, session, provider, mode, made, now, registered)
    case ResumeSession(session, newRef, newCanonical, made, now) =>
      Resume(m, session, newRef, newCanonical, made, now, registered)
    case CloseSession(session, accepted, now) =>
      if session in m.records.sessions && HasAdapter(m.records.sessions[session].provider, registered) && accepted
      then FinalizeClose(m, session, now)
      else m
    case ForceClose(session, now) => FinalizeClose(m, session, now)
    case SendTurn(session, turn, approval, asked, ack, now) => Send(m, session, turn, approval, asked, ack, now)
    case InterruptTurn(session, turn, accepted) => Interrupt(m, session, turn, accepted, registered)
    case RespondApproval(session, approval, decision, payload, accepted, now) =>
      Respond(m, session, approval, decision, payload, accepted, now, registered)
    case TurnResult(wait, status, now) =>
      if wait in m.waits then ApplyResult(m.(waits := m.waits - {wait}), wait, status, now) else m
    case WaitFailure(wait, now) =>
      if wait in m.waits then ApplyFailure(m.(waits := m.waits - {wait}), wait, now) else m
    case Restart => m.(waits := {})
    case Recover(env, left) => Recover1(m, env, left)
  }

  ghost function Run(m: Manager, steps: seq<Step>, registered: set<Kind>): Manager {
    if steps == [] then m
    else Take1(Run(m, steps[..|steps| - 1], registered), steps[|steps| - 1], registered)
  }

  // ---- The invariant ----

  predicate EndsTurn(kind: EventKind) {
    kind == TurnCompleted || kind == TurnInterrupted || kind == TurnFailed
  }

  function FinalStatus(kind: EventKind): string {
    if kind == TurnCompleted then "completed" else if kind == TurnInterrupted then "interrupted" else "failed"
  }

  /** The turn-ending events of one turn, in order. */
  function Endings(events: seq<Event>, turn: Id): seq<EventKind> {
    if events == [] then []
    else
      var last := events[|events| - 1];
      Endings(events[..|events| - 1], turn)
      + if EndsTurn(last.kind) && last.turn == Some(turn) then [last.kind] else []
  }

  /** A pending approval's turn is waiting for it, and no other pending approval is for that turn. */
  ghost predicate ApprovalsOk(r: Records) {
    && ApprovalsNameTheirSession(r)
    && (forall a :: a in r.approvals && r.approvals[a].status == "pending" ==>
          r.approvals[a].turn in r.turns && r.turns[r.approvals[a].turn].status == "waiting_for_approval")
    && (forall a, b :: a != b && a in r.approvals && b in r.approvals ==>
          r.approvals[a].status == r.approvals[b].status == "pending" ==> r.approvals[a].turn != r.approvals[b].turn)
    && (forall a :: a in r.approvals ==> r.approvals[a].turn in r.turns)
  }

  ghost predicate WaitsOk(m: Manager) {
    forall w :: w in m.waits ==>
      w.turn in m.records.turns && m.records.turns[w.turn].status != "waiting_for_approval"
  }

  /** A turn has at most one ending, and its stored status is the one that ending announced. */
  ghost predicate EndingOk(m: Manager, turn: Id) {
    && |Endings(m.events, turn)| <= 1
    && (Endings(m.events, turn) != [] ==>
          turn in m.records.turns && m.records.turns[turn].status == FinalStatus(Endings(m.events, turn)[0]))
  }

  ghost predicate Inv(m: Manager) {
    Keyed(m.records) && ApprovalsOk(m.records) && WaitsOk(m) && forall t :: EndingOk(m, t)
  }

  function NewManager(): Manager {
    Manager(Records(map[], map[], map[]), [], {})
  }

  lemma EndingsSnoc(events: seq<Event>, last: Event, turn: Id)
    ensures Endings(events + [last], turn)
         == Endings(events, turn) + if EndsTurn(last.kind) && last.turn == Some(turn) then [last.kind] else []
  {
    assert (events + [last])[..|events|] == events;
  }

  /** An event that ends nothing leaves the endings as they were. */
  lemma QuietStep(m: Manager, next: Manager, event: Event)
    requires forall t :: EndingOk(m, t)
    requires next.events == m.events || next.events == m.events + [event]
    requires !EndsTurn(event.kind)
    requires m.records.turns.Keys <= next.records.turns.Keys
    requires forall t :: t in m.records.turns && IsTerminal(m.records.turns[t].status) ==>
               next.records.turns[t].status == m.records.turns[t].status
    ensures forall t :: EndingOk(next, t)
  {
    forall t ensures EndingOk(next, t) {
      assert EndingOk(m, t);
      EndingsSnoc(m.events, event, t);
    }
  }

  /** A turn that has not ended gets its ending together with the status it announces. */
  lemma EndingStep(m: Manager, next: Manager, event: Event, turn: Id)
    requires forall t :: EndingOk(m, t)
    requires next.events == m.events + [event] && EndsTurn(event.kind) && event.turn == Some(turn)
    requires turn !in m.records.turns || !IsTerminal(m.records.turns[turn].status)
    requires m.records.turns.Keys <= next.records.turns.Keys && turn in next.records.turns
    requires forall t :: t in m.records.turns && t != turn ==> next.records.turns[t].status == m.records.turns[t].status
    requires next.records.turns[turn].status == FinalStatus(event.kind)
    ensures forall t :: EndingOk(next, t)
  {
    forall t ensures EndingOk(next, t) {
      assert EndingOk(m, t);
      EndingsSnoc(m.events, event, t);
    }
  }

  // ---- Each call keeps the invariant ----

  lemma SessionCallKeeps(m: Manager, next: Manager, event: Event)
    requires Inv(m) && next.records.turns == m.records.turns && next.records.approvals == m.records.approvals
    requires next.waits <= m.waits && Keyed(next.records) && !EndsTurn(event.kind)
    requires next.events == m.events || next.events == m.events + [event]
    ensures Inv(next)
  {
    QuietStep(m, next, event);
  }

  lemma SendRejectedKeeps(m: Manager, session: Id, turn: Id, now: int)
    requires Inv(m) && session in m.records.sessions && turn !in m.records.turns
    ensures Inv(SendRejected(m, session, turn, now))
  {
    EndingStep(m, SendRejected(m, session, turn, now), Event(TurnFailed, session, Some(turn)), turn);
  }

  lemma SendHeldKeeps(m: Manager, session: Id, turn: Id, approval: Id, now: int)
    requires Inv(m) && session in m.records.sessions && turn !in m.records.turns && approval !in m.records.approvals
    ensures Inv(SendHeld(m, session, turn, approval, now))
  {
    QuietStep(m, SendHeld(m, session, turn, approval, now), Event(ApprovalRequested, session, Some(turn)));
  }

  lemma SendStartedKeeps(m: Manager, session: Id, turn: Id, now: int)
    requires Inv(m) && session in m.records.sessions && turn !in m.records.turns
    ensures Inv(SendStarted(m, session, turn, now))
  {
    QuietStep(m, SendStarted(m, session, turn, now), Event(TurnStarted, session, Some(turn)));
  }

  lemma ResolveFacts(m: Manager, session: Id, approval: Id, decision: Decision, payload: Option<string>, now: int)
    requires Inv(m) && approval in m.records.approvals && m.records.approvals[approval].status == "pending"
    ensures
      var next := Resolve(m, session, approval, decision, payload, now);
      var turn := m.records.approvals[approval].turn;
      && Inv(next) && next.records.turns == m.records.turns && turn in m.records.turns
      && m.records.turns[turn].status == "waiting_for_approval"
      && (forall a :: a in next.records.approvals && next.records.approvals[a].status == "pending" ==>
            next.records.approvals[a].turn != turn)
  {
    QuietStep(m, Resolve(m, session, approval, decision, payload, now),
              Event(ApprovalResolved, session, Some(m.records.approvals[approval].turn)));
  }

  lemma AcceptedKeeps(m: Manager, session: Id, turn: Id, now: int)
    requires Inv(m) && session in m.records.sessions && turn in m.records.turns
    requires m.records.turns[turn].status == "waiting_for_approval"
    requires forall a :: a in m.records.approvals && m.records.approvals[a].status == "pending" ==>
               m.records.approvals[a].turn != turn
    ensures Inv(TurnAccepted(m, session, turn, now))
  {
    QuietStep(m, TurnAccepted(m, session, turn, now), Event(TurnStarted, session, Some(turn)));
  }

  lemma RefusedKeeps(m: Manager, session: Id, turn: Id, now: int)
    requires Inv(m) && session in m.records.sessions && turn in m.records.turns
    requires m.records.turns[turn].status == "waiting_for_approval"
    requires forall a :: a in m.records.approvals && m.records.approvals[a].status == "pending" ==>
               m.records.approvals[a].turn != turn
    ensures Inv(TurnDeclined(m, session, turn, now))
  {
    EndingStep(m, TurnDeclined(m, session, turn, now), Event(TurnInterrupted, session, Some(turn)), turn);
  }

  lemma ConflictKeeps(m: Manager, turn: TurnRecord, status: ProviderStatus, now: int)
    requires Inv(m)
    ensures Inv(Conflict(m, turn, status, now))
  {
    SessionCallKeeps(m, Conflict(m, turn, status, now), Event(ProviderError, turn.session, None));
  }

  /** Approvals stay in order when no turn that waits for one changes its status. */
  lemma ApprovalsStay(r: Records, after: Records)
    requires ApprovalsOk(r) && after.approvals == r.approvals && r.turns.Keys <= after.turns.Keys
    requires forall t :: t in r.turns ==> after.turns[t].session == r.turns[t].session
    requires forall t :: t in r.turns && r.turns[t].status == "waiting_for_approval" ==> after.turns[t].status == r.turns[t].status
    ensures ApprovalsOk(after)
  {
  }

  /** One turn that waits for no approval gets another status that does not either; it has not ended, or stays as it is. */
  ghost predicate OneTurnMoves(r: Records, after: Records, turn: Id) {
    && after.approvals == r.approvals && Keyed(after) && after.turns.Keys == r.turns.Keys && turn in r.turns
    && (forall t :: t in r.turns && t != turn ==> after.turns[t] == r.turns[t])
    && after.turns[turn].session == r.turns[turn].session
    && r.turns[turn].status != "waiting_for_approval" && after.turns[turn].status != "waiting_for_approval"
    && (IsTerminal(r.turns[turn].status) ==> after.turns[turn].status == r.turns[turn].status)
  }

  lemma TurnMoves(m: Manager, next: Manager, turn: Id)
    requires Inv(m) && OneTurnMoves(m.records, next.records, turn) && next.waits <= m.waits
    ensures ApprovalsOk(next.records) && WaitsOk(next) && Keyed(next.records)
    ensures forall t :: t in m.records.turns && IsTerminal(m.records.turns[t].status) ==>
              next.records.turns[t].status == m.records.turns[t].status
  {
    hide IsTerminal, EndingOk, Keyed;
    ApprovalsStay(m.records, next.records);
    hide ApprovalsOk;
  }

  lemma ResultMoves(m: Manager, wait: Wait, status: ProviderStatus, now: int)
    requires Keyed(m.records) && wait.turn in m.records.turns && m.records.turns[wait.turn].session == wait.session
    requires m.records.turns[wait.turn].status != "waiting_for_approval" && !IsTerminal(m.records.turns[wait.turn].status)
    ensures
      var next := ApplyResult(m, wait, status, now);
      var event := Event(KindOf(status), wait.session, Some(wait.turn));
      && OneTurnMoves(m.records, next.records, wait.turn) && next.records.turns[wait.turn].status == StatusText(status)
      && next.waits == m.waits && next.events == if wait.session in m.records.sessions then m.events + [event] else m.events
  {
    StatusTexts(status);
    hide StatusText, KindOf, IsTerminal;
  }

  lemma StatusTexts(status: ProviderStatus)
    ensures StatusText(status) != "waiting_for_approval"
    ensures EndsTurn(KindOf(status)) ==> FinalStatus(KindOf(status)) == StatusText(status)
  {
  }

  lemma FirstResultKeeps(m: Manager, wait: Wait, status: ProviderStatus, now: int)
    requires Inv(m) && wait.turn in m.records.turns && m.records.turns[wait.turn].session == wait.session
    requires m.records.turns[wait.turn].status != "waiting_for_approval"
    requires !IsTerminal(m.records.turns[wait.turn].status)
    ensures Inv(ApplyResult(m, wait, status, now))
  {
    var next := ApplyResult(m, wait, status, now);
    var event := Event(KindOf(status), wait.session, Some(wait.turn));
    StatusTexts(status);
    ResultMoves(m, wait, status, now);
    TurnMoves(m, next, wait.turn);
    hide ApplyResult, StatusText, FinalStatus, KindOf, EndingOk, ApprovalsOk, Keyed, WaitsOk, IsTerminal;
    if wait.session !in m.records.sessions {
      QuietStep(m, next, Event(ProviderError, wait.session, None));
    } else if EndsTurn(event.kind) {
      EndingStep(m, next, event, wait.turn);
    } else {
      QuietStep(m, next, event);
    }
  }

  lemma ResultKeeps(m: Manager, wait: Wait, status: ProviderStatus, now: int)
    requires Inv(m) && wait.turn in m.records.turns && m.records.turns[wait.turn].status != "waiting_for_approval"
    ensures Inv(ApplyResult(m, wait, status, now))
  {
    var turn := m.records.turns[wait.turn];
    if turn.session == wait.session {
      if IsTerminal(turn.status) {
        ConflictKeeps(m, turn, status, now);
      } else {
        FirstResultKeeps(m, wait, status, now);
      }
    }
  }

  lemma FailMoves(r: Records, turn: Id, now: int)
    requires Keyed(r) && turn in r.turns && r.turns[turn].status != "waiting_for_approval"
    ensures OneTurnMoves(r, FailTurn(r, turn, now), turn)
  {
    assert "failed" != "waiting_for_approval";
    hide IsTerminal;
  }

  lemma FailTurnKeeps(m: Manager, turn: Id, now: int)
    requires Inv(m) && turn in m.records.turns && m.records.turns[turn].status != "waiting_for_approval"
    ensures Inv(m.(records := FailTurn(m.records, turn, now)))
  {
    FailMoves(m.records, turn, now);
    TurnMoves(m, m.(records := FailTurn(m.records, turn, now)), turn);
    hide FailTurn, OneTurnMoves, EndingOk, ApprovalsOk, Keyed, WaitsOk, IsTerminal;
    QuietStep(m, m.(records := FailTurn(m.records, turn, now)), Event(ProviderError, "", None));
  }

  lemma FailureKeeps(m: Manager, wait: Wait, now: int)
    requires Inv(m) && wait.turn in m.records.turns && m.records.turns[wait.turn].status != "waiting_for_approval"
    ensures Inv(ApplyFailure(m, wait, now))
  {
    FailTurnKeeps(m, wait.turn, now);
    SessionCallKeeps(m.(records := FailTurn(m.records, wait.turn, now)), ApplyFailure(m, wait, now),
                     Event(ProviderError, wait.session, Some(wait.turn)));
  }

  /** Recovery fails only turns that were waiting, and resumes waits only for turns that were not. */
  lemma RecoveredTurns(r: Records, env: Env)
    requires Keyed(r) && Recovers(r, env)
    ensures Recovered(r, env).turns.Keys == r.turns.Keys
    ensures forall t :: t in r.turns && r.turns[t].status != "waiting_for_approval" ==>
              Recovered(r, env).turns[t] == r.turns[t]
  {
  }

  lemma ResumedTurns(r: Records, env: Env)
    requires Keyed(r)
    ensures forall w :: w in ResumedWaits(r, env) ==>
              w.turn in r.turns && r.turns[w.turn].status != "waiting_for_approval"
  {
  }

  lemma PartTurns(r: Records, env: Env, left: set<Id>)
    requires Keyed(r)
    ensures
      var turns := RepairedExcept(r, env, left);
      && turns.Keys == r.turns.Keys
      && (forall t :: t in turns ==> turns[t].id == t && turns[t].session == r.turns[t].session)
      && (forall t :: t in r.turns && (r.turns[t].status != "waiting_for_approval" || !Repairs(r, env, t)) ==> turns[t] == r.turns[t])
  {
    hide Reattach, AwaitsApproval;
  }

  lemma PartSessions(m: Manager, env: Env, left: set<Id>)
    requires Keyed(m.records) && Reaches(m.records, env, left)
    ensures
      var sessions := RecoverPart(m, env, left).records.sessions;
      forall s :: s in sessions ==> sessions[s].id == s
  {
    var r := m.records;
    forall s | s in r.sessions && s !in left ensures RecoverSession(r, r.sessions[s], env).value.id == s {
      RecoverKeepsId(r, r.sessions[s], env);
    }
    hide RepairedExcept, WaitsExcept, RecoverSession;
  }

  lemma PartApprovals(m: Manager, env: Env, left: set<Id>)
    requires Keyed(m.records) && ApprovalsOk(m.records) && Reaches(m.records, env, left)
    ensures ApprovalsOk(RecoverPart(m, env, left).records)
  {
    var r := m.records;
    PartTurns(r, env, left);
    forall a | a in r.approvals && r.approvals[a].status == "pending" ensures !Repairs(r, env, r.approvals[a].turn) {
      PendingTurnIsNotRepaired(r, env, a);
    }
    hide Repairs, RepairedExcept, WaitsExcept;
  }

  /** A recovery that stops half way keeps the invariant too. */
  lemma RecoverPartKeeps(m: Manager, env: Env, left: set<Id>)
    requires Inv(m) && Reaches(m.records, env, left)
    ensures Inv(RecoverPart(m, env, left))
  {
    PartTurns(m.records, env, left);
    PartSessions(m, env, left);
    PartApprovals(m, env, left);
    ResumedTurns(m.records, env);
    RecoverEndings(m, RecoverPart(m, env, left));
    hide ApprovalsOk, Reaches, RepairedExcept, Repairs, RecoverSession, ResumedWaits, EndingOk;
  }

  lemma RecoverKeeps(m: Manager, env: Env)
    requires Inv(m)
    ensures Inv(RecoverAll(m, env))
  {
    if Recovers(m.records, env) {
      RecoveredKeepsWellFormed(m.records, env);
      RecoveredTurns(m.records, env);
      ResumedTurns(m.records, env);
      RecoveredApprovals(m.records, env);
      RecoverEndings(m, RecoverAll(m, env));
    }
  }

  lemma RecoverEndings(m: Manager, next: Manager)
    requires forall t :: EndingOk(m, t)
    requires next.events == m.events && next.records.turns.Keys == m.records.turns.Keys
    requires forall t :: t in m.records.turns && m.records.turns[t].status != "waiting_for_approval" ==>
               next.records.turns[t] == m.records.turns[t]
    ensures forall t :: EndingOk(next, t)
  {
    QuietStep(m, next, Event(ProviderError, "", None));
  }

  lemma RecoveredApprovals(r: Records, env: Env)
    requires Keyed(r) && ApprovalsOk(r) && Recovers(r, env)
    ensures ApprovalsOk(Recovered(r, env))
  {
    RecoveredKeepsWellFormed(r, env);
    forall a | a in r.approvals && r.approvals[a].status == "pending"
      ensures !Repairs(r, env, r.approvals[a].turn) && !IsOrphan(r, r.approvals[a])
    {
      PendingTurnIsNotRepaired(r, env, a);
    }
  }

  lemma RespondKeeps(m: Manager, session: Id, approval: Id, decision: Decision, payload: Option<string>, now: int)
    requires Inv(m) && session in m.records.sessions && approval in m.records.approvals
    requires m.records.approvals[approval].status == "pending"
    ensures
      var m' := Resolve(m, session, approval, decision, payload, now);
      var turn := m.records.approvals[approval].turn;
      Inv(if decision.Accept? then TurnAccepted(m', session, turn, now) else TurnDeclined(m', session, turn, now))
  {
    ResolveFacts(m, session, approval, decision, payload, now);
    var m' := Resolve(m, session, approval, decision, payload, now);
    var turn := m.records.approvals[approval].turn;
    if decision.Accept? {
      AcceptedKeeps(m', session, turn, now);
    } else {
      RefusedKeeps(m', session, turn, now);
    }
  }

  lemma SendKeeps(m: Manager, session: Id, turn: Id, approval: Id, asked: Option<string>, ack: Ack, now: int)
    requires Inv(m)
    ensures Inv(Send(m, session, turn, approval, asked, ack, now))
  {
    hide Inv, SendRejected, SendHeld, SendStarted, NeedsApproval;
    if turn !in m.records.turns && approval !in m.records.approvals && Writable(m, session) {
      SendRejectedKeeps(m, session, turn, now);
      SendHeldKeeps(m, session, turn, approval, now);
      SendStartedKeeps(m, session, turn, now);
    }
  }

  lemma AnswerKeeps(m: Manager, step: Step, registered: set<Kind>)
    requires Inv(m) && (step.TurnResult? || step.WaitFailure?)
    ensures Inv(Take1(m, step, registered))
  {
    if step.wait in m.waits {
      var m' := m.(waits := m.waits - {step.wait});
      SessionCallKeeps(m, m', Event(ProviderError, "", None));
      if step.TurnResult? {
        ResultKeeps(m', step.wait, step.status, step.now);
      } else {
        FailureKeeps(m', step.wait, step.now);
      }
    }
  }

  lemma StepKeeps(m: Manager, step: Step, registered: set<Kind>)
    requires Inv(m)
    ensures Inv(Take1(m, step, registered))
  {
    hide Send, RecoverAll, RecoverPart, ApplyResult, ApplyFailure;
    var next := Take1(m, step, registered);
    match step
    case CreateSession(session, _, _, _, _) => SessionCallKeeps(m, next, Event(SessionCreated, session, None));
    case ResumeSession(session, _, _, _, _) => SessionCallKeeps(m, next, Event(SessionResumed, session, None));
    case CloseSession(session, _, _) => SessionCallKeeps(m, next, Event(SessionClosed, session, None));
    case ForceClose(session, _) => SessionCallKeeps(m, next, Event(SessionClosed, session, None));
    case SendTurn(session, turn, approval, asked, ack, now) => SendKeeps(m, session, turn, approval, asked, ack, now);
    case InterruptTurn(session, turn, _) => SessionCallKeeps(m, next, Event(InterruptRequested, session, Some(turn)));
    case RespondApproval(session, approval, decision, payload, accepted, now) =>
      if Answerable(m, session, approval, registered) && decision.Some? && accepted {
        RespondKeeps(m, session, approval, decision.value, payload, now);
      }
    case TurnResult(_, _, _) => AnswerKeeps(m, step, registered);
    case WaitFailure(_, _) => AnswerKeeps(m, step, registered);
    case Restart => SessionCallKeeps(m, next, Event(ProviderError, "", None));
    case Recover(env, left) =>
      RecoverKeeps(m, env);
      if Keyed(m.records) && Reaches(m.records, env, left) {
        RecoverPartKeeps(m, env, left);
      }
  }

  lemma {:induction false} RunKeeps(m: Manager, steps: seq<Step>, registered: set<Kind>)
    requires Inv(m)
    ensures Inv(Run(m, steps, registered))
  {
    if steps != [] {
      RunKeeps(m, steps[..|steps| - 1], registered);
      StepKeeps(Run(m, steps[..|steps| - 1], registered), steps[|steps| - 1], registered);
    }
  }

  // ---- Terminal turns ----

  /** No call changes the status of a turn that has ended. */
  lemma TerminalStays(m: Manager, step: Step, registered: set<Kind>, turn: Id)
    requires Inv(m) && turn in m.records.turns && IsTerminal(m.records.turns[turn].status)
    ensures
      var next := Take1(m, step, registered);
      turn in next.records.turns && next.records.turns[turn].status == m.records.turns[turn].status
  {
    if step.Recover? {
      RecoverStays(m, step, registered, turn);
    } else if step.RespondApproval? {
      RespondStays(m, step, registered, turn);
    } else {
      hide Inv, Take1;
      OthersStay(m, step, registered, turn);
    }
  }

  lemma RecoverStays(m: Manager, step: Step, registered: set<Kind>, turn: Id)
    requires Inv(m) && turn in m.records.turns && IsTerminal(m.records.turns[turn].status) && step.Recover?
    ensures
      var next := Take1(m, step, registered);
      turn in next.records.turns && next.records.turns[turn].status == m.records.turns[turn].status
  {
    var r, env := m.records, step.env;
    PartTurns(r, env, step.left);
    if Recovers(r, env) {
      RecoveredTurns(r, env);
    }
    hide Repairs, RepairedExcept, Recovers, RecoverSession, ApprovalsOk, EndingOk;
  }

  lemma RespondStays(m: Manager, step: Step, registered: set<Kind>, turn: Id)
    requires Inv(m) && turn in m.records.turns && IsTerminal(m.records.turns[turn].status) && step.RespondApproval?
    ensures
      var next := Take1(m, step, registered);
      turn in next.records.turns && next.records.turns[turn].status == m.records.turns[turn].status
  {
    if Answerable(m, step.session, step.approval, registered) {
      assert m.records.approvals[step.approval].turn != turn;
    }
    hide Inv, EndingOk, Answerable;
  }

  lemma OthersStay(m: Manager, step: Step, registered: set<Kind>, turn: Id)
    requires turn in m.records.turns && IsTerminal(m.records.turns[turn].status) && !step.Recover? && !step.RespondApproval?
    ensures
      var next := Take1(m, step, registered);
      turn in next.records.turns && next.records.turns[turn].status == m.records.turns[turn].status
  {
    hide RecoverAll, Respond;
  }

  /** Once a turn has ended its status never changes again, restarts and recoveries included. */
  lemma {:induction false} TerminalIsFinal(m: Manager, steps: seq<Step>, registered: set<Kind>, turn: Id)
    requires Inv(m) && turn in m.records.turns && IsTerminal(m.records.turns[turn].status)
    ensures
      var later := Run(m, steps, registered);
      turn in later.records.turns && later.records.turns[turn].status == m.records.turns[turn].status
  {
    if steps != [] {
      var short := steps[..|steps| - 1];
      TerminalIsFinal(m, short, registered, turn);
      RunKeeps(m, short, registered);
      TerminalStays(Run(m, short, registered), steps[|steps| - 1], registered, turn);
    }
  }

  /**
  Over a whole run, a turn is announced as completed, interrupted or failed at most once, and what
  was announced is its stored status; and a pending approval's turn is still waiting for it.
  */
  lemma EndsAtMostOnce(steps: seq<Step>, registered: set<Kind>, turn: Id)
    ensures
      var m := Run(NewManager(), steps, registered);
      && |Endings(m.events, turn)| <= 1
      && (Endings(m.events, turn) != [] ==>
            turn in m.records.turns && m.records.turns[turn].status == FinalStatus(Endings(m.events, turn)[0]))
      && (forall a :: a in m.records.approvals && m.records.approvals[a].status == "pending" ==>
            m.records.approvals[a].turn in m.records.turns
            && m.records.turns[m.records.approvals[a].turn].status == "waiting_for_approval")
  {
    RunKeeps(NewManager(), steps, registered);
    assert EndingOk(Run(NewManager(), steps, registered), turn);
  }
}
