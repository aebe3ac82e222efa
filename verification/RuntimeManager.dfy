/**
The session manager as its source keeps it: three record maps updated in place, an event log and
the wait tasks. Each method is proved against the step it stands for, and the startup recovery
loops against the recovery function.
*/
module RuntimeManager {
  import opened Wrappers
  import opened Recovery
  import opened TurnMachine

  class RuntimeSessionManager {
    const registered: set<Kind>
    var sessions: map<Id, SessionRecord>
    var turns: map<Id, TurnRecord>
    var approvals: map<Id, ApprovalRecord>
    var events: seq<Event>
    var waits: set<Wait>

    ghost function Snapshot(): Manager
      reads this
    {
      Manager(Records(sessions, turns, approvals), events, waits)
    }

    /** Hydration: each table's rows, keyed by id. */
    constructor (registered: set<Kind>, records: Records)
      ensures this.registered == registered && Snapshot() == Manager(records, [], {})
    {
      this.registered := registered;
      sessions, turns, approvals := records.sessions, records.turns, records.approvals;
      events, waits := [], {};
    }

    method AppendEvent(kind: EventKind, session: Id, turn: Option<Id>)
      modifies this`events
      ensures events == old(events) + [Event(kind, session, turn)]
    {
      events := events + [Event(kind, session, turn)];
    }

    method CreateSession(session: Id, provider: string, mode: Option<string>, made: ProviderSession, now: int)
        returns (error: Option<Error>)
      requires session !in sessions
      modifies this
      ensures Snapshot() == Create(old(Snapshot()), session, provider, mode, made, now, registered)
      ensures error.Some? ==> Snapshot() == old(Snapshot())
      ensures error.None? ==> session in sessions && sessions[session].status == "ready"
    {
      if !HasAdapter(provider, registered) {
        return Some(ProviderNotRegistered);
      }
      if made.Unmade? {
        return Some(ProviderFailed);
      }
      if made.session != session {
        return Some(ProtocolViolation);
      }
      var record := SessionRecord(session, provider, "ready", mode, Some(made.providerRef), made.canonicalRef, None, None, now);
      sessions := sessions[session := record];
      AppendEvent(SessionCreated, session, None);
      error := None;
    }

    method ResumeSession(session: Id, newRef: Option<string>, newCanonical: Option<string>, made: ProviderSession, now: int)
        returns (error: Option<Error>)
      requires session in sessions ==> sessions[session].id == session
      modifies this
      ensures Snapshot() == Resume(old(Snapshot()), session, newRef, newCanonical, made, now, registered)
      ensures error.Some? ==> Snapshot() == old(Snapshot())
    {
      if session !in sessions {
        return Some(NotFound);
      }
      var updated := sessions[session];
      if !HasAdapter(updated.provider, registered) {
        return Some(ProviderNotRegistered);
      }
      if newRef.Or(updated.providerRef).None? {
        return Some(InvalidState);
      }
      if made.Unmade? {
        return Some(ProviderFailed);
      }
      if made.session != session {
        return Some(ProtocolViolation);
      }
      updated := updated.(providerRef := Some(made.providerRef), canonicalRef := made.canonicalRef);
      if updated.status != "closed" {
        updated := updated.(status := "ready");
      }
      updated := updated.(updatedAt := now);
      sessions := sessions[session := updated];
      AppendEvent(SessionResumed, session, None);
      error := None;
    }

    method FinalizeSessionClose(session: Id, now: int) returns (error: Option<Error>)
      requires session in sessions ==> sessions[session].id == session
      modifies this
      ensures Snapshot() == FinalizeClose(old(Snapshot()), session, now)
      ensures error.Some? <==> session !in old(sessions)
    {
      if session !in sessions {
        return Some(NotFound);
      }
      var updated := sessions[session].(status := "closed");
      updated := updated.(activeTurn := None, updatedAt := now);
      sessions := sessions[session := updated];
      AppendEvent(SessionClosed, session, None);
      error := None;
    }

    /** The stores of an acknowledged or rejected turn share this order: turn, session, approval. */
    method PutTurnAndSession(turn: TurnRecord, session: SessionRecord)
      modifies this`turns, this`sessions
      ensures turns == old(turns)[turn.id := turn] && sessions == old(sessions)[session.id := session]
    {
      turns := turns[turn.id := turn];
      sessions := sessions[session.id := session];
    }

    method SendTurn(session: Id, turn: Id, approval: Id, asked: Option<string>, ack: Ack, now: int)
        returns (accepted: bool)
      requires turn !in turns && approval !in approvals
      requires session in sessions ==> sessions[session].id == session
      modifies this
      ensures Snapshot() == Send(old(Snapshot()), session, turn, approval, asked, ack, now)
      ensures accepted <==> Writable(old(Snapshot()), session) && ack == Acked(session, turn)
    {
      if session !in sessions {
        return false;
      }
      var record := sessions[session];
      if IsShut(record.status) || record.activeTurn.Some? || ParseKind(record.provider).None? {
        return false;
      }
      var requiresApproval := NeedsApproval(record, asked);
      if ack.Rejected? {
        var failedTurn := TurnRecord(turn, session, "failed", Some(now), Some("send_turn"));
        var failedSession := record.(activeTurn := None, updatedAt := now);
        if !IsShut(failedSession.status) {
          failedSession := failedSession.(status := "ready");
        }
        PutTurnAndSession(failedTurn, failedSession);
        AppendEvent(TurnFailed, session, Some(turn));
        return false;
      }
      if ack.session != session || ack.turn != turn {
        return false;
      }
      var status := if requiresApproval then "waiting_for_approval" else "in_progress";
      var updated := record.(activeTurn := Some(turn), updatedAt := now,
                             status := if requiresApproval then "waiting_for_approval" else "turn_running");
      PutTurnAndSession(TurnRecord(turn, session, status, None, None), updated);
      if requiresApproval {
        approvals := approvals[approval := ApprovalRecord(approval, session, turn, "pending", None, None)];
        AppendEvent(ApprovalRequested, session, Some(turn));
      } else {
        AppendEvent(TurnStarted, session, Some(turn));
        waits := waits + {Wait(session, turn)};
      }
      accepted := true;
    }

    method RespondApproval(session: Id, approval: Id, decision: Option<Decision>, payload: Option<string>,
                           accepted: bool, now: int) returns (error: Option<Error>)
      modifies this
      ensures Snapshot() == Respond(old(Snapshot()), session, approval, decision, payload, accepted, now, registered)
      ensures error.Some? ==> Snapshot() == old(Snapshot())
      ensures error.None? ==> approval in approvals && approvals[approval].status != "pending"
    {
      if session !in sessions {
        return Some(NotFound);
      }
      if !HasAdapter(sessions[session].provider, registered) {
        return Some(ProviderNotRegistered);
      }
      if approval !in approvals {
        return Some(NotFound);
      }
      var resolved := approvals[approval];
      if resolved.session != session {
        return Some(ProtocolViolation);
      }
      if resolved.status != "pending" || decision.None? {
        return Some(InvalidState);
      }
      if !accepted {
        return Some(ProviderFailed);
      }
      resolved := resolved.(status := if decision.value.Accept? then "accept" else "decline",
                            response := payload, resolvedAt := Some(now));
      approvals := approvals[approval := resolved];
      AppendEvent(ApprovalResolved, session, Some(resolved.turn));
      if decision.value.Accept? {
        AcceptTurn(session, resolved.turn, now);
      } else {
        DeclineTurn(session, resolved.turn, now);
      }
      error := None;
    }

    method AcceptTurn(session: Id, turn: Id, now: int)
      requires session in sessions
      modifies this
      ensures Snapshot() == TurnAccepted(old(Snapshot()), session, turn, now)
    {
      if turn in turns {
        turns := turns[turn := turns[turn].(status := "in_progress", error := None)];
      }
      sessions := sessions[session := sessions[session].(status := "turn_running", updatedAt := now)];
      AppendEvent(TurnStarted, session, Some(turn));
      waits := waits + {Wait(session, turn)};
    }

    method DeclineTurn(session: Id, turn: Id, now: int)
      requires session in sessions
      modifies this
      ensures Snapshot() == TurnDeclined(old(Snapshot()), session, turn, now)
    {
      if turn in turns {
        turns := turns[turn := turns[turn].(status := "interrupted", completedAt := Some(now), error := Some("approval declined"))];
      }
      ReleaseSession(session, turn, now);
      AppendEvent(TurnInterrupted, session, Some(turn));
    }

    method ReleaseSession(session: Id, turn: Id, now: int)
      requires session in sessions
      modifies this`sessions
      ensures sessions == old(sessions)[session := Release(old(sessions)[session], turn).(updatedAt := now)]
    {
      var updated := sessions[session];
      if updated.activeTurn == Some(turn) {
        updated := updated.(activeTurn := None);
      }
      if !IsShut(updated.status) {
        updated := updated.(status := "ready");
      }
      sessions := sessions[session := updated.(updatedAt := now)];
    }

    method ApplyTerminalResult(wait: Wait, status: ProviderStatus, now: int) returns (error: Option<Error>)
      modifies this
      ensures Snapshot() == ApplyResult(old(Snapshot()), wait, status, now)
      ensures error.None? ==> wait.turn in turns && turns[wait.turn].status == StatusText(status)
    {
      if wait.turn !in turns {
        return Some(NotFound);
      }
      var turn := turns[wait.turn];
      if turn.session != wait.session {
        return Some(ProtocolViolation);
      }
      if IsTerminal(turn.status) {
        if turn.status == StatusText(status) {
          return None;
        }
        if turn.session in sessions {
          sessions := sessions[turn.session :=
            sessions[turn.session].(status := "failed", failureCode := Some("terminal_conflict"), updatedAt := now)];
        }
        return Some(ProtocolViolation);
      }
      turns := turns[wait.turn := turn.(status := StatusText(status), completedAt := Some(now))];
      if wait.session !in sessions {
        return Some(NotFound);
      }
      ReleaseSession(wait.session, wait.turn, now);
      AppendEvent(KindOf(status), wait.session, Some(wait.turn));
      error := None;
    }

    method ApplyTerminalFailure(wait: Wait, now: int)
      modifies this
      ensures Snapshot() == ApplyFailure(old(Snapshot()), wait, now)
    {
      if wait.turn in turns {
        if !IsTerminal(turns[wait.turn].status) {
          turns := turns[wait.turn :=
            turns[wait.turn].(status := "failed", completedAt := Some(now), error := Some("wait_for_turn"))];
        }
      }
      if wait.session in sessions {
        var updated := sessions[wait.session];
        if updated.activeTurn == Some(wait.turn) {
          updated := updated.(activeTurn := None);
        }
        updated := updated.(status := "failed", failureCode := Some("provider_wait_failure"), updatedAt := now);
        sessions := sessions[wait.session := updated];
      }
      AppendEvent(ProviderError, wait.session, Some(wait.turn));
    }

    // ---- Startup recovery ----

    /** The resume half of one session's pass: the record to continue with and whether it changed. */
    method Resumed(session: SessionRecord, env: Env) returns (updated: Result<SessionRecord, Error>, changed: bool)
      ensures updated == Reattach(session, env)
      ensures updated.Ok? ==> (changed <==> updated.value != session)
    {
      changed := false;
      if IsShut(session.status) {
        return Ok(session), false;
      }
      if session.providerRef.None? {
        return Ok(Fail(session, "startup_missing_provider_ref")), true;
      }
      var kind := ParseKind(session.provider);
      if kind.None? {
        return Err(ProtocolViolation), false;
      }
      if kind.value !in env.registered {
        return Ok(session), false;
      }
      match env.answers(session.id) {
        case Refused => return Ok(Fail(session, "startup_provider_resume_failed")), true;
        case Resumed(providerRef, canonicalRef) =>
          var next := session;
          if next.providerRef != Some(providerRef) {
            next := next.(providerRef := Some(providerRef));
            changed := true;
          }
          if next.canonicalRef != canonicalRef {
            next := next.(canonicalRef := canonicalRef);
            changed := true;
          }
          updated := Ok(next);
      }
    }

    /** The pass over one session, against the snapshots taken at the start. */
    method RecoverOne(session: Id, env: Env, r: Records) returns (error: Option<Error>)
      requires session in sessions && session in r.sessions && sessions[session] == r.sessions[session]
      requires Keyed(r)
      modifies this`sessions, this`turns, this`waits
      ensures error.None? <==> RecoverSession(r, r.sessions[session], env).Ok?
      ensures error.None? ==> sessions == old(sessions)[session := RecoverSession(r, r.sessions[session], env).value]
      ensures error.Some? ==> sessions == old(sessions) && turns == old(turns) && waits == old(waits)
      ensures error.None? ==> turns == SessionRepair(old(turns), r, session, env)
      ensures error.None? ==> waits == old(waits) + SessionWait(r, session, env)
    {
      hide AwaitsApproval;
      var record := sessions[session];
      var resumed, changed := Resumed(record, env);
      if resumed.Err? {
        return Some(resumed.error);
      }
      var updated := resumed.value;
      ghost var mid := updated;
      var verdict := Judge(r, updated);
      match verdict {
        case NoTurn =>
          if updated.status == "turn_running" || updated.status == "waiting_for_approval" {
            updated := updated.(status := "ready");
            changed := true;
          }
        case Missing =>
          updated := ReadyUnlessShut(updated.(activeTurn := None));
          changed := true;
        case Foreign =>
          updated := Fail(updated, "startup_turn_ownership_mismatch");
          changed := true;
        case Finished =>
          updated := ReadyUnlessShut(updated.(activeTurn := None));
          changed := true;
        case Waiting =>
          if updated.status != "waiting_for_approval" {
            updated := updated.(status := "waiting_for_approval");
            changed := true;
          }
        case Orphaned =>
          var turn := r.turns[updated.activeTurn.value];
          turns := turns[turn.id := Repaired(turn, env)];
          updated := ReadyUnlessShut(updated.(activeTurn := None));
          changed := true;
        case Running =>
          if !IsShut(updated.status) {
            updated := updated.(status := "turn_running");
          }
          if ParseKind(record.provider).None? {
            return Some(ProtocolViolation);
          }
          waits := waits + {Wait(session, updated.activeTurn.value)};
      }
      if changed {
        updated := updated.(updatedAt := env.clock(session));
        sessions := sessions[session := updated];
      }
      error := None;
    }

    /** The last loop: pending approvals whose turn is gone or over are declined. */
    method RecoverApprovals(env: Env, r: Records)
      requires approvals == r.approvals && Keyed(r)
      modifies this`approvals
      ensures approvals == map a | a in r.approvals ::
                if IsOrphan(r, r.approvals[a]) then Declined(r.approvals[a], env) else r.approvals[a]
    {
      var left := r.approvals.Keys;
      while left != {}
        invariant left <= r.approvals.Keys
        invariant approvals == map a | a in r.approvals ::
                    if a !in left && IsOrphan(r, r.approvals[a]) then Declined(r.approvals[a], env) else r.approvals[a]
        decreases left
      {
        var a :| a in left;
        left := left - {a};
        var approval := r.approvals[a];
        if approval.status == "pending" {
          if approval.turn !in r.turns || IsTerminal(r.turns[approval.turn].status) {
            approvals := approvals[approval.id := Declined(approval, env)];
          }
        }
      }
    }

    /** The loop over the sessions, in whatever order the map yields them. */
    method RecoverSessions(env: Env, r: Records) returns (error: Option<Error>, ghost left: set<Id>)
      requires sessions == r.sessions && turns == r.turns && Keyed(r)
      modifies this`sessions, this`turns, this`waits
      ensures error.None? <==> Recovers(r, env)
      ensures error.None? ==> sessions == Recovered(r, env).sessions && turns == Recovered(r, env).turns
      ensures error.None? ==> waits == old(waits) + ResumedWaits(r, env)
      ensures error.Some? ==>
        && Reaches(r, env, left)
        && sessions == (map s | s in r.sessions :: if s in left then r.sessions[s] else RecoverSession(r, r.sessions[s], env).value)
        && turns == RepairedExcept(r, env, left) && waits == old(waits) + WaitsExcept(r, env, left)
    {
      hide RecoverSession, Repairs, Repaired, SessionWait, RepairedExcept, SessionRepair, WaitsExcept;
      RepairsSoFar(r, env);
      NoWaitsYet(r, env);
      var todo := sessions.Keys;
      left := todo;
      while todo != {}
        invariant left == todo <= r.sessions.Keys && sessions.Keys == r.sessions.Keys
        invariant forall s :: s in r.sessions && s !in left ==> RecoverSession(r, r.sessions[s], env).Ok?
        invariant forall s :: s in r.sessions ==>
                    sessions[s] == if s in left then r.sessions[s] else RecoverSession(r, r.sessions[s], env).value
        invariant turns == RepairedExcept(r, env, left)
        invariant waits == old(waits) + WaitsExcept(r, env, left)
        decreases todo
      {
        var session :| session in todo;
        ghost var rest := left;
        error := RecoverOne(session, env, r);
        if error.Some? {
          return;
        }
        todo := todo - {session};
        left := todo;
        RepairOneMore(r, env, rest, session);
        WaitOneMore(r, env, rest, session);
      }
      assert sessions == Recovered(r, env).sessions;
      error := None;
    }

    /**
    `recover_startup`: the sessions, then the approvals. It succeeds exactly when every session can
    be recovered, and then leaves the recovered records; otherwise it leaves the sessions it reached recovered,
    with their turns and waits, and the rest as it was.
    */
    method RecoverStartup(env: Env) returns (error: Option<Error>, ghost left: set<Id>)
      requires Keyed(Snapshot().records)
      modifies this
      ensures error.None? <==> Recovers(old(Snapshot()).records, env)
      ensures Snapshot() == Recover1(old(Snapshot()), env, left)
      ensures error.Some? ==> Reaches(old(Snapshot()).records, env, left) && Snapshot() == RecoverPart(old(Snapshot()), env, left)
      ensures events == old(events)
    {
      var r := Records(sessions, turns, approvals);
      error, left := RecoverSessions(env, r);
      if error.None? {
        RecoverApprovals(env, r);
      }
    }
  }

  function SessionWait(r: Records, s: Id, env: Env): set<Wait>
    requires s in r.sessions
  {
    if Reattach(r.sessions[s], env).Ok? && VerdictOn(r, r.sessions[s], env) == Running
    then {Wait(s, Reattach(r.sessions[s], env).value.activeTurn.value)}
    else {}
  }

  /** The turns after one session's active turn was repaired, if it is an orphan. */
  ghost function SessionRepair(turns: map<Id, TurnRecord>, r: Records, s: Id, env: Env): map<Id, TurnRecord>
    requires s in r.sessions
  {
    if Reattach(r.sessions[s], env).Ok? && VerdictOn(r, r.sessions[s], env) == Orphaned
    then
      var t := Reattach(r.sessions[s], env).value.activeTurn.value;
      turns[t := Repaired(r.turns[t], env)]
    else turns
  }

  lemma NoWaitsYet(r: Records, env: Env)
    ensures WaitsExcept(r, env, r.sessions.Keys) == {}
    ensures WaitsExcept(r, env, {}) == ResumedWaits(r, env)
  {
  }

  lemma WaitOneMore(r: Records, env: Env, left: set<Id>, s: Id)
    requires s in left && s in r.sessions
    ensures WaitsExcept(r, env, left - {s}) == WaitsExcept(r, env, left) + SessionWait(r, s, env)
  {
  }

  /** A session repairs at most its own active turn. */
  lemma RepairOneMore(r: Records, env: Env, left: set<Id>, s: Id)
    requires s in left && s in r.sessions && Keyed(r)
    ensures RepairedExcept(r, env, left - {s}) == SessionRepair(RepairedExcept(r, env, left), r, s, env)
  {
    ReattachKeepsId(r.sessions[s], env);
    hide Reattach, AwaitsApproval;
  }

  lemma RepairsSoFar(r: Records, env: Env)
    ensures RepairedExcept(r, env, r.sessions.Keys) == r.turns
    ensures Recovers(r, env) ==> RepairedExcept(r, env, {}) == Recovered(r, env).turns
  {
    hide VerdictOn, Reattach;
  }
}
