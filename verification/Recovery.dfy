/**
Startup recovery of persisted sessions, turns and approvals, and the diagnostics checker that
looks for anomalies among them. Recovery is given as a function of the persisted records, the
registered providers and their answers; the manager's loops are proved against it elsewhere.
*/
module Recovery {
  import opened Wrappers
  import opened Text

  type Id = string

  datatype SessionRecord = SessionRecord(
    id: Id, provider: string, status: string, permissionMode: Option<string>, providerRef: Option<string>,
    canonicalRef: Option<string>, activeTurn: Option<Id>, failureCode: Option<string>, updatedAt: int)

  datatype TurnRecord = TurnRecord(
    id: Id, session: Id, status: string, completedAt: Option<int>, error: Option<string>)

  datatype ApprovalRecord = ApprovalRecord(
    id: Id, session: Id, turn: Id, status: string, resolvedAt: Option<int>, response: Option<string>)

  datatype Records = Records(
    sessions: map<Id, SessionRecord>, turns: map<Id, TurnRecord>, approvals: map<Id, ApprovalRecord>)

  datatype Kind = Codex | Claude | Acp

  datatype ResumeAnswer = Resumed(providerRef: string, canonicalRef: Option<string>) | Refused

  /** Registered adapters, each session's answer to a resume, and the clock as each record is written. */
  datatype Env = Env(registered: set<Kind>, answers: Id -> ResumeAnswer, clock: Id -> int)

  datatype Error = NotFound | InvalidState | ProtocolViolation | ProviderNotRegistered | ProviderFailed

  predicate IsTerminal(status: string) {
    status == "completed" || status == "interrupted" || status == "failed"
  }

  predicate IsShut(status: string) {
    status == "closed" || status == "failed"
  }

  function ParseKind(name: string): Option<Kind> {
    var normal := Lower(Trim(name));
    if normal == "codex" then Some(Codex)
    else if normal == "claude" then Some(Claude)
    else if normal == "acp" then Some(Acp)
    else None
  }

  /** Each record is stored under its own id. */
  ghost predicate Keyed(r: Records) {
    && (forall s :: s in r.sessions ==> r.sessions[s].id == s)
    && (forall t :: t in r.turns ==> r.turns[t].id == t)
    && (forall a :: a in r.approvals ==> r.approvals[a].id == a)
  }

  // ---- One session ----

  function Fail(s: SessionRecord, code: string): SessionRecord {
    s.(status := "failed", failureCode := Some(code), activeTurn := None)
  }

  /** Ask the provider to resume a session that is still open. */
  function Reattach(s: SessionRecord, env: Env): Result<SessionRecord, Error> {
    if IsShut(s.status) then Ok(s)
    else if s.providerRef.None? then Ok(Fail(s, "startup_missing_provider_ref"))
    else
      var kind := ParseKind(s.provider);
      if kind.None? then Err(ProtocolViolation)
      else if kind.value !in env.registered then Ok(s)
      else
        match env.answers(s.id)
        case Resumed(providerRef, canonicalRef) =>
          Ok(s.(providerRef := Some(providerRef), canonicalRef := canonicalRef))
        case Refused => Ok(Fail(s, "startup_provider_resume_failed"))
  }

  function ReadyUnlessShut(s: SessionRecord): SessionRecord {
    if IsShut(s.status) then s else s.(status := "ready")
  }

  predicate AwaitsApproval(r: Records, s: Id, t: Id) {
    exists a :: a in r.approvals && r.approvals[a].turn == t && r.approvals[a].session == s
                && r.approvals[a].status == "pending"
  }

  /** What recovery does with a session's active turn. */
  datatype Verdict =
    | NoTurn | Missing | Foreign | Finished | Waiting | Orphaned | Running

  function Judge(r: Records, s: SessionRecord): Verdict {
    if s.activeTurn.None? then NoTurn
    else
      var t := s.activeTurn.value;
      if t !in r.turns then Missing
      else if r.turns[t].session != s.id then Foreign
      else if IsTerminal(r.turns[t].status) then Finished
      else if r.turns[t].status == "waiting_for_approval" then
        if AwaitsApproval(r, s.id, r.turns[t].id) then Waiting else Orphaned
      else Running
  }

  /** The session after its active turn is judged. */
  function Settle(s: SessionRecord, verdict: Verdict): SessionRecord {
    match verdict
    case NoTurn =>
      if s.status == "turn_running" || s.status == "waiting_for_approval" then s.(status := "ready") else s
    case Missing => ReadyUnlessShut(s.(activeTurn := None))
    case Foreign => Fail(s, "startup_turn_ownership_mismatch")
    case Finished => ReadyUnlessShut(s.(activeTurn := None))
    case Waiting => s.(status := "waiting_for_approval")
    case Orphaned => ReadyUnlessShut(s.(activeTurn := None))
    case Running => s
  }

  /**
  A session whose turn is still running is marked so, but that alone does not count as a change:
  the mark is stored only when the resume has changed the record too.
  */
  function Marked(s: SessionRecord, verdict: Verdict): SessionRecord {
    if verdict == Running && !IsShut(s.status) then s.(status := "turn_running") else Settle(s, verdict)
  }

  function RecoverSession(r: Records, s: SessionRecord, env: Env): Result<SessionRecord, Error> {
    var reattached := Reattach(s, env);
    if reattached.Err? then reattached
    else
      var verdict := Judge(r, reattached.value);
      if verdict == Running && ParseKind(s.provider).None? then Err(ProtocolViolation)
      else if reattached.value == s && Settle(s, verdict) == s then Ok(s)
      else Ok(Marked(reattached.value, verdict).(updatedAt := env.clock(s.id)))
  }

  function VerdictOn(r: Records, s: SessionRecord, env: Env): Verdict
    requires Reattach(s, env).Ok?
  {
    Judge(r, Reattach(s, env).value)
  }

  // ---- All records ----

  /** Recovery succeeds when no session it has to reattach or wait for names an unknown provider. */
  ghost predicate Recovers(r: Records, env: Env) {
    forall s :: s in r.sessions ==> RecoverSession(r, r.sessions[s], env).Ok?
  }

  /** The turn is its own session's active turn, waits for approval, and has none pending. */
  predicate Repairs(r: Records, env: Env, t: Id)
    requires t in r.turns
  {
    var s := r.turns[t].session;
    && s in r.sessions && Reattach(r.sessions[s], env).Ok?
    && Reattach(r.sessions[s], env).value.activeTurn == Some(t)
    && VerdictOn(r, r.sessions[s], env) == Orphaned
  }

  function Repaired(turn: TurnRecord, env: Env): TurnRecord {
    turn.(status := "failed", completedAt := Some(env.clock(turn.id)),
          error := Some("startup recovery: missing pending approval"))
  }

  predicate IsOrphan(r: Records, a: ApprovalRecord) {
    a.status == "pending" && (a.turn !in r.turns || IsTerminal(r.turns[a.turn].status))
  }

  function Declined(a: ApprovalRecord, env: Env): ApprovalRecord {
    a.(status := "decline", resolvedAt := Some(env.clock(a.id)), response := Some("startup_recovery_orphaned_approval"))
  }

  ghost function Recovered(r: Records, env: Env): Records
    requires Recovers(r, env)
  {
    Records(
      map s | s in r.sessions :: RecoverSession(r, r.sessions[s], env).value,
      map t | t in r.turns :: if Repairs(r, env, t) then Repaired(r.turns[t], env) else r.turns[t],
      map a | a in r.approvals :: if IsOrphan(r, r.approvals[a]) then Declined(r.approvals[a], env) else r.approvals[a])
  }

  // ---- The checker ----

  datatype Anomaly =
    | MissingActiveTurn(session: Id, turn: Id)
    | ForeignActiveTurn(session: Id, turn: Id, owner: Id)
    | TerminalActiveTurn(session: Id, turn: Id, status: string)
    | ApprovalWithoutTurn(approval: Id, turn: Id)
    | ApprovalOfTerminalTurn(approval: Id, turn: Id, status: string)

  function SessionAnomaly(s: SessionRecord, turns: map<Id, TurnRecord>): Option<Anomaly> {
    if s.activeTurn.None? then None
    else
      var t := s.activeTurn.value;
      if t !in turns then Some(MissingActiveTurn(s.id, t))
      else if turns[t].session != s.id then Some(ForeignActiveTurn(s.id, t, turns[t].session))
      else if IsTerminal(turns[t].status) then Some(TerminalActiveTurn(s.id, t, turns[t].status))
      else None
  }

  function ApprovalAnomaly(a: ApprovalRecord, turns: map<Id, TurnRecord>): Option<Anomaly> {
    if a.status != "pending" then None
    else if a.turn !in turns then Some(ApprovalWithoutTurn(a.id, a.turn))
    else if IsTerminal(turns[a.turn].status) then Some(ApprovalOfTerminalTurn(a.id, turns[a.turn].id, turns[a.turn].status))
    else None
  }

  /** The session and approval loops of the checker, over the hydrated rows. */
  method CollectAnomalies(sessions: seq<SessionRecord>, turns: map<Id, TurnRecord>, approvals: seq<ApprovalRecord>)
      returns (anomalies: seq<Anomaly>)
    ensures forall x :: x in anomalies <==>
              || (exists i :: 0 <= i < |sessions| && SessionAnomaly(sessions[i], turns) == Some(x))
              || (exists i :: 0 <= i < |approvals| && ApprovalAnomaly(approvals[i], turns) == Some(x))
  {
    anomalies := [];
    var i := 0;
    while i < |sessions|
      invariant 0 <= i <= |sessions|
      invariant forall x :: x in anomalies <==> exists k :: 0 <= k < i && SessionAnomaly(sessions[k], turns) == Some(x)
    {
      var found := SessionAnomaly(sessions[i], turns);
      if found.Some? {
        anomalies := anomalies + [found.value];
      }
      i := i + 1;
    }
    var j := 0;
    while j < |approvals|
      invariant 0 <= j <= |approvals|
      invariant forall x :: x in anomalies <==>
                  || (exists k :: 0 <= k < |sessions| && SessionAnomaly(sessions[k], turns) == Some(x))
                  || (exists k :: 0 <= k < j && ApprovalAnomaly(approvals[k], turns) == Some(x))
    {
      var found := ApprovalAnomaly(approvals[j], turns);
      if found.Some? {
        anomalies := anomalies + [found.value];
      }
      j := j + 1;
    }
  }

  /** The checker has nothing to report about these records. */
  ghost predicate Clean(r: Records) {
    && (forall s :: s in r.sessions ==> SessionAnomaly(r.sessions[s], r.turns).None?)
    && (forall a :: a in r.approvals ==> ApprovalAnomaly(r.approvals[a], r.turns).None?)
  }

  // ---- Recovery meets its checker ----

  lemma ReattachKeepsId(s: SessionRecord, env: Env)
    ensures Reattach(s, env).Ok? ==> Reattach(s, env).value.id == s.id
  {
  }

  lemma RecoverKeepsId(r: Records, s: SessionRecord, env: Env)
    requires RecoverSession(r, s, env).Ok?
    ensures RecoverSession(r, s, env).value.id == s.id
  {
    ReattachKeepsId(s, env);
    hide Reattach, Judge;
  }

  lemma SessionComesOutClean(r: Records, env: Env, s: Id)
    requires Keyed(r) && Recovers(r, env) && s in r.sessions
    ensures SessionAnomaly(Recovered(r, env).sessions[s], Recovered(r, env).turns).None?
  {
    var before := r.sessions[s];
    assert RecoverSession(r, before, env).Ok?;
    var t := RecoverSession(r, before, env).value.activeTurn;
    RecoverKeepsId(r, before, env);
    if t.Some? {
      KeptTurn(r, before, env);
      assert !Repairs(r, env, t.value);
    }
    hide RecoverSession, Recovers, Repairs;
  }

  /** An active turn that recovery leaves in place was judged to be waiting or running. */
  lemma KeptTurn(r: Records, s: SessionRecord, env: Env)
    requires RecoverSession(r, s, env).Ok? && RecoverSession(r, s, env).value.activeTurn.Some?
    ensures
      var t := RecoverSession(r, s, env).value.activeTurn.value;
      && Reattach(s, env).Ok? && Reattach(s, env).value.activeTurn == Some(t)
      && (VerdictOn(r, s, env) == Waiting || VerdictOn(r, s, env) == Running)
      && t in r.turns && r.turns[t].session == s.id && !IsTerminal(r.turns[t].status)
  {
    ReattachKeepsId(s, env);
    hide Reattach, AwaitsApproval, IsTerminal;
  }

  /** The checker finds nothing exactly when no pending approval sits on a turn recovery had to fail. */
  lemma CleanExactlyWhen(r: Records, env: Env)
    requires Keyed(r) && Recovers(r, env)
    ensures Clean(Recovered(r, env)) <==>
              forall a :: a in r.approvals && r.approvals[a].status == "pending" && r.approvals[a].turn in r.turns ==>
                !Repairs(r, env, r.approvals[a].turn)
  {
    var after := Recovered(r, env);
    forall s | s in after.sessions ensures SessionAnomaly(after.sessions[s], after.turns).None? {
      SessionComesOutClean(r, env, s);
    }
    forall a | a in r.approvals && r.approvals[a].status == "pending" && r.approvals[a].turn in r.turns
               && Repairs(r, env, r.approvals[a].turn)
      ensures ApprovalAnomaly(after.approvals[a], after.turns).Some?
    {
      assert r.turns[r.approvals[a].turn].status == "waiting_for_approval";
    }
  }

  /** Every approval names the session its turn belongs to. */
  ghost predicate ApprovalsNameTheirSession(r: Records) {
    forall a :: a in r.approvals && r.approvals[a].turn in r.turns ==>
      r.approvals[a].session == r.turns[r.approvals[a].turn].session
  }

  lemma PendingTurnIsNotRepaired(r: Records, env: Env, a: Id)
    requires Keyed(r) && ApprovalsNameTheirSession(r)
    requires a in r.approvals && r.approvals[a].status == "pending" && r.approvals[a].turn in r.turns
    ensures !Repairs(r, env, r.approvals[a].turn)
  {
    var t := r.approvals[a].turn;
    var s := r.turns[t].session;
    assert AwaitsApproval(r, s, t);
  }

  /**
  From arbitrary persisted records in which approvals name their turn's session, and whatever the
  providers answer, a recovery that succeeds leaves nothing for the checker to report.
  */
  lemma RecoveryMeetsChecker(r: Records, env: Env)
    requires Keyed(r) && ApprovalsNameTheirSession(r) && Recovers(r, env)
    ensures Clean(Recovered(r, env))
  {
    forall a | a in r.approvals && r.approvals[a].status == "pending" && r.approvals[a].turn in r.turns
      ensures !Repairs(r, env, r.approvals[a].turn)
    {
      PendingTurnIsNotRepaired(r, env, a);
    }
    CleanExactlyWhen(r, env);
  }

  // ---- A second recovery ----

  /** Every provider asked accepts the resume and returns the references it was given. */
  ghost predicate Echoes(r: Records, env: Env) {
    forall s :: s in r.sessions && r.sessions[s].providerRef.Some? ==>
      env.answers(s) == Resumed(r.sessions[s].providerRef.value, r.sessions[s].canonicalRef)
  }

  /**
  A shut session without a provider reference that still points at its own turn, waiting with a
  pending approval: recovery reopens it, and the next one finds the reference missing.
  */
  ghost predicate Reopens(r: Records, s: SessionRecord) {
    IsShut(s.status) && s.providerRef.None? && Judge(r, s) == Waiting
  }

  lemma SameJudgement(r: Records, env: Env, s: SessionRecord)
    requires Keyed(r) && Recovers(r, env) && ApprovalsNameTheirSession(r)
    requires s.activeTurn.Some? ==> s.activeTurn.value in r.turns && !Repairs(r, env, s.activeTurn.value)
    requires Judge(r, s) == Waiting || Judge(r, s) == Running || Judge(r, s) == NoTurn
    ensures Judge(Recovered(r, env), s) == Judge(r, s)
  {
    var after := Recovered(r, env);
    if s.activeTurn.Some? {
      var t := s.activeTurn.value;
      if Judge(r, s) == Waiting {
        var a :| a in r.approvals && r.approvals[a].turn == t && r.approvals[a].session == s.id
                 && r.approvals[a].status == "pending";
        assert after.approvals[a] == r.approvals[a];
      }
    }
  }

  /** What asking the provider can do to a session. */
  lemma ReattachFacts(s: SessionRecord, env: Env)
    requires Reattach(s, env).Ok?
    ensures
      var after := Reattach(s, env).value;
      && after.id == s.id
      && (IsShut(s.status) ==> after == s)
      && (!IsShut(after.status) ==> after.providerRef.Some? && after.status == s.status)
      && (after.activeTurn == s.activeTurn || (after.activeTurn.None? && IsShut(after.status)))
      && (after.status == s.status || (IsShut(after.status) && after.activeTurn.None?))
  {
  }

  /** The result of recovering a session, without naming how it was reattached. */
  lemma RecoverSessionIs(r: Records, s: SessionRecord, env: Env)
    requires RecoverSession(r, s, env).Ok?
    ensures Reattach(s, env).Ok?
    ensures
      var mid := Reattach(s, env).value;
      var after := RecoverSession(r, s, env).value;
      && (mid == s && Settle(s, Judge(r, s)) == s ==> after == s)
      && (!(mid == s && Settle(s, Judge(r, s)) == s) ==>
            after == Marked(mid, Judge(r, mid)).(updatedAt := env.clock(s.id)))
  {
  }

  ghost predicate Settled(r: Records, s: SessionRecord) {
    && (Judge(r, s) == Waiting || Judge(r, s) == Running || Judge(r, s) == NoTurn)
    && (Judge(r, s) == Waiting ==> s.status == "waiting_for_approval")
    && (Judge(r, s) == NoTurn ==> s.status != "turn_running" && s.status != "waiting_for_approval")
  }

  lemma SettledFixed(r: Records, s: SessionRecord)
    ensures Settle(s, Judge(r, s)) == s ==> Settled(r, s)
    ensures Settled(r, s) ==> Settle(s, Judge(r, s)) == s
  {
  }

  /** Marking a session by its verdict settles it. */
  lemma MarkedIsSettled(r: Records, s: SessionRecord, now: int)
    ensures Settled(r, Marked(s, Judge(r, s)).(updatedAt := now))
    ensures Marked(s, Judge(r, s)).activeTurn.Some? ==>
              Marked(s, Judge(r, s)).activeTurn == s.activeTurn && (Judge(r, s) == Waiting || Judge(r, s) == Running)
    ensures IsShut(s.status) && Judge(r, s) != Waiting ==> IsShut(Marked(s, Judge(r, s)).status)
    ensures Marked(s, Judge(r, s)).providerRef == s.providerRef && Marked(s, Judge(r, s)).id == s.id
  {
    assert Judge(r, Marked(s, Judge(r, s))) == Judge(r, Marked(s, Judge(r, s)).(updatedAt := now));
    assert Judge(r, s) == Waiting || Judge(r, s) == Running ==> Judge(r, Marked(s, Judge(r, s))) == Judge(r, s);
  }

  lemma RecoveredIsSettled(r: Records, env: Env, s: Id)
    requires Keyed(r) && Recovers(r, env) && s in r.sessions
    ensures Settled(r, Recovered(r, env).sessions[s]) && Recovered(r, env).sessions[s].id == s
  {
    var before := r.sessions[s];
    assert RecoverSession(r, before, env).Ok?;
    RecoverSessionIs(r, before, env);
    var mid := Reattach(before, env).value;
    ReattachFacts(before, env);
    MarkedIsSettled(r, mid, env.clock(s));
    SettledFixed(r, before);
  }

  /** An active turn that survives recovery was not repaired. */
  lemma SurvivingTurn(r: Records, env: Env, s: Id)
    requires Keyed(r) && Recovers(r, env) && s in r.sessions
    ensures
      var after := Recovered(r, env).sessions[s];
      after.activeTurn.Some? ==> after.activeTurn.value in r.turns && !Repairs(r, env, after.activeTurn.value)
  {
    var before := r.sessions[s];
    assert RecoverSession(r, before, env).Ok?;
    RecoverSessionIs(r, before, env);
    var mid := Reattach(before, env).value;
    ReattachFacts(before, env);
    MarkedIsSettled(r, mid, env.clock(s));
    SettledFixed(r, before);
  }

  /** Recovery leaves a session open without a provider reference only by reopening it. */
  lemma OpenWithoutReference(r: Records, env: Env, s: Id)
    requires Keyed(r) && Recovers(r, env) && s in r.sessions
    ensures
      var after := Recovered(r, env).sessions[s];
      (!IsShut(after.status) && after.providerRef.None?) <==> Reopens(r, r.sessions[s])
  {
    hide Reattach, AwaitsApproval, IsTerminal;
    var before := r.sessions[s];
    assert RecoverSession(r, before, env).Ok?;
    RecoverSessionIs(r, before, env);
    var mid := Reattach(before, env).value;
    ReattachFacts(before, env);
    MarkedIsSettled(r, mid, env.clock(s));
    SettledFixed(r, before);
  }

  lemma EchoedReattach(s: SessionRecord, env: Env)
    requires Reattach(s, env).Ok?
    requires s.providerRef.Some? ==> env.answers(s.id) == Resumed(s.providerRef.value, s.canonicalRef)
    ensures Reattach(s, env).value == s <==> (IsShut(s.status) || s.providerRef.Some?)
  {
  }

  lemma SecondRunOnSession(r: Records, first: Env, second: Env, s: Id)
    requires Keyed(r) && ApprovalsNameTheirSession(r) && Recovers(r, first)
    requires Recovers(Recovered(r, first), second) && Echoes(Recovered(r, first), second) && s in r.sessions
    ensures (Recovered(Recovered(r, first), second).sessions[s] == Recovered(r, first).sessions[s])
       <==> !Reopens(r, r.sessions[s])
  {
    var r1 := Recovered(r, first);
    var mid := r1.sessions[s];
    RecoveredIsSettled(r, first, s);
    SurvivingTurn(r, first, s);
    OpenWithoutReference(r, first, s);
    SameJudgement(r, first, mid);
    SettledFixed(r1, mid);
    assert RecoverSession(r1, mid, second).Ok?;
    RecoverSessionIs(r1, mid, second);
    EchoedReattach(mid, second);
    ReattachFacts(mid, second);
    MarkedIsSettled(r1, Reattach(mid, second).value, second.clock(s));
  }

  lemma RecoveredKeepsWellFormed(r: Records, env: Env)
    requires Keyed(r) && ApprovalsNameTheirSession(r) && Recovers(r, env)
    ensures Keyed(Recovered(r, env)) && ApprovalsNameTheirSession(Recovered(r, env))
  {
    forall s | s in r.sessions ensures Recovered(r, env).sessions[s].id == s {
      RecoveredIsSettled(r, env, s);
    }
  }

  lemma SecondRunOnTurns(r: Records, first: Env, second: Env)
    requires Keyed(r) && ApprovalsNameTheirSession(r) && Recovers(r, first)
    requires Recovers(Recovered(r, first), second) && Echoes(Recovered(r, first), second)
    ensures Recovered(Recovered(r, first), second).turns == Recovered(r, first).turns
    ensures Recovered(Recovered(r, first), second).approvals == Recovered(r, first).approvals
  {
    var r1 := Recovered(r, first);
    forall t | t in r1.turns ensures !Repairs(r1, second, t) {
      NoSecondRepair(r, first, second, t);
    }
    forall a | a in r1.approvals ensures !IsOrphan(r1, r1.approvals[a]) {
      NoSecondDecline(r, first, a);
    }
    hide RecoverSession, Repairs, IsOrphan;
  }

  lemma NoSecondRepair(r: Records, first: Env, second: Env, t: Id)
    requires Keyed(r) && ApprovalsNameTheirSession(r) && Recovers(r, first)
    requires Recovers(Recovered(r, first), second) && Echoes(Recovered(r, first), second) && t in Recovered(r, first).turns
    ensures !Repairs(Recovered(r, first), second, t)
  {
    var r1 := Recovered(r, first);
    var s := r1.turns[t].session;
    if s in r1.sessions {
      NeverOrphaned(r, first, s);
      JudgedAgain(r1, second, s);
    }
  }

  /** After a recovery no session's active turn is orphaned. */
  lemma NeverOrphaned(r: Records, env: Env, s: Id)
    requires Keyed(r) && ApprovalsNameTheirSession(r) && Recovers(r, env) && s in r.sessions
    ensures Judge(Recovered(r, env), Recovered(r, env).sessions[s]) != Orphaned
  {
    RecoveredIsSettled(r, env, s);
    SurvivingTurn(r, env, s);
    hide Judge, RecoverSession, Repairs;
    SameJudgement(r, env, Recovered(r, env).sessions[s]);
  }

  /** Reattaching keeps the judgement unless it drops the turn. */
  lemma JudgedAgain(r: Records, env: Env, s: Id)
    requires s in r.sessions && Reattach(r.sessions[s], env).Ok?
    ensures VerdictOn(r, r.sessions[s], env) == Judge(r, r.sessions[s]) || VerdictOn(r, r.sessions[s], env) == NoTurn
  {
  }

  lemma NoSecondDecline(r: Records, first: Env, a: Id)
    requires Keyed(r) && ApprovalsNameTheirSession(r) && Recovers(r, first) && a in Recovered(r, first).approvals
    ensures !IsOrphan(Recovered(r, first), Recovered(r, first).approvals[a])
  {
    RecoveryMeetsChecker(r, first);
    assert ApprovalAnomaly(Recovered(r, first).approvals[a], Recovered(r, first).turns).None?;
  }

  /**
  After any recovery, a second one whose providers echo their references changes no record, however
  much later, exactly when no session was shut without a provider reference while still holding a
  turn with a pending approval.
  */
  lemma RecoveryIsIdempotentExactlyWhen(r: Records, first: Env, second: Env)
    requires Keyed(r) && ApprovalsNameTheirSession(r) && Recovers(r, first)
    requires Recovers(Recovered(r, first), second) && Echoes(Recovered(r, first), second)
    ensures (Recovered(Recovered(r, first), second) == Recovered(r, first))
       <==> (forall s :: s in r.sessions ==> !Reopens(r, r.sessions[s]))
  {
    var r1 := Recovered(r, first);
    var r2 := Recovered(r1, second);
    SecondRunOnTurns(r, first, second);
    forall s | s in r.sessions ensures (r2.sessions[s] == r1.sessions[s]) <==> !Reopens(r, r.sessions[s]) {
      SecondRunOnSession(r, first, second, s);
    }
    SameSessions(r1.sessions, r2.sessions);
  }

  lemma SameSessions(a: map<Id, SessionRecord>, b: map<Id, SessionRecord>)
    requires a.Keys == b.Keys
    ensures (b == a) <==> forall s :: s in a ==> b[s] == a[s]
  {
  }

  /** The condition can fail: a closed session can still hold a turn with a pending approval. */
  lemma ReopeningIsPossible(r: Records)
    requires r == Records(
      map["s" := SessionRecord("s", "codex", "closed", None, None, None, Some("t"), None, 0)],
      map["t" := TurnRecord("t", "s", "waiting_for_approval", None, None)],
      map["a" := ApprovalRecord("a", "s", "t", "pending", None, None)])
    ensures Keyed(r) && ApprovalsNameTheirSession(r) && Reopens(r, r.sessions["s"])
  {
    assert r.approvals["a"].turn == "t" && "a" in r.approvals;
    assert AwaitsApproval(r, "s", "t");
  }
}
