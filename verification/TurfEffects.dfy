/** What each accepted turf call writes, row by row and field by field, and exactly when a call is accepted. */
module TurfEffects {
  import opened Common
  import opened TurfTables

  // ---------------------------------------------------------------- rows

  predicate Unfinished(a: Assignment) {
    a.status == Given || a.status == Working
  }

  predicate Running(s: Session) {
    s.endTime.None?
  }

  /** The assignment is open, and it is that of the turf and canvasser. */
  predicate Holds(a: Assignment, t: Id, c: Id) {
    Unfinished(a) && a.turf == t && a.canvasser == c
  }

  /** The session is open, and it is that of the turf and canvasser. */
  predicate Works(s: Session, t: Id, c: Id) {
    Running(s) && s.turf == t && s.canvasser == c
  }

  ghost predicate HasHolder(m: Tables, t: Id, c: Id) {
    exists i :: 0 <= i < |m.assignments| && Holds(m.assignments[i], t, c)
  }

  ghost predicate HasWorker(m: Tables, t: Id, c: Id, statuses: set<SessionStatus>) {
    exists j :: 0 <= j < |m.sessions| && Works(m.sessions[j], t, c) && m.sessions[j].status in statuses
  }

  ghost predicate NobodyWorks(m: Tables, t: Id) {
    forall j :: 0 <= j < |m.sessions| && m.sessions[j].turf == t ==> !Running(m.sessions[j])
  }

  /** Only the status of turf t is another one. */
  predicate TurfBecomes(m: Tables, t: Id, status: TurfStatus, m': Tables) {
    t < |m.turfs| && m'.turfs == m.turfs[t := m.turfs[t].(status := status)]
  }

  /** The holder's assignment is being worked on, and no other one is another. */
  ghost predicate HolderWorks(m: Tables, t: Id, c: Id, m': Tables) {
    exists i :: 0 <= i < |m.assignments| && Holds(m.assignments[i], t, c)
                && m'.assignments == m.assignments[i := Assignment(t, c, Working)]
  }

  /** Of the assignments, the open ones that are meant end in a status; the others stay. */
  ghost predicate AssignmentsEnd(xs: seq<Assignment>, meant: Assignment -> bool, status: AssignmentStatus,
                                 xs': seq<Assignment>) {
    && |xs| == |xs'|
    && forall i :: 0 <= i < |xs| ==>
         xs'[i] == if Unfinished(xs[i]) && meant(xs[i]) then Assignment(xs[i].turf, xs[i].canvasser, status) else xs[i]
  }

  // ---------------------------------------------------------------- sessions

  /** A start makes the turf in progress and the assignment working, and adds one open session; for a canvasser who has
      one it changes nothing. */
  lemma StartWrites(m: Tables, t: Id, c: Id, now: int, m': Tables, row: Id)
    requires Valid(m) && StartSession(m, t, c, now) == Ok(Done(m', row))
    ensures m'.addresses == m.addresses
    ensures if HasWorker(m, t, c, {Active, OnPause}) then
              m' == m && row < |m.sessions| && Works(m.sessions[row], t, c)
            else
              && TurfBecomes(m, t, InProgress, m') && HolderWorks(m, t, c, m')
              && m'.sessions == m.sessions + [Session(t, c, now, None, Active)] && row == |m.sessions|
  {
    match FindFirst(m.sessions, SessionOf(t, c))
    case Some(j) =>
      assert OpenS(m.sessions[j]);
    case None =>
      var i := FindFirst(m.assignments, AssignedTo(t, c)).value;
      assert Holds(m.assignments[i], t, c);
      assert forall j :: 0 <= j < |m.sessions| ==> !SessionOf(t, c)(m.sessions[j]);
  }

  /** A pause changes the status of the turf and of the active session, and nothing else. */
  lemma PauseWrites(m: Tables, t: Id, c: Id, m': Tables, row: Id)
    requires PauseSession(m, t, c) == Ok(Done(m', row))
    ensures row < |m.sessions| && Works(m.sessions[row], t, c) && m.sessions[row].status == Active
    ensures TurfBecomes(m, t, Paused, m') && m'.assignments == m.assignments && m'.addresses == m.addresses
    ensures m'.sessions == m.sessions[row := m.sessions[row].(status := OnPause)]
  {
  }

  /** Resuming makes the turf in progress, the assignment working and the paused session active. */
  lemma ResumeWrites(m: Tables, t: Id, c: Id, m': Tables, row: Id)
    requires ResumeSession(m, t, c) == Ok(Done(m', row))
    ensures row < |m.sessions| && Works(m.sessions[row], t, c) && m.sessions[row].status == OnPause
    ensures TurfBecomes(m, t, InProgress, m') && HolderWorks(m, t, c, m') && m'.addresses == m.addresses
    ensures m'.sessions == m.sessions[row := m.sessions[row].(status := Active)]
  {
    var i := FindFirst(m.assignments, AssignedTo(t, c)).value;
    assert Holds(m.assignments[i], t, c);
  }

  /** Completing ends the session now, finishes the canvasser's assignment, and completes the turf in the canvasser's
      name. */
  lemma CompleteWrites(m: Tables, t: Id, c: Id, now: int, m': Tables, row: Id)
    requires Valid(m) && CompleteSession(m, t, c, now) == Ok(Done(m', row))
    ensures row < |m.sessions| && Works(m.sessions[row], t, c) && m.sessions[row].status in {Active, OnPause}
    ensures m'.sessions == m.sessions[row := m.sessions[row].(status := Ended, endTime := Some(now))]
    ensures AssignmentsEnd(m.assignments, (a: Assignment) => a.turf == t && a.canvasser == c, Finished, m'.assignments)
    ensures t < |m.turfs| && m'.turfs == m.turfs[t := m.turfs[t].(status := Completed, completedBy := Some(c))]
    ensures m'.addresses == m.addresses
  {
    CompleteAlwaysCompletes(m, t, c, now, m', row);
  }

  /** Which of these calls are accepted: a start by the holder of the turf, the others by whoever works on it. */
  lemma SessionCallsSucceed(m: Tables, t: Id, c: Id, now: int)
    requires Valid(m)
    ensures StartSession(m, t, c, now).Ok? <==> HasHolder(m, t, c)
    ensures PauseSession(m, t, c).Ok? <==> HasWorker(m, t, c, {Active})
    ensures ResumeSession(m, t, c).Ok? <==> HasWorker(m, t, c, {OnPause})
    ensures CompleteSession(m, t, c, now).Ok? <==> HasWorker(m, t, c, {Active, OnPause})
  {
    StartSucceeds(m, t, c, now);
    assert forall i :: 0 <= i < |m.assignments| ==> (AssignedTo(t, c)(m.assignments[i]) <==> Holds(m.assignments[i], t, c));
    WorkersSwitch(m, t, c, now);
  }

  lemma WorkersSwitch(m: Tables, t: Id, c: Id, now: int)
    requires Valid(m)
    ensures PauseSession(m, t, c).Ok? <==> HasWorker(m, t, c, {Active})
    ensures ResumeSession(m, t, c).Ok? <==> HasWorker(m, t, c, {OnPause})
    ensures CompleteSession(m, t, c, now).Ok? <==> HasWorker(m, t, c, {Active, OnPause})
  {
    SwitchesSucceed(m, t, c, now);
    assert forall j :: 0 <= j < |m.sessions| ==> (SessionOf(t, c)(m.sessions[j]) <==> Works(m.sessions[j], t, c));
    forall j | 0 <= j < |m.sessions| && Works(m.sessions[j], t, c) ensures m.sessions[j].status in {Active, OnPause} {
      assert OpenS(m.sessions[j]);
    }
  }

  // ---------------------------------------------------------------- turfs

  /** A turf that the caller may manage: of the organisation and not deleted; for supervisors of the team or else the
      region they have, for others of the campaign. */
  predicate Manages(m: Tables, t: Id, scope: Scope) {
    && t < |m.turfs| && !m.turfs[t].deleted && m.turfs[t].org == scope.org
    && (scope.role == Supervisor && scope.team.Some? ==> m.turfs[t].team == scope.team)
    && (scope.role == Supervisor && scope.team.None? && scope.region.Some? ==> m.turfs[t].region == scope.region)
    && (scope.role != Supervisor && scope.campaign.Some? ==> m.turfs[t].campaign == scope.campaign)
  }

  /** A new turf is nobody's, as described otherwise. */
  lemma CreateWrites(m: Tables, turf: Turf, m': Tables, row: Id)
    requires CreateTurf(m, turf) == Ok(Done(m', row))
    ensures row == |m.turfs| && m' == m.(turfs := m.turfs + [m'.turfs[row]])
    ensures m'.turfs[row] == Turf(Unassigned, turf.isShared, turf.org, turf.campaign, turf.team, turf.region, None, false)
  {
  }

  /** A new address is live and on an existing turf. */
  lemma AddAddressWrites(m: Tables, t: Id)
    ensures AddAddress(m, t)
         == if t < |m.turfs| then Ok(Done(m.(addresses := m.addresses + [Address(t, false)]), |m.addresses|))
            else Err(TurfNotFound)
  {
  }

  /** An assignment makes the turf assigned, removes the open assignments of the turf and of the canvasser, and adds the
      new one. */
  lemma AssignWrites(m: Tables, t: Id, canvasser: Option<User>, scope: Scope, m': Tables, row: Id)
    requires AssignTurf(m, t, canvasser, scope) == Ok(Done(m', row))
    ensures canvasser.Some? && TurfBecomes(m, t, Assigned, m') && m'.sessions == m.sessions && m'.addresses == m.addresses
    ensures |m'.assignments| == |m.assignments| + 1 && row == |m.assignments|
    ensures m'.assignments[row] == Assignment(t, canvasser.value.id, Given)
    ensures AssignmentsEnd(m.assignments, (a: Assignment) => a.turf == t || a.canvasser == canvasser.value.id, Removed,
                           m'.assignments[..row])
  {
  }

  /** It is accepted exactly for an active canvasser of the organisation whom neither team nor region sets apart from the
      turf, if the caller manages the turf, and nobody else works on it nor the canvasser anywhere else. */
  lemma AssignSucceeds(m: Tables, t: Id, canvasser: Option<User>, scope: Scope)
    requires Valid(m)
    ensures AssignTurf(m, t, canvasser, scope).Ok? <==>
              && canvasser.Some? && canvasser.value.role == Canvasser && canvasser.value.isActive
              && canvasser.value.org == scope.org && Manages(m, t, scope)
              && (m.turfs[t].team.Some? && canvasser.value.team.Some? ==> m.turfs[t].team == canvasser.value.team)
              && (m.turfs[t].region.Some? && canvasser.value.region.Some? ==> m.turfs[t].region == canvasser.value.region)
              && forall j :: 0 <= j < |m.sessions| && Running(m.sessions[j]) ==>
                   (m.sessions[j].turf == t <==> m.sessions[j].canvasser == canvasser.value.id)
  {
    if canvasser.Some? {
      var c := canvasser.value.id;
      assert forall j :: 0 <= j < |m.sessions| && Running(m.sessions[j]) ==> OpenS(m.sessions[j]);
      assert forall j :: 0 <= j < |m.sessions| && SessionElsewhere(c, t)(m.sessions[j]) ==> Running(m.sessions[j]);
      assert forall j :: 0 <= j < |m.sessions| && SessionOn(t)(m.sessions[j]) ==> Running(m.sessions[j]);
      var elsewhere, here := FindFirst(m.sessions, SessionElsewhere(c, t)), FindFirst(m.sessions, SessionOn(t));
      if here.Some? {
        assert forall j :: 0 <= j < |m.sessions| && SessionOn(t)(m.sessions[j]) ==> j == here.value;
      }
    }
  }

  /** Reopening clears the completion and nothing else. */
  lemma ReopenWrites(m: Tables, t: Id, scope: Scope, m': Tables, row: Id)
    requires ReopenTurf(m, t, scope) == Ok(Done(m', row))
    ensures t < |m.turfs| && m' == m.(turfs := m.turfs[t := m.turfs[t].(status := Reopened, completedBy := None)])
  {
  }

  /** Archiving removes the open assignments of the turf. */
  lemma ArchiveWrites(m: Tables, t: Id, scope: Scope, reason: string, required: bool, m': Tables, row: Id)
    requires ArchiveTurf(m, t, scope, reason, required) == Ok(Done(m', row))
    ensures TurfBecomes(m, t, Archived, m') && m'.sessions == m.sessions && m'.addresses == m.addresses
    ensures AssignmentsEnd(m.assignments, (a: Assignment) => a.turf == t, Removed, m'.assignments)
  {
  }

  /** Deleting also marks the turf and its addresses deleted. */
  lemma DeleteWrites(m: Tables, t: Id, scope: Scope, reason: string, m': Tables, row: Id)
    requires DeleteTurf(m, t, scope, reason) == Ok(Done(m', row))
    ensures t < |m.turfs| && m'.turfs == m.turfs[t := m.turfs[t].(status := Archived, deleted := true)]
    ensures m'.sessions == m.sessions && AssignmentsEnd(m.assignments, (a: Assignment) => a.turf == t, Removed, m'.assignments)
    ensures |m'.addresses| == |m.addresses|
    ensures forall i :: 0 <= i < |m.addresses| ==>
              m'.addresses[i] == if m.addresses[i].turf == t then Address(t, true) else m.addresses[i]
  {
  }

  /** The three are accepted exactly on a turf that the caller manages and nobody works on; deleting asks for a reason,
      archiving where one is required. */
  lemma IdleCallsSucceed(m: Tables, t: Id, scope: Scope, reason: string, required: bool)
    ensures ReopenTurf(m, t, scope).Ok? <==> Manages(m, t, scope) && NobodyWorks(m, t)
    ensures ArchiveTurf(m, t, scope, reason, required).Ok?
       <==> Manages(m, t, scope) && NobodyWorks(m, t) && (required ==> reason != "")
    ensures DeleteTurf(m, t, scope, reason).Ok? <==> Manages(m, t, scope) && NobodyWorks(m, t) && reason != ""
  {
    assert NobodyWorks(m, t) <==> forall j :: 0 <= j < |m.sessions| ==> !SessionOn(t)(m.sessions[j]);
  }

  // ---------------------------------------------------------------- errors

  /** A refused call on a session says what is wrong. */
  lemma SessionErrors(m: Tables, t: Id, c: Id, now: int)
    requires Valid(m)
    ensures match StartSession(m, t, c, now)
            case Ok(_) => true
            case Err(error) => error == NoAssignment && !HasHolder(m, t, c)
    ensures match PauseSession(m, t, c)
            case Ok(_) => true
            case Err(error) => error == NoActiveSession && !HasWorker(m, t, c, {Active})
    ensures match ResumeSession(m, t, c)
            case Ok(_) => true
            case Err(error) =>
              || (error == NoAssignment && !HasHolder(m, t, c))
              || (error == NoPausedSession && !HasWorker(m, t, c, {OnPause}))
    ensures match CompleteSession(m, t, c, now)
            case Ok(_) => true
            case Err(error) => error == NoOpenSession && !HasWorker(m, t, c, {Active, OnPause})
  {
    SessionCallsSucceed(m, t, c, now);
    if i :| 0 <= i < |m.assignments| && Holds(m.assignments[i], t, c) {
      HolderPassesGuards(m, i);
      assert AssignedTo(t, c)(m.assignments[i]);
    }
    var active := FindFirst(m.sessions, SessionIn(t, c, Active));
    var atWork := FindFirst(m.sessions, SessionAtWork(t, c));
    assert active.Some? ==> Works(m.sessions[active.value], t, c);
    assert atWork.Some? ==> Works(m.sessions[atWork.value], t, c);
  }

  ghost predicate WorksElsewhere(m: Tables, t: Id, c: Id) {
    exists j :: 0 <= j < |m.sessions| && Running(m.sessions[j]) && m.sessions[j].canvasser == c && m.sessions[j].turf != t
  }

  ghost predicate OtherWorks(m: Tables, t: Id, c: Id) {
    exists j :: 0 <= j < |m.sessions| && Running(m.sessions[j]) && m.sessions[j].canvasser != c && m.sessions[j].turf == t
  }

  /** So does a refused assignment, or a refused call on an idle turf. */
  lemma TurfErrors(m: Tables, t: Id, canvasser: Option<User>, scope: Scope, reason: string, required: bool)
    ensures match AssignTurf(m, t, canvasser, scope)
            case Ok(_) => true
            case Err(error) =>
              match error
              case UserNotFound => canvasser.None? || canvasser.value.org != scope.org
              case NotACanvasser => canvasser.Some? && canvasser.value.role != Canvasser
              case NotActive => canvasser.Some? && !canvasser.value.isActive
              case TurfNotFound => !Manages(m, t, scope)
              case OtherTeam => canvasser.Some? && t < |m.turfs| && canvasser.value.team.Some? && m.turfs[t].team.Some?
                                && canvasser.value.team != m.turfs[t].team
              case OtherRegion => canvasser.Some? && t < |m.turfs| && canvasser.value.region.Some?
                                  && m.turfs[t].region.Some? && canvasser.value.region != m.turfs[t].region
              case OpenSessionElsewhere =>
                canvasser.Some? && WorksElsewhere(m, t, canvasser.value.id)
              case CloseSessionFirst =>
                canvasser.Some? && OtherWorks(m, t, canvasser.value.id)
              case _ => false
    ensures match ReopenTurf(m, t, scope)
            case Ok(_) => true
            case Err(error) =>
              (error == TurfNotFound && !Manages(m, t, scope)) || (error == CloseSessionFirst && !NobodyWorks(m, t))
    ensures match ArchiveTurf(m, t, scope, reason, required)
            case Ok(_) => true
            case Err(error) =>
              || (error == ReasonRequired && required && reason == "")
              || (error == TurfNotFound && !Manages(m, t, scope)) || (error == CloseSessionFirst && !NobodyWorks(m, t))
    ensures match DeleteTurf(m, t, scope, reason)
            case Ok(_) => true
            case Err(error) =>
              || (error == ReasonRequired && reason == "")
              || (error == TurfNotFound && !Manages(m, t, scope)) || (error == CloseSessionFirst && !NobodyWorks(m, t))
  {
    assert NobodyWorks(m, t) <==> forall j :: 0 <= j < |m.sessions| ==> !SessionOn(t)(m.sessions[j]);
    if canvasser.Some? {
      var elsewhere, here := FindFirst(m.sessions, SessionElsewhere(canvasser.value.id, t)), FindFirst(m.sessions, SessionOn(t));
      assert elsewhere.Some? ==> Running(m.sessions[elsewhere.value]);
      assert here.Some? ==> Running(m.sessions[here.value]);
    }
  }
}
