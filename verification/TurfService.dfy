/** The turf service: turf, assignment and session rows changed in place, in the order of the source. */
module TurfService {
  import opened Common
  import opened TurfTables

  /** What a call leaves behind and answers. */
  predicate Answers(before: Tables, op: Op, after: Tables, r: Result<Id, Error>) {
    && after == Next(before, op)
    && match Attempt(before, op)
       case Ok(done) => r == Ok(done.row)
       case Err(e) => r == Err(e)
  }

  class TurfsService {
    var turfs: seq<Turf>
    var assignments: seq<Assignment>
    var sessions: seq<Session>
    var addresses: seq<Address>

    function State(): Tables
      reads this
    {
      Tables(turfs, assignments, sessions, addresses)
    }

    constructor ()
      ensures State() == Empty && Valid(State())
    {
      turfs, assignments, sessions, addresses := [], [], [], [];
    }

    method AddTurf(turf: Turf) returns (r: Result<Id, Error>)
      requires Valid(State())
      modifies this
      ensures Valid(State()) && Answers(old(State()), CreateTurfOp(turf), State(), r)
    {
      NextKeepsValid(State(), CreateTurfOp(turf));
      turfs := turfs + [turf.(status := Unassigned, completedBy := None, deleted := false)];
      return Ok(|turfs| - 1);
    }

    /** A turf is assigned to active canvassers of the caller's organisation only. */
    static method EnsureAssignableCanvasser(canvasser: Option<User>, org: Option<Id>) returns (refusal: Option<Error>)
      ensures refusal == CheckCanvasser(canvasser, org)
    {
      if canvasser.None? {
        return Some(UserNotFound);
      }
      var user := canvasser.value;
      if user.role != Canvasser {
        return Some(NotACanvasser);
      }
      if !user.isActive {
        return Some(NotActive);
      }
      if user.org != org {
        return Some(UserNotFound);
      }
      return None;
    }

    method EnsureNoCrossTurfOpenSession(c: Id, t: Id) returns (refusal: Option<Error>)
      ensures refusal.Some? <==> exists j :: 0 <= j < |sessions| && SessionElsewhere(c, t)(sessions[j])
      ensures refusal.Some? ==> refusal.value == OpenSessionElsewhere
    {
      var conflicting := FindFirst(sessions, SessionElsewhere(c, t));
      return if conflicting.Some? then Some(OpenSessionElsewhere) else None;
    }

    method EnsureTurfSessionAvailability(t: Id, c: Id) returns (refusal: Option<Error>)
      ensures refusal == if t >= |turfs| then Some(TurfNotFound)
                         else if !turfs[t].isShared && exists j :: 0 <= j < |sessions| && SessionOfOther(t, c)(sessions[j])
                         then Some(TurfBusy)
                         else None
    {
      if t >= |turfs| {
        return Some(TurfNotFound);
      }
      if !turfs[t].isShared {
        var conflicting := FindFirst(sessions, SessionOfOther(t, c));
        if conflicting.Some? {
          return Some(TurfBusy);
        }
      }
      return None;
    }

    method Assign(t: Id, canvasser: Option<User>, scope: Scope) returns (r: Result<Id, Error>)
      requires Valid(State())
      modifies this
      ensures Valid(State()) && Answers(old(State()), AssignOp(t, canvasser, scope), State(), r)
    {
      NextKeepsValid(State(), AssignOp(t, canvasser, scope));
      var refusal := EnsureAssignableCanvasser(canvasser, scope.org);
      if refusal.Some? {
        return Err(refusal.value);
      }
      if t >= |turfs| || !InScope(turfs[t], scope) || turfs[t].deleted {
        return Err(TurfNotFound);
      }
      var user := canvasser.value;
      if turfs[t].team.Some? && user.team.Some? && turfs[t].team != user.team {
        return Err(OtherTeam);
      }
      if turfs[t].region.Some? && user.region.Some? && turfs[t].region != user.region {
        return Err(OtherRegion);
      }
      refusal := EnsureNoCrossTurfOpenSession(user.id, t);
      if refusal.Some? {
        return Err(refusal.value);
      }
      var openSession := FindFirst(sessions, SessionOn(t));
      if openSession.Some? && sessions[openSession.value].canvasser != user.id {
        return Err(CloseSessionFirst);
      }
      assert CheckAssign(State(), t, canvasser, scope).None?;
      var c := canvasser.value.id;
      assignments := UpdateWhere(assignments, AssignedOn(t), Close(Removed));
      assignments := UpdateWhere(assignments, AssignedElsewhere(c, t), Close(Removed));
      assignments := assignments + [Assignment(t, c, Given)];
      turfs := turfs[t := turfs[t].(status := Assigned)];
      return Ok(|assignments| - 1);
    }

    method Start(t: Id, c: Id, now: int) returns (r: Result<Id, Error>)
      requires Valid(State())
      modifies this
      ensures Valid(State()) && Answers(old(State()), StartOp(t, c, now), State(), r)
    {
      NextKeepsValid(State(), StartOp(t, c, now));
      var assignment := FindFirst(assignments, AssignedTo(t, c));
      if assignment.None? {
        return Err(NoAssignment);
      }
      var refusal := EnsureNoCrossTurfOpenSession(c, t);
      match refusal {
        case Some(error) => return Err(error);
        case None =>
      }
      refusal := EnsureTurfSessionAvailability(t, c);
      match refusal {
        case Some(error) => return Err(error);
        case None =>
      }
      var existing := FindFirst(sessions, SessionOf(t, c));
      if existing.Some? {
        return Ok(existing.value);
      }
      assignments := assignments[assignment.value := assignments[assignment.value].(status := Working)];
      turfs := turfs[t := turfs[t].(status := InProgress)];
      sessions := sessions + [Session(t, c, now, None, Active)];
      return Ok(|sessions| - 1);
    }

    method Pause(t: Id, c: Id) returns (r: Result<Id, Error>)
      requires Valid(State())
      modifies this
      ensures Valid(State()) && Answers(old(State()), PauseOp(t, c), State(), r)
    {
      NextKeepsValid(State(), PauseOp(t, c));
      var session := FindFirst(sessions, SessionIn(t, c, Active));
      if session.None? {
        return Err(NoActiveSession);
      }
      var j := session.value;
      sessions := sessions[j := sessions[j].(status := OnPause)];
      turfs := turfs[t := turfs[t].(status := Paused)];
      return Ok(j);
    }

    method Resume(t: Id, c: Id) returns (r: Result<Id, Error>)
      requires Valid(State())
      modifies this
      ensures Valid(State()) && Answers(old(State()), ResumeOp(t, c), State(), r)
    {
      NextKeepsValid(State(), ResumeOp(t, c));
      var assignment := FindFirst(assignments, AssignedTo(t, c));
      if assignment.None? {
        return Err(NoAssignment);
      }
      var refusal := EnsureNoCrossTurfOpenSession(c, t);
      match refusal {
        case Some(error) => return Err(error);
        case None =>
      }
      refusal := EnsureTurfSessionAvailability(t, c);
      match refusal {
        case Some(error) => return Err(error);
        case None =>
      }
      var session := FindFirst(sessions, SessionIn(t, c, OnPause));
      if session.None? {
        return Err(NoPausedSession);
      }
      var j := session.value;
      assignments := assignments[assignment.value := assignments[assignment.value].(status := Working)];
      turfs := turfs[t := turfs[t].(status := InProgress)];
      sessions := sessions[j := sessions[j].(status := Active)];
      return Ok(j);
    }

    method Complete(t: Id, c: Id, now: int) returns (r: Result<Id, Error>)
      requires Valid(State())
      modifies this
      ensures Valid(State()) && Answers(old(State()), CompleteOp(t, c, now), State(), r)
    {
      NextKeepsValid(State(), CompleteOp(t, c, now));
      var session := FindFirst(sessions, SessionAtWork(t, c));
      if session.None? {
        return Err(NoOpenSession);
      }
      var j := session.value;
      assignments := UpdateWhere(assignments, AssignedTo(t, c), Close(Finished));
      sessions := sessions[j := sessions[j].(endTime := Some(now), status := Ended)];
      var remainingOpenSessions := CountWhere(sessions, SessionOn(t));
      var remainingActiveAssignments := CountWhere(assignments, AssignedOn(t));
      if remainingOpenSessions == 0 && remainingActiveAssignments == 0 {
        turfs := turfs[t := turfs[t].(status := Completed, completedBy := Some(c))];
      } else {
        turfs := turfs[t := turfs[t].(status := InProgress)];
      }
      return Ok(j);
    }

    method Reopen(t: Id, scope: Scope) returns (r: Result<Id, Error>)
      requires Valid(State())
      modifies this
      ensures Valid(State()) && Answers(old(State()), ReopenOp(t, scope), State(), r)
    {
      NextKeepsValid(State(), ReopenOp(t, scope));
      if t >= |turfs| || !InScope(turfs[t], scope) || turfs[t].deleted {
        return Err(TurfNotFound);
      }
      var openSessionCount := CountWhere(sessions, SessionOn(t));
      if openSessionCount > 0 {
        return Err(CloseSessionFirst);
      }
      turfs := turfs[t := turfs[t].(status := Reopened, completedBy := None)];
      return Ok(t);
    }

    method Archive(t: Id, scope: Scope, reason: string, reasonRequired: bool) returns (r: Result<Id, Error>)
      requires Valid(State())
      modifies this
      ensures Valid(State()) && Answers(old(State()), ArchiveOp(t, scope, reason, reasonRequired), State(), r)
    {
      NextKeepsValid(State(), ArchiveOp(t, scope, reason, reasonRequired));
      if reasonRequired && reason == "" {
        return Err(ReasonRequired);
      }
      if t >= |turfs| || !InScope(turfs[t], scope) || turfs[t].deleted {
        return Err(TurfNotFound);
      }
      var openSessionCount := CountWhere(sessions, SessionOn(t));
      if openSessionCount > 0 {
        return Err(CloseSessionFirst);
      }
      assignments := UpdateWhere(assignments, AssignedOn(t), Close(Removed));
      turfs := turfs[t := turfs[t].(status := Archived)];
      return Ok(t);
    }

    method Delete(t: Id, scope: Scope, reason: string) returns (r: Result<Id, Error>)
      requires Valid(State())
      modifies this
      ensures Valid(State()) && Answers(old(State()), DeleteOp(t, scope, reason), State(), r)
    {
      NextKeepsValid(State(), DeleteOp(t, scope, reason));
      if reason == "" {
        return Err(ReasonRequired);
      }
      if t >= |turfs| || !InScope(turfs[t], scope) || turfs[t].deleted {
        return Err(TurfNotFound);
      }
      var openSessionCount := CountWhere(sessions, SessionOn(t));
      if openSessionCount > 0 {
        return Err(CloseSessionFirst);
      }
      assignments := UpdateWhere(assignments, AssignedOn(t), Close(Removed));
      addresses := UpdateWhere(addresses, LiveOn(t), DeleteAddress());
      turfs := turfs[t := turfs[t].(status := Archived, deleted := true)];
      return Ok(t);
    }
  }
}
