/** The turf life cycle as values: three tables (turfs, assignments, sessions) and the operations that
    move them. The guards of the operations are scattered; the lemmas show the joint invariant that
    they keep. Tables are append-only, so a row's key is its position. */
module TurfTables {
  import opened Common

  datatype TurfStatus = Unassigned | Assigned | InProgress | Paused | Completed | Reopened | Archived

  datatype AssignmentStatus = Given | Working | Finished | Removed

  datatype SessionStatus = Active | OnPause | Ended | ForceClosed

  datatype Turf = Turf(
    status: TurfStatus, isShared: bool, org: Option<Id>, campaign: Option<Id>, team: Option<Id>, region: Option<Id>,
    completedBy: Option<Id>, deleted: bool)

  datatype Assignment = Assignment(turf: Id, canvasser: Id, status: AssignmentStatus)

  datatype Session = Session(turf: Id, canvasser: Id, startTime: int, endTime: Option<int>, status: SessionStatus)

  /** An address on a turf, as far as deleting the turf concerns it. */
  datatype Address = Address(turf: Id, deleted: bool)

  datatype Tables = Tables(
    turfs: seq<Turf>, assignments: seq<Assignment>, sessions: seq<Session>, addresses: seq<Address>)

  datatype Role = Admin | Supervisor | Canvasser

  datatype Scope = Scope(org: Option<Id>, role: Role, campaign: Option<Id>, team: Option<Id>, region: Option<Id>)

  datatype User = User(id: Id, role: Role, isActive: bool, org: Option<Id>, team: Option<Id>, region: Option<Id>)

  datatype Error =
    | UserNotFound | NotACanvasser | NotActive | TurfNotFound | OtherTeam | OtherRegion | OpenSessionElsewhere
    | CloseSessionFirst | TurfBusy | NoAssignment | NoActiveSession | NoPausedSession | NoOpenSession | ReasonRequired

  /** The tables after an accepted call, and the row the call answers with. */
  datatype Done = Done(tables: Tables, row: Id)

  // ---------------------------------------------------------------- row conditions

  predicate OpenA(a: Assignment) {
    a.status == Given || a.status == Working
  }

  predicate OpenS(s: Session) {
    s.endTime == None
  }

  function AssignedOn(t: Id): Assignment -> bool {
    (a: Assignment) => OpenA(a) && a.turf == t
  }

  function AssignedElsewhere(c: Id, t: Id): Assignment -> bool {
    (a: Assignment) => OpenA(a) && a.canvasser == c && a.turf != t
  }

  function AssignedTo(t: Id, c: Id): Assignment -> bool {
    (a: Assignment) => OpenA(a) && a.turf == t && a.canvasser == c
  }

  function SessionOn(t: Id): Session -> bool {
    (s: Session) => OpenS(s) && s.turf == t
  }

  function SessionElsewhere(c: Id, t: Id): Session -> bool {
    (s: Session) => OpenS(s) && s.canvasser == c && s.turf != t
  }

  function SessionOfOther(t: Id, c: Id): Session -> bool {
    (s: Session) => OpenS(s) && s.turf == t && s.canvasser != c
  }

  function SessionOf(t: Id, c: Id): Session -> bool {
    (s: Session) => OpenS(s) && s.turf == t && s.canvasser == c
  }

  function SessionAtWork(t: Id, c: Id): Session -> bool {
    (s: Session) => OpenS(s) && s.turf == t && s.canvasser == c && (s.status == Active || s.status == OnPause)
  }

  function SessionIn(t: Id, c: Id, status: SessionStatus): Session -> bool {
    (s: Session) => OpenS(s) && s.turf == t && s.canvasser == c && s.status == status
  }

  function Close(status: AssignmentStatus): Assignment -> Assignment {
    (a: Assignment) => a.(status := status)
  }

  // ---------------------------------------------------------------- the invariant

  /** Open assignments match turfs and canvassers one to one. */
  ghost predicate Matching(xs: seq<Assignment>) {
    forall i, j {:trigger OpenA(xs[i]), OpenA(xs[j])} ::
      0 <= i < |xs| && 0 <= j < |xs| && OpenA(xs[i]) && OpenA(xs[j]) && i != j ==>
        xs[i].turf != xs[j].turf && xs[i].canvasser != xs[j].canvasser
  }

  /** No turf and no canvasser has two open sessions. */
  ghost predicate OneSessionEach(ss: seq<Session>) {
    forall i, j {:trigger OpenS(ss[i]), OpenS(ss[j])} ::
      0 <= i < |ss| && 0 <= j < |ss| && OpenS(ss[i]) && OpenS(ss[j]) && i != j ==>
        ss[i].turf != ss[j].turf && ss[i].canvasser != ss[j].canvasser
  }

  ghost predicate Backed(xs: seq<Assignment>, s: Session) {
    exists i :: 0 <= i < |xs| && OpenA(xs[i]) && xs[i].turf == s.turf && xs[i].canvasser == s.canvasser
  }

  /** Every open session is active or paused, and belongs to an open assignment of the same turf and canvasser. */
  ghost predicate SessionsBacked(xs: seq<Assignment>, ss: seq<Session>) {
    forall j {:trigger OpenS(ss[j])} :: 0 <= j < |ss| && OpenS(ss[j]) ==>
      (ss[j].status == Active || ss[j].status == OnPause) && Backed(xs, ss[j])
  }

  ghost predicate HasAssignment(xs: seq<Assignment>, t: Id) {
    exists i :: 0 <= i < |xs| && OpenA(xs[i]) && xs[i].turf == t
  }

  ghost predicate HasSession(ss: seq<Session>, t: Id) {
    exists j :: 0 <= j < |ss| && OpenS(ss[j]) && ss[j].turf == t
  }

  ghost predicate HasSessionIn(ss: seq<Session>, t: Id, status: SessionStatus) {
    exists j :: 0 <= j < |ss| && OpenS(ss[j]) && ss[j].turf == t && ss[j].status == status
  }

  /** What the status of a turf says about its assignments and sessions. */
  ghost predicate StatusSound(turf: Turf, t: Id, xs: seq<Assignment>, ss: seq<Session>) {
    && (turf.status == InProgress ==> HasSessionIn(ss, t, Active))
    && (turf.status == Paused ==> HasSessionIn(ss, t, OnPause))
    && (turf.status == Reopened ==> !HasSession(ss, t))
    && (turf.status == Unassigned || turf.status == Completed || turf.status == Archived ==>
          !HasSession(ss, t) && !HasAssignment(xs, t))
    && (turf.status == Completed ==> turf.completedBy.Some?)
    && (turf.deleted ==> turf.status == Archived)
  }

  ghost predicate StatusesSound(m: Tables) {
    forall t {:trigger m.turfs[t]} :: 0 <= t < |m.turfs| ==> StatusSound(m.turfs[t], t, m.assignments, m.sessions)
  }

  ghost predicate RefersToTurfs(m: Tables) {
    && (forall i {:trigger m.assignments[i]} :: 0 <= i < |m.assignments| ==> m.assignments[i].turf < |m.turfs|)
    && (forall j {:trigger m.sessions[j]} :: 0 <= j < |m.sessions| ==> m.sessions[j].turf < |m.turfs|)
  }

  ghost predicate Valid(m: Tables) {
    && RefersToTurfs(m) && Matching(m.assignments) && OneSessionEach(m.sessions)
    && SessionsBacked(m.assignments, m.sessions) && StatusesSound(m)
  }

  // ---------------------------------------------------------------- the operations

  const Empty := Tables([], [], [], [])

  predicate InScope(turf: Turf, scope: Scope) {
    && turf.org == scope.org
    && if scope.role == Supervisor then
         (if scope.team.Some? then turf.team == scope.team else scope.region.Some? ==> turf.region == scope.region)
       else scope.campaign.Some? ==> turf.campaign == scope.campaign
  }

  predicate FindsTurf(m: Tables, t: Id, scope: Scope) {
    t < |m.turfs| && InScope(m.turfs[t], scope) && !m.turfs[t].deleted
  }

  function SetStatus(turfs: seq<Turf>, t: Id, status: TurfStatus): seq<Turf>
    requires t < |turfs|
  {
    turfs[t := turfs[t].(status := status)]
  }

  predicate Differ(x: Option<Id>, y: Option<Id>) {
    x.Some? && y.Some? && x != y
  }

  function CreateTurf(m: Tables, turf: Turf): Result<Done, Error> {
    var created := turf.(status := Unassigned, completedBy := None, deleted := false);
    Ok(Done(m.(turfs := m.turfs + [created]), |m.turfs|))
  }

  function CheckCanvasser(canvasser: Option<User>, org: Option<Id>): Option<Error> {
    if canvasser.None? then Some(UserNotFound)
    else if canvasser.value.role != Canvasser then Some(NotACanvasser)
    else if !canvasser.value.isActive then Some(NotActive)
    else if canvasser.value.org != org then Some(UserNotFound)
    else None
  }

  /** Everything that can refuse an assignment. */
  function CheckAssign(m: Tables, t: Id, canvasser: Option<User>, scope: Scope): Option<Error> {
    if CheckCanvasser(canvasser, scope.org).Some? then CheckCanvasser(canvasser, scope.org)
    else if !FindsTurf(m, t, scope) then Some(TurfNotFound)
    else if Differ(m.turfs[t].team, canvasser.value.team) then Some(OtherTeam)
    else if Differ(m.turfs[t].region, canvasser.value.region) then Some(OtherRegion)
    else if FindFirst(m.sessions, SessionElsewhere(canvasser.value.id, t)).Some? then Some(OpenSessionElsewhere)
    else
      match FindFirst(m.sessions, SessionOn(t))
      case Some(j) => if m.sessions[j].canvasser != canvasser.value.id then Some(CloseSessionFirst) else None
      case None => None
  }

  /** Releases the turf's and the canvasser's other open assignments, then adds the new one. */
  function Reassigned(xs: seq<Assignment>, t: Id, c: Id): seq<Assignment> {
    var released := UpdateWhere(xs, AssignedOn(t), Close(Removed));
    UpdateWhere(released, AssignedElsewhere(c, t), Close(Removed)) + [Assignment(t, c, Given)]
  }

  function AssignTurf(m: Tables, t: Id, canvasser: Option<User>, scope: Scope): Result<Done, Error> {
    var refusal := CheckAssign(m, t, canvasser, scope);
    if refusal.Some? then Err(refusal.value)
    else Ok(Done(m.(turfs := SetStatus(m.turfs, t, Assigned),
                    assignments := Reassigned(m.assignments, t, canvasser.value.id)),
                 |m.assignments|))
  }

  /** The two guards that start and resume share. */
  function CheckSessions(m: Tables, t: Id, c: Id): Option<Error> {
    if FindFirst(m.sessions, SessionElsewhere(c, t)).Some? then Some(OpenSessionElsewhere)
    else if t >= |m.turfs| then Some(TurfNotFound)
    else if !m.turfs[t].isShared && FindFirst(m.sessions, SessionOfOther(t, c)).Some? then Some(TurfBusy)
    else None
  }

  function SetWorking(xs: seq<Assignment>, i: nat): seq<Assignment>
    requires i < |xs|
  {
    xs[i := xs[i].(status := Working)]
  }

  function StartSession(m: Tables, t: Id, c: Id, now: int): Result<Done, Error> {
    var assignment := FindFirst(m.assignments, AssignedTo(t, c));
    if assignment.None? then Err(NoAssignment)
    else if CheckSessions(m, t, c).Some? then Err(CheckSessions(m, t, c).value)
    else
      match FindFirst(m.sessions, SessionOf(t, c))
      case Some(j) => Ok(Done(m, j))
      case None =>
        Ok(Done(m.(turfs := SetStatus(m.turfs, t, InProgress), assignments := SetWorking(m.assignments, assignment.value),
                   sessions := m.sessions + [Session(t, c, now, None, Active)]), |m.sessions|))
  }

  function PauseSession(m: Tables, t: Id, c: Id): Result<Done, Error> {
    match FindFirst(m.sessions, SessionIn(t, c, Active))
    case None => Err(NoActiveSession)
    case Some(j) =>
      if t >= |m.turfs| then Err(TurfNotFound)
      else Ok(Done(m.(turfs := SetStatus(m.turfs, t, Paused), sessions := SetSession(m.sessions, j, OnPause)), j))
  }

  function SetSession(ss: seq<Session>, j: nat, status: SessionStatus): seq<Session>
    requires j < |ss|
  {
    ss[j := ss[j].(status := status)]
  }

  function ResumeSession(m: Tables, t: Id, c: Id): Result<Done, Error> {
    var assignment := FindFirst(m.assignments, AssignedTo(t, c));
    if assignment.None? then Err(NoAssignment)
    else if CheckSessions(m, t, c).Some? then Err(CheckSessions(m, t, c).value)
    else
      match FindFirst(m.sessions, SessionIn(t, c, OnPause))
      case None => Err(NoPausedSession)
      case Some(j) =>
        Ok(Done(m.(turfs := SetStatus(m.turfs, t, InProgress), assignments := SetWorking(m.assignments, assignment.value),
                   sessions := SetSession(m.sessions, j, Active)), j))
  }

  function EndSession(ss: seq<Session>, j: nat, now: int): seq<Session>
    requires j < |ss|
  {
    ss[j := ss[j].(endTime := Some(now), status := Ended)]
  }

  /** The turf is completed when nothing open is left on it, and goes on otherwise. */
  function CompletedTurf(turf: Turf, t: Id, c: Id, xs: seq<Assignment>, ss: seq<Session>): Turf {
    if CountWhere(ss, SessionOn(t)) == 0 && CountWhere(xs, AssignedOn(t)) == 0 then
      turf.(status := Completed, completedBy := Some(c))
    else turf.(status := InProgress)
  }

  function CompleteSession(m: Tables, t: Id, c: Id, now: int): Result<Done, Error> {
    match FindFirst(m.sessions, SessionAtWork(t, c))
    case None => Err(NoOpenSession)
    case Some(j) =>
      if t >= |m.turfs| then Err(TurfNotFound)
      else
        var xs := UpdateWhere(m.assignments, AssignedTo(t, c), Close(Finished));
        var ss := EndSession(m.sessions, j, now);
        Ok(Done(m.(turfs := m.turfs[t := CompletedTurf(m.turfs[t], t, c, xs, ss)], assignments := xs, sessions := ss), j))
  }

  /** Reopening, archiving and deleting look the turf up in scope and refuse while a session is open. */
  function CheckIdle(m: Tables, t: Id, scope: Scope): Option<Error> {
    if !FindsTurf(m, t, scope) then Some(TurfNotFound)
    else if CountWhere(m.sessions, SessionOn(t)) > 0 then Some(CloseSessionFirst)
    else None
  }

  function ReopenTurf(m: Tables, t: Id, scope: Scope): Result<Done, Error> {
    if CheckIdle(m, t, scope).Some? then Err(CheckIdle(m, t, scope).value)
    else Ok(Done(m.(turfs := m.turfs[t := m.turfs[t].(status := Reopened, completedBy := None)]), t))
  }

  function Release(m: Tables, t: Id, deleted: bool): Done
    requires t < |m.turfs|
  {
    Done(m.(turfs := m.turfs[t := m.turfs[t].(status := Archived, deleted := m.turfs[t].deleted || deleted)],
            assignments := UpdateWhere(m.assignments, AssignedOn(t), Close(Removed))), t)
  }

  function ArchiveTurf(m: Tables, t: Id, scope: Scope, reason: string, reasonRequired: bool): Result<Done, Error> {
    if reasonRequired && reason == "" then Err(ReasonRequired)
    else if CheckIdle(m, t, scope).Some? then Err(CheckIdle(m, t, scope).value)
    else Ok(Release(m, t, false))
  }

  function DeleteTurf(m: Tables, t: Id, scope: Scope, reason: string): Result<Done, Error> {
    if reason == "" then Err(ReasonRequired)
    else if CheckIdle(m, t, scope).Some? then Err(CheckIdle(m, t, scope).value)
    else
      var released := Release(m, t, true);
      Ok(released.(tables := released.tables.(addresses := UpdateWhere(m.addresses, LiveOn(t), DeleteAddress()))))
  }

  function LiveOn(t: Id): Address -> bool {
    (a: Address) => a.turf == t && !a.deleted
  }

  function DeleteAddress(): Address -> Address {
    (a: Address) => a.(deleted := true)
  }

  /** Imports and approved requests put addresses on turfs. */
  function AddAddress(m: Tables, t: Id): Result<Done, Error> {
    if t >= |m.turfs| then Err(TurfNotFound) else Ok(Done(m.(addresses := m.addresses + [Address(t, false)]), |m.addresses|))
  }

  datatype Op =
    | CreateTurfOp(newTurf: Turf)
    | AddAddressOp(t: Id)
    | AssignOp(t: Id, canvasser: Option<User>, scope: Scope)
    | StartOp(t: Id, c: Id, now: int)
    | PauseOp(t: Id, c: Id)
    | ResumeOp(t: Id, c: Id)
    | CompleteOp(t: Id, c: Id, now: int)
    | ReopenOp(t: Id, scope: Scope)
    | ArchiveOp(t: Id, scope: Scope, reason: string, reasonRequired: bool)
    | DeleteOp(t: Id, scope: Scope, reason: string)

  function Attempt(m: Tables, op: Op): Result<Done, Error> {
    match op
    case CreateTurfOp(turf) => CreateTurf(m, turf)
    case AddAddressOp(t) => AddAddress(m, t)
    case AssignOp(t, canvasser, scope) => AssignTurf(m, t, canvasser, scope)
    case StartOp(t, c, now) => StartSession(m, t, c, now)
    case PauseOp(t, c) => PauseSession(m, t, c)
    case ResumeOp(t, c) => ResumeSession(m, t, c)
    case CompleteOp(t, c, now) => CompleteSession(m, t, c, now)
    case ReopenOp(t, scope) => ReopenTurf(m, t, scope)
    case ArchiveOp(t, scope, reason, required) => ArchiveTurf(m, t, scope, reason, required)
    case DeleteOp(t, scope, reason) => DeleteTurf(m, t, scope, reason)
  }

  function Next(m: Tables, op: Op): Tables {
    match Attempt(m, op) case Ok(done) => done.tables case Err(_) => m
  }

  function Run(ops: seq<Op>): Tables {
    if ops == [] then Empty else Next(Run(ops[..|ops| - 1]), ops[|ops| - 1])
  }

  // ---------------------------------------------------------------- carrying statuses over

  /** A status stays sound when what it relies on stays. */
  lemma StatusCarries(turf: Turf, t: Id, xs: seq<Assignment>, ss: seq<Session>, xs': seq<Assignment>, ss': seq<Session>)
    requires StatusSound(turf, t, xs, ss)
    requires forall status :: HasSessionIn(ss, t, status) ==> HasSessionIn(ss', t, status)
    requires HasSession(ss', t) ==> HasSession(ss, t)
    requires HasAssignment(xs', t) ==> HasAssignment(xs, t)
    ensures StatusSound(turf, t, xs', ss')
  {
  }

  /** Sessions of other turfs are untouched by a change to one session, or by a new one. */
  lemma OtherTurfsKeepSessions(ss: seq<Session>, ss': seq<Session>, t: Id, u: Id)
    requires |ss| <= |ss'| && u != t
    requires forall j :: 0 <= j < |ss'| ==> if j < |ss| && ss[j].turf != t then ss'[j] == ss[j] else ss'[j].turf == t
    ensures HasSession(ss', u) <==> HasSession(ss, u)
    ensures forall status :: HasSessionIn(ss', u, status) <==> HasSessionIn(ss, u, status)
  {
  }

  /** The assignments are the same rows, some of them closed. */
  ghost predicate OnlyCloses(xs: seq<Assignment>, xs': seq<Assignment>) {
    |xs| == |xs'| && forall i {:trigger xs'[i]} :: 0 <= i < |xs| ==>
      xs'[i].turf == xs[i].turf && xs'[i].canvasser == xs[i].canvasser && (OpenA(xs'[i]) ==> OpenA(xs[i]))
  }

  lemma ClosingKeepsMatching(xs: seq<Assignment>, xs': seq<Assignment>)
    requires Matching(xs) && OnlyCloses(xs, xs')
    ensures Matching(xs')
    ensures forall t :: HasAssignment(xs', t) ==> HasAssignment(xs, t)
  {
  }

  // ---------------------------------------------------------------- assigning

  /** Row by row: the old open assignments that remain concern neither the turf nor the canvasser. */
  lemma ReassignedRows(xs: seq<Assignment>, t: Id, c: Id)
    ensures |Reassigned(xs, t, c)| == |xs| + 1 && Reassigned(xs, t, c)[|xs|] == Assignment(t, c, Given)
    ensures forall i :: 0 <= i < |xs| ==>
      var a := Reassigned(xs, t, c)[i];
      && a.turf == xs[i].turf && a.canvasser == xs[i].canvasser
      && (OpenA(a) <==> OpenA(xs[i]) && a.turf != t && a.canvasser != c)
  {
  }

  lemma AssignKeepsBacking(xs: seq<Assignment>, ss: seq<Session>, t: Id, c: Id)
    requires SessionsBacked(xs, ss)
    requires forall j :: 0 <= j < |ss| && OpenS(ss[j]) ==> (ss[j].turf == t <==> ss[j].canvasser == c)
    ensures SessionsBacked(Reassigned(xs, t, c), ss)
  {
    var xs' := Reassigned(xs, t, c);
    ReassignedRows(xs, t, c);
    forall j | 0 <= j < |ss| && OpenS(ss[j]) ensures Backed(xs', ss[j]) {
      assert Backed(xs, ss[j]);
      if ss[j].turf == t {
        assert OpenA(xs'[|xs|]);
      } else {
        var i :| 0 <= i < |xs| && OpenA(xs[i]) && xs[i].turf == ss[j].turf && xs[i].canvasser == ss[j].canvasser;
        assert OpenA(xs'[i]);
      }
    }
  }

  lemma AssignKeepsValid(m: Tables, t: Id, canvasser: Option<User>, scope: Scope, m': Tables, row: Id)
    requires Valid(m) && AssignTurf(m, t, canvasser, scope) == Ok(Done(m', row))
    ensures Valid(m')
  {
    var c := canvasser.value.id;
    ReassignedRows(m.assignments, t, c);
    assert Matching(m'.assignments);
    forall j | 0 <= j < |m.sessions| && OpenS(m.sessions[j])
      ensures m.sessions[j].turf == t <==> m.sessions[j].canvasser == c
    {
      var found := FindFirst(m.sessions, SessionOn(t));
      assert !SessionElsewhere(c, t)(m.sessions[j]);
      if m.sessions[j].turf == t {
        assert SessionOn(t)(m.sessions[j]);
        assert OpenS(m.sessions[found.value]);
      }
    }
    AssignKeepsBacking(m.assignments, m.sessions, t, c);
    forall u | 0 <= u < |m'.turfs| ensures StatusSound(m'.turfs[u], u, m'.assignments, m'.sessions) {
      assert StatusSound(m.turfs[u], u, m.assignments, m.sessions);
      if u != t {
        StatusCarries(m.turfs[u], u, m.assignments, m.sessions, m'.assignments, m.sessions);
      }
    }
  }

  // ---------------------------------------------------------------- sessions

  /** A turf with an open assignment, or with an open session, is neither deleted nor archived. */
  lemma BusyTurfIsLive(m: Tables, t: Id)
    requires Valid(m) && t < |m.turfs| && (HasAssignment(m.assignments, t) || HasSession(m.sessions, t))
    ensures !m.turfs[t].deleted
  {
    assert StatusSound(m.turfs[t], t, m.assignments, m.sessions);
  }

  /** Once a canvasser holds the turf's assignment, an open session that concerns either of them is theirs. */
  lemma SessionOfHolder(m: Tables, i: nat, j: nat)
    requires Valid(m) && i < |m.assignments| && OpenA(m.assignments[i]) && j < |m.sessions| && OpenS(m.sessions[j])
    ensures m.sessions[j].turf == m.assignments[i].turf <==> m.sessions[j].canvasser == m.assignments[i].canvasser
  {
    assert Backed(m.assignments, m.sessions[j]);
  }

  lemma SetWorkingKeepsRows(xs: seq<Assignment>, i: nat)
    requires i < |xs| && OpenA(xs[i])
    ensures forall k :: 0 <= k < |xs| ==>
      var a := SetWorking(xs, i)[k];
      a.turf == xs[k].turf && a.canvasser == xs[k].canvasser && (OpenA(a) <==> OpenA(xs[k]))
    ensures Matching(xs) ==> Matching(SetWorking(xs, i))
    ensures forall s :: Backed(xs, s) ==> Backed(SetWorking(xs, i), s)
    ensures forall t :: HasAssignment(SetWorking(xs, i), t) ==> HasAssignment(xs, t)
  {
    var xs' := SetWorking(xs, i);
    forall s | Backed(xs, s) ensures Backed(xs', s) {
      var k :| 0 <= k < |xs| && OpenA(xs[k]) && xs[k].turf == s.turf && xs[k].canvasser == s.canvasser;
      assert OpenA(xs'[k]);
    }
    forall t | HasAssignment(xs', t) ensures HasAssignment(xs, t) {
      var k :| 0 <= k < |xs'| && OpenA(xs'[k]) && xs'[k].turf == t;
      assert OpenA(xs[k]);
    }
  }

  /** A step that concerns one turf keeps the statuses of all the others. */
  lemma OthersCarry(m: Tables, m': Tables, t: Id)
    requires StatusesSound(m) && t < |m.turfs| && |m'.turfs| == |m.turfs|
    requires forall u :: 0 <= u < |m.turfs| && u != t ==> m'.turfs[u] == m.turfs[u]
    requires |m.sessions| <= |m'.sessions|
    requires forall j :: 0 <= j < |m'.sessions| ==>
               if j < |m.sessions| && m.sessions[j].turf != t then m'.sessions[j] == m.sessions[j]
               else m'.sessions[j].turf == t
    requires forall u :: u != t && HasAssignment(m'.assignments, u) ==> HasAssignment(m.assignments, u)
    requires StatusSound(m'.turfs[t], t, m'.assignments, m'.sessions)
    ensures StatusesSound(m')
  {
    forall u | 0 <= u < |m'.turfs| ensures StatusSound(m'.turfs[u], u, m'.assignments, m'.sessions) {
      if u != t {
        assert StatusSound(m.turfs[u], u, m.assignments, m.sessions);
        OtherTurfsKeepSessions(m.sessions, m'.sessions, t, u);
        StatusCarries(m.turfs[u], u, m.assignments, m.sessions, m'.assignments, m'.sessions);
      }
    }
  }

  lemma StartKeepsValid(m: Tables, t: Id, c: Id, now: int, m': Tables, row: Id)
    requires Valid(m) && StartSession(m, t, c, now) == Ok(Done(m', row))
    ensures Valid(m')
  {
    if FindFirst(m.sessions, SessionOf(t, c)).None? {
      var i := FindFirst(m.assignments, AssignedTo(t, c)).value;
      assert OpenA(m.assignments[i]) && HasAssignment(m.assignments, t);
      SetWorkingKeepsRows(m.assignments, i);
      BusyTurfIsLive(m, t);
      var added := m'.sessions[|m.sessions|];
      assert OpenA(m'.assignments[i]) && Backed(m'.assignments, added);
      forall j | 0 <= j < |m.sessions| && OpenS(m.sessions[j])
        ensures m.sessions[j].turf != t && m.sessions[j].canvasser != c && Backed(m'.assignments, m.sessions[j])
      {
        assert Backed(m.assignments, m.sessions[j]);
        SessionOfHolder(m, i, j);
        assert !SessionOf(t, c)(m.sessions[j]);
      }
      assert OpenS(m'.sessions[|m.sessions|]) && HasSessionIn(m'.sessions, t, Active);
      OthersCarry(m, m', t);
    }
  }

  /** Pausing and resuming change the status of one open session and of its turf together. */
  lemma SwitchKeepsValid(m: Tables, t: Id, c: Id, j: nat, xs: seq<Assignment>, status: SessionStatus,
                         turfStatus: TurfStatus)
    requires Valid(m) && j < |m.sessions| && SessionOf(t, c)(m.sessions[j]) && t < |m.turfs|
    requires (status == Active && turfStatus == InProgress) || (status == OnPause && turfStatus == Paused)
    requires Matching(xs) && |xs| == |m.assignments|
    requires forall i :: 0 <= i < |xs| ==> xs[i].turf == m.assignments[i].turf
    requires forall s :: Backed(m.assignments, s) ==> Backed(xs, s)
    requires forall u :: HasAssignment(xs, u) ==> HasAssignment(m.assignments, u)
    ensures Valid(m.(turfs := SetStatus(m.turfs, t, turfStatus), assignments := xs,
                     sessions := SetSession(m.sessions, j, status)))
  {
    var m' := m.(turfs := SetStatus(m.turfs, t, turfStatus), assignments := xs,
                 sessions := SetSession(m.sessions, j, status));
    assert OpenS(m.sessions[j]) && HasSession(m.sessions, t);
    BusyTurfIsLive(m, t);
    forall k | 0 <= k < |m'.sessions| && OpenS(m'.sessions[k])
      ensures m'.sessions[k].status == Active || m'.sessions[k].status == OnPause
      ensures Backed(xs, m'.sessions[k])
    {
      assert OpenS(m.sessions[k]) && Backed(m.assignments, m.sessions[k]) && Backed(xs, m.sessions[k]);
      assert Backed(xs, m'.sessions[k]);
    }
    assert OneSessionEach(m'.sessions) by {
      assert forall k :: 0 <= k < |m'.sessions| ==> (OpenS(m'.sessions[k]) <==> OpenS(m.sessions[k]));
    }
    assert OpenS(m'.sessions[j]) && HasSessionIn(m'.sessions, t, status);
    forall k | 0 <= k < |m'.sessions|
      ensures if k < |m.sessions| && m.sessions[k].turf != t then m'.sessions[k] == m.sessions[k] else m'.sessions[k].turf == t
    {
    }
    OthersCarry(m, m', t);
  }

  lemma PauseKeepsValid(m: Tables, t: Id, c: Id, m': Tables, row: Id)
    requires Valid(m) && PauseSession(m, t, c) == Ok(Done(m', row))
    ensures Valid(m')
  {
    SwitchKeepsValid(m, t, c, row, m.assignments, OnPause, Paused);
  }

  lemma ResumeKeepsValid(m: Tables, t: Id, c: Id, m': Tables, row: Id)
    requires Valid(m) && ResumeSession(m, t, c) == Ok(Done(m', row))
    ensures Valid(m')
  {
    var i := FindFirst(m.assignments, AssignedTo(t, c)).value;
    SetWorkingKeepsRows(m.assignments, i);
    SwitchKeepsValid(m, t, c, row, m'.assignments, Active, InProgress);
  }

  /** Ending the open session of a turf and closing the assignment behind it leave nothing open on the turf. */
  lemma CompleteLeavesNothingOpen(m: Tables, t: Id, c: Id, now: int, j: nat)
    requires Valid(m) && j < |m.sessions| && SessionOf(t, c)(m.sessions[j])
    ensures !HasSession(EndSession(m.sessions, j, now), t)
    ensures !HasAssignment(UpdateWhere(m.assignments, AssignedTo(t, c), Close(Finished)), t)
  {
    var xs' := UpdateWhere(m.assignments, AssignedTo(t, c), Close(Finished));
    var ss' := EndSession(m.sessions, j, now);
    assert OpenS(m.sessions[j]) && Backed(m.assignments, m.sessions[j]);
    forall k | 0 <= k < |ss'| && OpenS(ss'[k]) ensures ss'[k].turf != t {
      assert OpenS(m.sessions[k]);
    }
    forall i | 0 <= i < |xs'| && OpenA(xs'[i]) ensures xs'[i].turf != t {
      assert OpenA(m.assignments[i]) && !AssignedTo(t, c)(m.assignments[i]);
    }
  }

  /** From any valid state, completing finds no remaining session and no remaining assignment, and so always
      marks the turf completed: the other branch is never taken. */
  lemma CompleteAlwaysCompletes(m: Tables, t: Id, c: Id, now: int, m': Tables, row: Id)
    requires Valid(m) && CompleteSession(m, t, c, now) == Ok(Done(m', row))
    ensures CountWhere(m'.sessions, SessionOn(t)) == 0 && CountWhere(m'.assignments, AssignedOn(t)) == 0
    ensures m'.turfs[t].status == Completed && m'.turfs[t].completedBy == Some(c)
  {
    CompleteLeavesNothingOpen(m, t, c, now, row);
    assert forall k :: 0 <= k < |m'.sessions| ==> !SessionOn(t)(m'.sessions[k]);
    assert forall i :: 0 <= i < |m'.assignments| ==> !AssignedOn(t)(m'.assignments[i]);
  }

  lemma CompleteKeepsValid(m: Tables, t: Id, c: Id, now: int, m': Tables, row: Id)
    requires Valid(m) && CompleteSession(m, t, c, now) == Ok(Done(m', row))
    ensures Valid(m')
  {
    assert OpenS(m.sessions[row]) && HasSession(m.sessions, t);
    BusyTurfIsLive(m, t);
    CompleteAlwaysCompletes(m, t, c, now, m', row);
    CompleteLeavesNothingOpen(m, t, c, now, row);
    assert OnlyCloses(m.assignments, m'.assignments);
    ClosingKeepsMatching(m.assignments, m'.assignments);
    forall k | 0 <= k < |m'.sessions| && OpenS(m'.sessions[k])
      ensures (m'.sessions[k].status == Active || m'.sessions[k].status == OnPause) && Backed(m'.assignments, m'.sessions[k])
    {
      assert OpenS(m.sessions[k]) && Backed(m.assignments, m.sessions[k]);
      var i :| 0 <= i < |m.assignments| && OpenA(m.assignments[i]) && m.assignments[i].turf == m.sessions[k].turf
               && m.assignments[i].canvasser == m.sessions[k].canvasser;
      assert OpenA(m'.assignments[i]);
    }
    assert forall k :: 0 <= k < |m'.sessions| && OpenS(m'.sessions[k]) ==> OpenS(m.sessions[k]);
    assert OneSessionEach(m'.sessions);
    OthersCarry(m, m', t);
  }

  // ---------------------------------------------------------------- idle turfs

  lemma ReopenKeepsValid(m: Tables, t: Id, scope: Scope, m': Tables, row: Id)
    requires Valid(m) && ReopenTurf(m, t, scope) == Ok(Done(m', row))
    ensures Valid(m')
  {
    assert forall j :: 0 <= j < |m.sessions| ==> !SessionOn(t)(m.sessions[j]);
    OthersCarry(m, m', t);
  }

  lemma ReleaseKeepsValid(m: Tables, t: Id, scope: Scope, deleted: bool)
    requires Valid(m) && CheckIdle(m, t, scope).None?
    ensures Valid(Release(m, t, deleted).tables)
  {
    var m' := Release(m, t, deleted).tables;
    assert forall j :: 0 <= j < |m.sessions| ==> !SessionOn(t)(m.sessions[j]);
    assert OnlyCloses(m.assignments, m'.assignments);
    ClosingKeepsMatching(m.assignments, m'.assignments);
    forall i | 0 <= i < |m'.assignments| && OpenA(m'.assignments[i]) ensures m'.assignments[i].turf != t {
      assert OpenA(m.assignments[i]) && !AssignedOn(t)(m.assignments[i]);
    }
    forall k | 0 <= k < |m.sessions| && OpenS(m.sessions[k]) ensures Backed(m'.assignments, m.sessions[k]) {
      assert Backed(m.assignments, m.sessions[k]);
      var i :| 0 <= i < |m.assignments| && OpenA(m.assignments[i]) && m.assignments[i].turf == m.sessions[k].turf
               && m.assignments[i].canvasser == m.sessions[k].canvasser;
      assert OpenA(m'.assignments[i]);
    }
    OthersCarry(m, m', t);
  }

  lemma AddressesDoNotMatter(m: Tables, addresses: seq<Address>)
    requires Valid(m)
    ensures Valid(m.(addresses := addresses))
  {
    var m' := m.(addresses := addresses);
    forall t | 0 <= t < |m'.turfs| ensures StatusSound(m'.turfs[t], t, m'.assignments, m'.sessions) {
      assert StatusSound(m.turfs[t], t, m.assignments, m.sessions);
    }
  }

  lemma AddAddressKeepsValid(m: Tables, t: Id, m': Tables, row: Id)
    requires Valid(m) && AddAddress(m, t) == Ok(Done(m', row))
    ensures Valid(m')
  {
    AddressesDoNotMatter(m, m'.addresses);
  }

  lemma DeleteKeepsValid(m: Tables, t: Id, scope: Scope, reason: string, m': Tables, row: Id)
    requires Valid(m) && DeleteTurf(m, t, scope, reason) == Ok(Done(m', row))
    ensures Valid(m')
  {
    ReleaseKeepsValid(m, t, scope, true);
    AddressesDoNotMatter(Release(m, t, true).tables, m'.addresses);
  }

  /** Deleting a turf leaves no live address on it and touches no address of another turf. */
  lemma DeleteTakesAddresses(m: Tables, t: Id, scope: Scope, reason: string, m': Tables, row: Id)
    requires DeleteTurf(m, t, scope, reason) == Ok(Done(m', row))
    ensures CountWhere(m'.addresses, LiveOn(t)) == 0 && |m'.addresses| == |m.addresses|
    ensures forall i :: 0 <= i < |m.addresses| ==>
      m'.addresses[i].turf == m.addresses[i].turf && (m.addresses[i].turf != t ==> m'.addresses[i] == m.addresses[i])
  {
  }

  lemma CreateTurfKeepsValid(m: Tables, turf: Turf, m': Tables, row: Id)
    requires Valid(m) && CreateTurf(m, turf) == Ok(Done(m', row))
    ensures Valid(m')
  {
    assert forall i :: 0 <= i < |m.assignments| ==> m.assignments[i].turf < row;
    assert forall j :: 0 <= j < |m.sessions| ==> m.sessions[j].turf < row;
    forall u | 0 <= u < |m'.turfs| ensures StatusSound(m'.turfs[u], u, m'.assignments, m'.sessions) {
      if u < row {
        assert StatusSound(m.turfs[u], u, m.assignments, m.sessions);
      }
    }
  }

  // ---------------------------------------------------------------- every run

  lemma NextKeepsValid(m: Tables, op: Op)
    requires Valid(m)
    ensures Valid(Next(m, op))
  {
    if Attempt(m, op).Ok? {
      var Done(m', row) := Attempt(m, op).value;
      match op
      case CreateTurfOp(turf) => CreateTurfKeepsValid(m, turf, m', row);
      case AddAddressOp(t) =>
        AddAddressKeepsValid(m, t, m', row);
      case AssignOp(t, canvasser, scope) => AssignKeepsValid(m, t, canvasser, scope, m', row);
      case StartOp(t, c, now) => StartKeepsValid(m, t, c, now, m', row);
      case PauseOp(t, c) => PauseKeepsValid(m, t, c, m', row);
      case ResumeOp(t, c) => ResumeKeepsValid(m, t, c, m', row);
      case CompleteOp(t, c, now) => CompleteKeepsValid(m, t, c, now, m', row);
      case ReopenOp(t, scope) => ReopenKeepsValid(m, t, scope, m', row);
      case ArchiveOp(t, scope, reason, required) => ReleaseKeepsValid(m, t, scope, false);
      case DeleteOp(t, scope, reason) => DeleteKeepsValid(m, t, scope, reason, m', row);
    }
  }

  lemma {:induction false} RunKeepsValid(ops: seq<Op>)
    ensures Valid(Run(ops))
  {
    if ops != [] {
      RunKeepsValid(ops[..|ops| - 1]);
      NextKeepsValid(Run(ops[..|ops| - 1]), ops[|ops| - 1]);
    }
  }

  /** In every run: two open assignments share neither turf nor canvasser, two open sessions share neither,
      whether or not the turf is shared, and an open session has an open assignment of its turf and canvasser. */
  lemma MatchingInEveryRun(ops: seq<Op>, i: nat, j: nat)
    ensures var xs := Run(ops).assignments;
            i < |xs| && j < |xs| && i != j && OpenA(xs[i]) && OpenA(xs[j]) ==>
              xs[i].turf != xs[j].turf && xs[i].canvasser != xs[j].canvasser
    ensures var ss := Run(ops).sessions;
            i < |ss| && j < |ss| && i != j && OpenS(ss[i]) && OpenS(ss[j]) ==>
              ss[i].turf != ss[j].turf && ss[i].canvasser != ss[j].canvasser
    ensures var m := Run(ops);
            i < |m.sessions| && OpenS(m.sessions[i]) ==>
              exists k :: 0 <= k < |m.assignments| &&
                AssignedTo(m.sessions[i].turf, m.sessions[i].canvasser)(m.assignments[k])
  {
    RunKeepsValid(ops);
    var m := Run(ops);
    if i < |m.sessions| && OpenS(m.sessions[i]) {
      assert Backed(m.assignments, m.sessions[i]);
      var k :| 0 <= k < |m.assignments| && OpenA(m.assignments[k]) && m.assignments[k].turf == m.sessions[i].turf
               && m.assignments[k].canvasser == m.sessions[i].canvasser;
      assert AssignedTo(m.sessions[i].turf, m.sessions[i].canvasser)(m.assignments[k]);
    }
  }

  function SessionOnIn(t: Id, status: SessionStatus): Session -> bool {
    (s: Session) => OpenS(s) && s.turf == t && s.status == status
  }

  /** In every run: a turf in progress has exactly one open session, and it is active; a paused one has exactly
      one, and it is paused; a reopened one has none; an unassigned, completed, archived or deleted one has
      neither an open session nor an open assignment. */
  lemma StatusInEveryRun(ops: seq<Op>, t: Id)
    requires t < |Run(ops).turfs|
    ensures var m := Run(ops);
            var sessions := CountWhere(m.sessions, SessionOn(t));
            && (m.turfs[t].status == InProgress ==> sessions == 1 && CountWhere(m.sessions, SessionOnIn(t, Active)) == 1)
            && (m.turfs[t].status == Paused ==> sessions == 1 && CountWhere(m.sessions, SessionOnIn(t, OnPause)) == 1)
            && (m.turfs[t].status == Reopened ==> sessions == 0)
            && (m.turfs[t].deleted || m.turfs[t].status in {Unassigned, Completed, Archived} ==>
                  sessions == 0 && CountWhere(m.assignments, AssignedOn(t)) == 0)
  {
    RunKeepsValid(ops);
    var m := Run(ops);
    assert StatusSound(m.turfs[t], t, m.assignments, m.sessions);
    if m.turfs[t].status == InProgress {
      OnlySession(m, t, Active);
    } else if m.turfs[t].status == Paused {
      OnlySession(m, t, OnPause);
    } else {
      if !HasSession(m.sessions, t) {
        assert forall j :: 0 <= j < |m.sessions| ==> !SessionOn(t)(m.sessions[j]);
      }
      if !HasAssignment(m.assignments, t) {
        assert forall i :: 0 <= i < |m.assignments| ==> !AssignedOn(t)(m.assignments[i]);
      }
    }
  }

  lemma OnlySession(m: Tables, t: Id, status: SessionStatus)
    requires OneSessionEach(m.sessions) && HasSessionIn(m.sessions, t, status)
    ensures CountWhere(m.sessions, SessionOn(t)) == 1
    ensures CountWhere(m.sessions, SessionOnIn(t, status)) == 1
  {
    var j :| 0 <= j < |m.sessions| && OpenS(m.sessions[j]) && m.sessions[j].turf == t && m.sessions[j].status == status;
    forall k | 0 <= k < |m.sessions| && OpenS(m.sessions[k]) && m.sessions[k].turf == t ensures k == j {
    }
    CountOfOne(m.sessions, SessionOn(t), j);
    CountOfOne(m.sessions, SessionOnIn(t, status), j);
  }

  // ---------------------------------------------------------------- which calls succeed

  /** From any valid state a start succeeds exactly when the canvasser holds the turf's open assignment. The session
      guards, with their test for shared turfs, then never refuse. */
  lemma StartSucceeds(m: Tables, t: Id, c: Id, now: int)
    requires Valid(m)
    ensures StartSession(m, t, c, now).Ok? <==> exists i :: 0 <= i < |m.assignments| && AssignedTo(t, c)(m.assignments[i])
  {
    var assignment := FindFirst(m.assignments, AssignedTo(t, c));
    if assignment.Some? {
      HolderPassesGuards(m, assignment.value);
    }
  }

  lemma HolderPassesGuards(m: Tables, i: nat)
    requires Valid(m) && i < |m.assignments| && OpenA(m.assignments[i])
    ensures CheckSessions(m, m.assignments[i].turf, m.assignments[i].canvasser).None?
  {
    var t, c := m.assignments[i].turf, m.assignments[i].canvasser;
    forall j | 0 <= j < |m.sessions|
      ensures !SessionElsewhere(c, t)(m.sessions[j]) && !SessionOfOther(t, c)(m.sessions[j])
    {
      if OpenS(m.sessions[j]) {
        SessionOfHolder(m, i, j);
      }
    }
  }

  /** From any valid state pause, resume and complete succeed exactly when the canvasser has an open session on the
      turf in the status the call starts from; the assignment that resume asks for is then there. */
  lemma SwitchesSucceed(m: Tables, t: Id, c: Id, now: int)
    requires Valid(m)
    ensures PauseSession(m, t, c).Ok? <==> exists j :: 0 <= j < |m.sessions| && SessionIn(t, c, Active)(m.sessions[j])
    ensures ResumeSession(m, t, c).Ok? <==> exists j :: 0 <= j < |m.sessions| && SessionIn(t, c, OnPause)(m.sessions[j])
    ensures CompleteSession(m, t, c, now).Ok? <==> exists j :: 0 <= j < |m.sessions| && SessionOf(t, c)(m.sessions[j])
  {
    forall j | 0 <= j < |m.sessions| && SessionOf(t, c)(m.sessions[j])
      ensures t < |m.turfs| && FindFirst(m.assignments, AssignedTo(t, c)).Some? && CheckSessions(m, t, c).None?
    {
      assert OpenS(m.sessions[j]) && Backed(m.assignments, m.sessions[j]);
      var i :| 0 <= i < |m.assignments| && OpenA(m.assignments[i]) && m.assignments[i].turf == t
               && m.assignments[i].canvasser == c;
      assert AssignedTo(t, c)(m.assignments[i]);
      HolderPassesGuards(m, i);
    }
    forall j | 0 <= j < |m.sessions|
      ensures SessionIn(t, c, Active)(m.sessions[j]) || SessionIn(t, c, OnPause)(m.sessions[j]) ==> SessionOf(t, c)(m.sessions[j])
    {
    }
  }

  /** A lookup for an open session of a turf and canvasser has at most one row to find, whatever the order. */
  lemma LookupsAreUnique(m: Tables, t: Id, c: Id, i: nat, j: nat)
    requires Valid(m)
    ensures i < |m.sessions| && j < |m.sessions| && SessionOn(t)(m.sessions[i]) && SessionOn(t)(m.sessions[j]) ==> i == j
    ensures i < |m.assignments| && j < |m.assignments| && AssignedTo(t, c)(m.assignments[i]) && AssignedTo(t, c)(m.assignments[j])
            ==> i == j
  {
  }

  lemma StartLeavesActive(m: Tables, t: Id, c: Id, now: int, m': Tables, row: Id)
    requires Valid(m) && StartSession(m, t, c, now) == Ok(Done(m', row)) && FindFirst(m.sessions, SessionOf(t, c)).None?
    ensures Valid(m') && row < |m'.sessions| && SessionIn(t, c, Active)(m'.sessions[row])
  {
    StartKeepsValid(m, t, c, now, m', row);
  }

  lemma PauseLeavesPaused(m: Tables, t: Id, c: Id, m': Tables, row: Id)
    requires Valid(m) && PauseSession(m, t, c) == Ok(Done(m', row))
    ensures Valid(m') && row < |m'.sessions| && SessionIn(t, c, OnPause)(m'.sessions[row])
  {
    PauseKeepsValid(m, t, c, m', row);
  }

  lemma ResumeLeavesActive(m: Tables, t: Id, c: Id, m': Tables, row: Id)
    requires Valid(m) && ResumeSession(m, t, c) == Ok(Done(m', row))
    ensures Valid(m') && row < |m'.sessions| && SessionIn(t, c, Active)(m'.sessions[row])
  {
    ResumeKeepsValid(m, t, c, m', row);
  }

  /** An active session can be paused and resumed. */
  lemma ActiveSessionCanBePaused(m: Tables, t: Id, c: Id, j: nat, now: int) returns (paused: Done, resumed: Done)
    requires Valid(m) && j < |m.sessions| && SessionIn(t, c, Active)(m.sessions[j])
    ensures PauseSession(m, t, c) == Ok(paused) && ResumeSession(paused.tables, t, c) == Ok(resumed)
    ensures Valid(resumed.tables) && resumed.row < |resumed.tables.sessions|
    ensures SessionIn(t, c, Active)(resumed.tables.sessions[resumed.row])
  {
    SwitchesSucceed(m, t, c, now);
    paused := PauseSession(m, t, c).value;
    PauseLeavesPaused(m, t, c, paused.tables, paused.row);
    SwitchesSucceed(paused.tables, t, c, now);
    resumed := ResumeSession(paused.tables, t, c).value;
    ResumeLeavesActive(paused.tables, t, c, resumed.tables, resumed.row);
  }

  /** An open session can be completed, which completes the turf. */
  lemma OpenSessionCanBeCompleted(m: Tables, t: Id, c: Id, j: nat, now: int) returns (completed: Done)
    requires Valid(m) && j < |m.sessions| && SessionOf(t, c)(m.sessions[j])
    ensures CompleteSession(m, t, c, now) == Ok(completed) && t < |completed.tables.turfs|
    ensures completed.tables.turfs[t].status == Completed && completed.tables.turfs[t].completedBy == Some(c)
  {
    SwitchesSucceed(m, t, c, now);
    completed := CompleteSession(m, t, c, now).value;
    CompleteAlwaysCompletes(m, t, c, now, completed.tables, completed.row);
  }

  /** Nothing stands in the way of a canvasser who was assigned an idle turf: the session can be started, and then
      paused, resumed and completed. */
  lemma AssignedTurfCanBeWorked(m: Tables, t: Id, canvasser: Option<User>, scope: Scope, m': Tables, row: Id, now: int)
    returns (started: Done)
    requires Valid(m) && AssignTurf(m, t, canvasser, scope) == Ok(Done(m', row))
    requires FindFirst(m.sessions, SessionOn(t)).None?
    ensures StartSession(m', t, canvasser.value.id, now) == Ok(started) && Valid(started.tables)
    ensures started.row < |started.tables.sessions|
    ensures SessionIn(t, canvasser.value.id, Active)(started.tables.sessions[started.row])
  {
    var c := canvasser.value.id;
    AssignKeepsValid(m, t, canvasser, scope, m', row);
    assert AssignedTo(t, c)(m'.assignments[|m'.assignments| - 1]);
    StartSucceeds(m', t, c, now);
    started := StartSession(m', t, c, now).value;
    assert forall j :: 0 <= j < |m.sessions| ==> !SessionOn(t)(m.sessions[j]);
    StartLeavesActive(m', t, c, now, started.tables, started.row);
  }

  // ---------------------------------------------------------------- what no status says

  /** The turf has the status `assigned`, and nobody is assigned to it. */
  ghost predicate Stale(m: Tables, t: Id) {
    t < |m.turfs| && m.turfs[t].status == Assigned && !HasAssignment(m.assignments, t)
  }

  /** The turf is assigned, and the call assigns its canvasser to another turf. */
  ghost predicate TakesCanvasser(m: Tables, op: Op, t: Id) {
    && t < |m.turfs| && m.turfs[t].status == Assigned
    && op.AssignOp? && op.t != t && Attempt(m, op).Ok?
    && exists i :: 0 <= i < |m.assignments| && AssignedTo(t, op.canvasser.value.id)(m.assignments[i])
  }

  /** The call assigns, reopens, archives or deletes the turf. */
  ghost predicate Resolves(m: Tables, op: Op, t: Id) {
    (op.AssignOp? || op.ReopenOp? || op.ArchiveOp? || op.DeleteOp?) && op.t == t && Attempt(m, op).Ok?
  }

  /** When a canvasser is assigned to another turf, the turf left behind has no open assignment any more, and keeps
      the status it had. */
  lemma AssignedGoesStale(m: Tables, i: nat, t: Id, canvasser: Option<User>, scope: Scope, m': Tables, row: Id)
    requires Valid(m) && AssignTurf(m, t, canvasser, scope) == Ok(Done(m', row))
    requires i < |m.assignments| && OpenA(m.assignments[i])
    requires m.assignments[i].canvasser == canvasser.value.id && m.assignments[i].turf != t
    ensures m'.turfs[m.assignments[i].turf] == m.turfs[m.assignments[i].turf]
    ensures !HasAssignment(m'.assignments, m.assignments[i].turf)
    ensures m.turfs[m.assignments[i].turf].status == Assigned <==> Stale(m', m.assignments[i].turf)
  {
    ReassignedRows(m.assignments, t, canvasser.value.id);
    forall k | 0 <= k < |m'.assignments| && OpenA(m'.assignments[k]) ensures m'.assignments[k].turf != m.assignments[i].turf {
      assert k < |m.assignments| ==> OpenA(m.assignments[k]);
    }
  }

  /** Assignments of a turf that is not concerned stay open or closed. */
  lemma SameOnTurf(xs: seq<Assignment>, xs': seq<Assignment>, t: Id)
    requires |xs| <= |xs'|
    requires forall i {:trigger xs'[i]} :: 0 <= i < |xs'| ==>
               if i < |xs| then xs'[i].turf == xs[i].turf && (xs[i].turf == t ==> (OpenA(xs'[i]) <==> OpenA(xs[i])))
               else xs'[i].turf != t
    ensures HasAssignment(xs', t) <==> HasAssignment(xs, t)
  {
    if i :| 0 <= i < |xs| && OpenA(xs[i]) && xs[i].turf == t {
      assert OpenA(xs'[i]);
    }
    if i :| 0 <= i < |xs'| && OpenA(xs'[i]) && xs'[i].turf == t {
      assert OpenA(xs[i]);
    }
  }

  lemma AssignStaleStep(m: Tables, op: Op, t: Id)
    requires Valid(m) && op.AssignOp? && Attempt(m, op).Ok?
    ensures Stale(Next(m, op), t) <==> TakesCanvasser(m, op, t) || (Stale(m, t) && op.t != t)
  {
    var xs, c := m.assignments, op.canvasser.value.id;
    var xs' := Next(m, op).assignments;
    ReassignedRows(xs, op.t, c);
    if op.t == t {
      assert OpenA(xs'[|xs|]) && xs'[|xs|].turf == t;
    } else if t < |m.turfs| && m.turfs[t].status == Assigned {
      if i :| 0 <= i < |xs| && AssignedTo(t, c)(xs[i]) {
        forall k | 0 <= k < |xs'| && OpenA(xs'[k]) ensures xs'[k].turf != t {
          assert k < |xs| ==> OpenA(xs[k]);
        }
      } else {
        forall i | 0 <= i < |xs| && xs[i].turf == t ensures OpenA(xs'[i]) <==> OpenA(xs[i]) {
          assert !AssignedTo(t, c)(xs[i]);
        }
        SameOnTurf(xs, xs', t);
      }
    }
  }

  /** An open session has its assignment, so its turf is not stale. */
  lemma SessionIsNotStale(m: Tables, j: nat)
    requires Valid(m) && j < |m.sessions| && OpenS(m.sessions[j])
    ensures !Stale(m, m.sessions[j].turf)
  {
    assert Backed(m.assignments, m.sessions[j]);
  }

  lemma SessionStaleStep(m: Tables, op: Op, t: Id)
    requires Valid(m) && Attempt(m, op).Ok? && (op.StartOp? || op.PauseOp? || op.ResumeOp? || op.CompleteOp?)
    ensures Stale(Next(m, op), t) <==> Stale(m, t)
  {
    var m', row := Next(m, op), Attempt(m, op).value.row;
    if op.t != t {
      SameOnTurf(m.assignments, m'.assignments, t);
    } else if op.StartOp? || op.ResumeOp? {
      var i := FindFirst(m.assignments, AssignedTo(t, op.c)).value;
      assert OpenA(m.assignments[i]) && OpenA(m'.assignments[i]);
    } else {
      SessionIsNotStale(m, row);
    }
  }

  /** In every step: a turf comes to be stale only by a call that takes its canvasser, and then stays stale until it is
      assigned, reopened, archived or deleted. */
  lemma StaleStep(m: Tables, op: Op, t: Id)
    requires Valid(m)
    ensures Stale(Next(m, op), t) <==> TakesCanvasser(m, op, t) || (Stale(m, t) && !Resolves(m, op, t))
  {
    if Attempt(m, op).Ok? {
      if op.AssignOp? {
        AssignStaleStep(m, op, t);
      } else if op.StartOp? || op.PauseOp? || op.ResumeOp? || op.CompleteOp? {
        SessionStaleStep(m, op, t);
      } else if op.CreateTurfOp? || op.AddAddressOp? || op.t != t {
        SameOnTurf(m.assignments, Next(m, op).assignments, t);
      }
    }
  }

  /** The call at position k of a run takes the canvasser of the turf. */
  ghost predicate TakenAt(ops: seq<Op>, k: nat, t: Id)
    requires k < |ops|
  {
    TakesCanvasser(Run(ops[..k]), ops[k], t)
  }

  ghost predicate ResolvedAt(ops: seq<Op>, k: nat, t: Id)
    requires k < |ops|
  {
    Resolves(Run(ops[..k]), ops[k], t)
  }

  /** The call at position k takes the canvasser of the turf, and no later call assigns, reopens, archives or deletes
      the turf. */
  ghost predicate StaleSince(ops: seq<Op>, k: nat, t: Id) {
    k < |ops| && TakenAt(ops, k, t) && forall j :: k < j < |ops| ==> !ResolvedAt(ops, j, t)
  }

  lemma PrefixAgrees(ops: seq<Op>, k: nat, t: Id)
    requires k < |ops| - 1
    ensures TakenAt(ops[..|ops| - 1], k, t) <==> TakenAt(ops, k, t)
    ensures ResolvedAt(ops[..|ops| - 1], k, t) <==> ResolvedAt(ops, k, t)
  {
    assert ops[..|ops| - 1][..k] == ops[..k];
  }

  lemma StaleSinceStep(ops: seq<Op>, k: nat, t: Id)
    requires ops != []
    ensures var n := |ops| - 1;
            StaleSince(ops, k, t) <==>
              (k == n && TakenAt(ops, n, t)) || (StaleSince(ops[..n], k, t) && !ResolvedAt(ops, n, t))
  {
    var n := |ops| - 1;
    if k < n {
      forall j | k <= j < n ensures ResolvedAt(ops[..n], j, t) <==> ResolvedAt(ops, j, t) {
        PrefixAgrees(ops, j, t);
      }
      PrefixAgrees(ops, k, t);
    }
  }

  /** In every run a turf is `assigned` without an open assignment if and only if some call took its canvasser and no
      later call assigned, reopened, archived or deleted it. */
  lemma {:induction false} StaleInEveryRun(ops: seq<Op>, t: Id)
    ensures Stale(Run(ops), t) <==> exists k :: StaleSince(ops, k, t)
  {
    if ops != [] {
      var n := |ops| - 1;
      RunKeepsValid(ops[..n]);
      StaleStep(Run(ops[..n]), ops[n], t);
      StaleInEveryRun(ops[..n], t);
      LastCallDecides(ops, ops[..n], t);
    }
  }

  lemma LastCallDecides(ops: seq<Op>, before: seq<Op>, t: Id)
    requires ops != [] && before == ops[..|ops| - 1]
    requires Stale(Run(ops), t) <==>
               TakenAt(ops, |ops| - 1, t) || (Stale(Run(before), t) && !ResolvedAt(ops, |ops| - 1, t))
    requires Stale(Run(before), t) <==> exists k :: StaleSince(before, k, t)
    ensures Stale(Run(ops), t) <==> exists k :: StaleSince(ops, k, t)
  {
    var n := |ops| - 1;
    if Stale(Run(ops), t) {
      if TakenAt(ops, n, t) {
        StaleSinceStep(ops, n, t);
      } else {
        var k :| StaleSince(before, k, t);
        StaleSinceStep(ops, k, t);
      }
    }
    if k :| StaleSince(ops, k, t) {
      StaleSinceStep(ops, k, t);
    }
  }

  // ---------------------------------------------------------------- a run that leaves a turf stale

  const Walker := User(7, Canvasser, true, Some(0), None, None)
  const Office := Scope(Some(0), Admin, None, None, None)
  const PlainTurf := Turf(Unassigned, false, Some(0), None, None, None, None, false)

  /** Two turfs, assigned to the same canvasser one after the other. */
  const TwoAssignments := [
    CreateTurfOp(PlainTurf), CreateTurfOp(PlainTurf), AssignOp(0, Some(Walker), Office), AssignOp(1, Some(Walker), Office)]

  lemma RunOneMore(ops: seq<Op>, op: Op)
    ensures Run(ops + [op]) == Next(Run(ops), op)
  {
    assert (ops + [op])[..|ops|] == ops;
  }

  /** After them the first turf is `assigned` and has no open assignment. */
  lemma FirstTurfGoesStale()
    ensures Stale(Run(TwoAssignments), 0)
  {
    var ops := TwoAssignments;
    var created, both, first := ops[..1], ops[..2], ops[..3];
    RunOneMore([], ops[0]);
    RunOneMore(created, ops[1]);
    RunOneMore(both, ops[2]);
    RunOneMore(first, ops[3]);
    assert [] + [ops[0]] == created && created + [ops[1]] == both && both + [ops[2]] == first && first + [ops[3]] == ops;
    assert Run(both) == Empty.(turfs := [PlainTurf, PlainTurf]);
    AssignedIdle(Run(both), 0);
    var m := Run(first);
    AssignedIdle(m, 1);
    RunKeepsValid(first);
    assert AssignedTo(0, 7)(m.assignments[0]);
    AssignedGoesStale(m, 0, 1, Some(Walker), Office, Run(ops), 1);
  }

  /** While nobody works, a plain turf can be assigned. */
  lemma AssignedIdle(m: Tables, t: Id)
    requires m.sessions == [] && t < |m.turfs| && InScope(m.turfs[t], Office) && !m.turfs[t].deleted
    requires m.turfs[t].team == None && m.turfs[t].region == None
    ensures AssignTurf(m, t, Some(Walker), Office)
         == Ok(Done(m.(turfs := SetStatus(m.turfs, t, Assigned), assignments := Reassigned(m.assignments, t, 7)),
                    |m.assignments|))
  {
  }
}
