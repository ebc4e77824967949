/** Credentials as values: refresh tokens, one-time artefacts (reset tokens, activation tokens and MFA
    challenges), backup codes, impersonations and recovery cases, with the operations of the sign-in and of
    the recovery service, which share these tables. A row's key is its position: rows that retention deletes stay in
    place, marked as purged, and no lookup or update meets them again. */
module CredentialVault {
  import opened Common

  const ROTATION_GRACE_MS := 10_000

  datatype Reason = Logout | PasswordReset | ReuseDetected | Rotated | PrivilegedRecovery

  datatype Revocation = Revocation(at: int, reason: Reason)

  /** `origin` is history, kept for the properties: the token that the lineage began with. */
  datatype RefreshToken = RefreshToken(
    user: Id, secret: nat, expiresAt: int, revoked: Option<Revocation>, origin: Id, purged: bool)

  datatype Kind = Reset | Activation | SetupChallenge | VerifyChallenge

  datatype Artifact = Artifact(user: Id, kind: Kind, secret: nat, expiresAt: int, usedAt: Option<int>, purged: bool)

  datatype BackupCode = BackupCode(user: Id, code: nat, used: bool)

  datatype Impersonation = Impersonation(actor: Id, target: Id, ended: bool)

  datatype Role = Admin | Supervisor | Canvasser

  /** `usable` stands for an active flag that is set and a status that is active. */
  datatype User = User(
    role: Role, org: Option<Id>, usable: bool, deleted: bool,
    mfaEnabled: bool, mfaSecret: Option<nat>, mfaTempSecret: Option<nat>,
    failedLogins: nat, lockedUntil: Option<int>)

  /** The policy's threshold of failed logins, and how long a lock lasts. */
  datatype Lockout = Lockout(threshold: nat, lengthMs: nat)

  datatype RecoveryType = MfaReset | AccountRecovery | BreakGlass

  datatype CaseStatus = Pending | Executed | Rejected | ExpiredCase

  datatype Case = Case(
    org: Id, target: Id, requester: Id, kind: RecoveryType, status: CaseStatus, expiresAt: int,
    reviewer: Option<Id>, executedAt: Option<int>)

  datatype Vault = Vault(
    users: map<Id, User>, refresh: seq<RefreshToken>, artifacts: seq<Artifact>, codes: seq<BackupCode>,
    impersonations: seq<Impersonation>, cases: seq<Case>)

  datatype Error =
    | InvalidToken | InvalidCode | UserNotFound | NotAdmin | NotImpersonable | NotActiveAdmin | TooManyAttempts
    | OwnAccount | BreakGlassDisabled | NeedsBreakGlass | BadReason | CasePending | CaseNotFound | SameReviewer
    | NoWebhook | MfaNotEnabled | InvalidCredentials | AccountLocked

  /** What a call leaves behind, and the row it answers with or the error it raises. */
  datatype Reply = Reply(vault: Vault, answer: Result<Id, Error>)

  /** A secret drawn for a new token, and when it will expire. */
  datatype Draw = Draw(secret: nat, expiresAt: int)

  // ---------------------------------------------------------------- row conditions and updates

  function LiveTokenOf(u: Id): RefreshToken -> bool {
    (t: RefreshToken) => t.user == u && t.revoked.None? && !t.purged
  }

  function WithSecret(secret: nat): RefreshToken -> bool {
    (t: RefreshToken) => t.secret == secret && !t.purged
  }

  function Revoke(now: int, reason: Reason): RefreshToken -> RefreshToken {
    (t: RefreshToken) => t.(revoked := Some(Revocation(now, reason)))
  }

  function RevokeAll(refresh: seq<RefreshToken>, u: Id, now: int, reason: Reason): seq<RefreshToken> {
    UpdateWhere(refresh, LiveTokenOf(u), Revoke(now, reason))
  }

  /** Neither used nor deleted. */
  predicate Open(a: Artifact) {
    a.usedAt.None? && !a.purged
  }

  function UnusedOf(u: Id): Artifact -> bool {
    (a: Artifact) => a.user == u && Open(a)
  }

  function UnusedOfKind(u: Id, kind: Kind): Artifact -> bool {
    (a: Artifact) => a.user == u && a.kind == kind && Open(a)
  }

  function UnusedChallengeOf(u: Id): Artifact -> bool {
    (a: Artifact) => a.user == u && (a.kind == SetupChallenge || a.kind == VerifyChallenge) && Open(a)
  }

  function Redeemable(kind: Kind, secret: nat, now: int): Artifact -> bool {
    (a: Artifact) => a.kind == kind && a.secret == secret && Open(a) && a.expiresAt > now
  }

  function Use(now: int): Artifact -> Artifact {
    (a: Artifact) => a.(usedAt := Some(now))
  }

  function UseAt(artifacts: seq<Artifact>, i: nat, now: int): seq<Artifact>
    requires i < |artifacts|
  {
    artifacts[i := artifacts[i].(usedAt := Some(now))]
  }

  /** A new artefact of a kind, after using up the ones the user still has. */
  function Issue(artifacts: seq<Artifact>, u: Id, kind: Kind, draw: Draw, now: int): seq<Artifact> {
    UpdateWhere(artifacts, UnusedOfKind(u, kind), Use(now)) + [Artifact(u, kind, draw.secret, draw.expiresAt, None, false)]
  }

  function CodesOfOthers(u: Id): BackupCode -> bool {
    (c: BackupCode) => c.user != u
  }

  function UnusedCode(u: Id, code: nat): BackupCode -> bool {
    (c: BackupCode) => c.user == u && c.code == code && !c.used
  }

  function OpenBy(actor: Id): Impersonation -> bool {
    (s: Impersonation) => s.actor == actor && !s.ended
  }

  function OpenInvolving(u: Id): Impersonation -> bool {
    (s: Impersonation) => (s.actor == u || s.target == u) && !s.ended
  }

  function End(): Impersonation -> Impersonation {
    (s: Impersonation) => s.(ended := true)
  }

  predicate RequiresMfa(user: User) {
    user.role == Admin || user.role == Supervisor
  }

  // ---------------------------------------------------------------- the sign-in service

  /** A new session starts a new lineage. */
  function AddSession(refresh: seq<RefreshToken>, u: Id, draw: Draw): seq<RefreshToken> {
    refresh + [RefreshToken(u, draw.secret, draw.expiresAt, None, |refresh|, false)]
  }

  function IssueSession(v: Vault, u: Id, draw: Draw): Reply {
    Reply(v.(refresh := AddSession(v.refresh, u, draw)), Ok(|v.refresh|))
  }

  function IssueArtifact(v: Vault, u: Id, kind: Kind, draw: Draw, now: int): Reply {
    Reply(v.(artifacts := Issue(v.artifacts, u, kind, draw, now)), Ok(|v.artifacts|))
  }

  /** After the password was accepted: a challenge where MFA is required, a session otherwise. */
  function SignIn(v: Vault, u: Id, draw: Draw, now: int): Reply {
    if u !in v.users then Reply(v, Err(UserNotFound))
    else if RequiresMfa(v.users[u]) then
      IssueArtifact(v, u, if v.users[u].mfaEnabled then VerifyChallenge else SetupChallenge, draw, now)
    else IssueSession(v, u, draw)
  }

  /** A user that can be found and is in use, and not within the time of a lock. */
  function LoginRefusal(v: Vault, known: Option<Id>, now: int): Option<Error> {
    if known.None? || known.value !in v.users || !v.users[known.value].usable then Some(InvalidCredentials)
    else
      match v.users[known.value].lockedUntil
      case Some(until) => if until > now then Some(AccountLocked) else None
      case None => None
  }

  /** A wrong password counted; at the threshold the account is locked, which also takes it out of use. */
  function FailedLogin(user: User, lockout: Lockout, now: int): User {
    var locks := user.failedLogins + 1 >= lockout.threshold;
    user.(failedLogins := user.failedLogins + 1, usable := user.usable && !locks,
          lockedUntil := if locks then Some(now + lockout.lengthMs) else None)
  }

  function Reopened(user: User): User {
    user.(usable := true, failedLogins := 0, lockedUntil := None)
  }

  /** `known` is the user of the address given, `matches` whether the password is the user's, and `admitted` whether
      the limiter lets this attempt in. */
  function Login(v: Vault, known: Option<Id>, matches: bool, lockout: Lockout, admitted: bool, draw: Draw, now: int): Reply {
    var refusal := LoginRefusal(v, known, now);
    if !admitted then Reply(v, Err(TooManyAttempts))
    else if refusal.Some? then Reply(v, Err(refusal.value))
    else
      var u := known.value;
      if !matches then Reply(v.(users := v.users[u := FailedLogin(v.users[u], lockout, now)]), Err(InvalidCredentials))
      else SignIn(v.(users := v.users[u := Reopened(v.users[u])]), u, draw, now)
  }

  function InitializeMfa(v: Vault, secret: nat, mfaSecret: nat, now: int): Reply {
    match FindFirst(v.artifacts, Redeemable(SetupChallenge, secret, now))
    case None => Reply(v, Err(InvalidToken))
    case Some(i) =>
      var u := v.artifacts[i].user;
      if u !in v.users then Reply(v, Err(UserNotFound))
      else if v.users[u].mfaTempSecret.Some? then Reply(v, Ok(i))
      else Reply(v.(users := v.users[u := v.users[u].(mfaTempSecret := Some(mfaSecret))]), Ok(i))
  }

  function NewCodes(codes: seq<BackupCode>, u: Id, drawn: seq<nat>): seq<BackupCode> {
    Filter(codes, CodesOfOthers(u)) + seq(|drawn|, i requires 0 <= i < |drawn| => BackupCode(u, drawn[i], false))
  }

  /** A correct code turns the temporary secret into the user's secret, replaces the backup codes and signs in. */
  function CompleteMfaSetup(v: Vault, secret: nat, codeAccepted: bool, codes: seq<nat>, draw: Draw, now: int): Reply {
    match FindFirst(v.artifacts, Redeemable(SetupChallenge, secret, now))
    case None => Reply(v, Err(InvalidToken))
    case Some(i) =>
      var u := v.artifacts[i].user;
      if u !in v.users || v.users[u].mfaTempSecret.None? then Reply(v, Err(InvalidToken))
      else if !codeAccepted then Reply(v, Err(InvalidCode))
      else
        var user := v.users[u].(mfaSecret := v.users[u].mfaTempSecret, mfaTempSecret := None, mfaEnabled := true);
        IssueSession(v.(users := v.users[u := user], artifacts := UseAt(v.artifacts, i, now),
                        codes := NewCodes(v.codes, u, codes)), u, draw)
  }

  /** A correct code, or an unused backup code, answers the challenge and signs in. */
  function VerifyMfa(v: Vault, secret: nat, admitted: bool, codeAccepted: bool, code: nat, draw: Draw, now: int): Reply {
    match FindFirst(v.artifacts, Redeemable(VerifyChallenge, secret, now))
    case None => Reply(v, Err(InvalidToken))
    case Some(i) =>
      var u := v.artifacts[i].user;
      if u !in v.users || v.users[u].mfaSecret.None? then Reply(v, Err(InvalidToken))
      else if !admitted then Reply(v, Err(TooManyAttempts))
      else
        var spent := FindFirst(v.codes, UnusedCode(u, code));
        if !codeAccepted && spent.None? then Reply(v, Err(InvalidCode))
        else
          var codes := if codeAccepted then v.codes else v.codes[spent.value := v.codes[spent.value].(used := true)];
          IssueSession(v.(artifacts := UseAt(v.artifacts, i, now), codes := codes), u, draw)
  }

  function DisableMfa(v: Vault, u: Id, admitted: bool, accepted: bool, now: int): Reply {
    if u !in v.users then Reply(v, Err(UserNotFound))
    else if !v.users[u].mfaEnabled || v.users[u].mfaSecret.None? then Reply(v, Err(MfaNotEnabled))
    else if !admitted then Reply(v, Err(TooManyAttempts))
    else if !accepted then Reply(v, Err(InvalidCode))
    else
      Reply(v.(users := v.users[u := v.users[u].(mfaEnabled := false, mfaSecret := None, mfaTempSecret := None)],
               artifacts := UpdateWhere(v.artifacts, UnusedChallengeOf(u), Use(now)),
               codes := Filter(v.codes, CodesOfOthers(u))), Ok(u))
  }

  /** Revokes the presented token and continues its lineage with a new one. */
  function Rotate(refresh: seq<RefreshToken>, i: nat, draw: Draw, now: int): seq<RefreshToken>
    requires i < |refresh|
  {
    var t := refresh[i];
    refresh[i := t.(revoked := Some(Revocation(now, Rotated)))]
    + [RefreshToken(t.user, draw.secret, draw.expiresAt, None, t.origin, false)]
  }

  predicate ReplayedAfterGrace(t: RefreshToken, now: int) {
    t.revoked.Some? && t.revoked.value.reason == Rotated && now - t.revoked.value.at > ROTATION_GRACE_MS
  }

  function Refresh(v: Vault, secret: nat, draw: Draw, now: int): Reply {
    match FindFirst(v.refresh, WithSecret(secret))
    case None => Reply(v, Err(InvalidToken))
    case Some(i) =>
      var t := v.refresh[i];
      if ReplayedAfterGrace(t, now) then
        Reply(v.(refresh := RevokeAll(v.refresh, t.user, now, ReuseDetected)), Err(InvalidToken))
      else if t.revoked.Some? then Reply(v, Err(InvalidToken))
      else if t.expiresAt <= now || t.user !in v.users || !v.users[t.user].usable then Reply(v, Err(InvalidToken))
      else Reply(v.(refresh := Rotate(v.refresh, i, draw, now)), Ok(|v.refresh|))
  }

  function LiveWithSecret(secret: nat): RefreshToken -> bool {
    (t: RefreshToken) => t.secret == secret && t.revoked.None? && !t.purged
  }

  /** Always succeeds; the row is the revoked token, or zero when there is none. */
  function SignOut(v: Vault, secret: nat, now: int): Reply {
    match FindFirst(v.refresh, LiveWithSecret(secret))
    case None => Reply(v, Ok(0))
    case Some(i) =>
      Reply(v.(refresh := v.refresh[i := v.refresh[i].(revoked := Some(Revocation(now, Logout)))]), Ok(i))
  }

  /** An unknown address is answered like a known one. */
  function RequestReset(v: Vault, known: Option<Id>, admitted: bool, draw: Draw, now: int): Reply {
    if !admitted then Reply(v, Err(TooManyAttempts))
    else if known.None? then Reply(v, Ok(0))
    else IssueArtifact(v, known.value, Reset, draw, now)
  }

  function CompleteReset(v: Vault, secret: nat, now: int): Reply {
    match FindFirst(v.artifacts, Redeemable(Reset, secret, now))
    case None => Reply(v, Err(InvalidToken))
    case Some(i) =>
      var u := v.artifacts[i].user;
      if u !in v.users then Reply(v, Err(UserNotFound))
      else
        Reply(v.(users := v.users[u := Reopened(v.users[u])], artifacts := UseAt(v.artifacts, i, now),
                 refresh := RevokeAll(v.refresh, u, now, PasswordReset)), Ok(u))
  }

  function CreateActivation(v: Vault, u: Id, draw: Draw, now: int): Reply {
    if u !in v.users then Reply(v, Err(UserNotFound)) else IssueArtifact(v, u, Activation, draw, now)
  }

  function Activate(v: Vault, secret: nat, draw: Draw, now: int): Reply {
    match FindFirst(v.artifacts, Redeemable(Activation, secret, now))
    case None => Reply(v, Err(InvalidToken))
    case Some(i) =>
      var u := v.artifacts[i].user;
      if u !in v.users then Reply(v, Err(UserNotFound))
      else
        SignIn(v.(users := v.users[u := Reopened(v.users[u])], artifacts := UseAt(v.artifacts, i, now)), u, draw, now)
  }

  function StartImpersonation(v: Vault, actor: Id, target: Id): Reply {
    if actor !in v.users then Reply(v, Err(UserNotFound))
    else if v.users[actor].role != Admin then Reply(v, Err(NotAdmin))
    else if target !in v.users then Reply(v, Err(UserNotFound))
    else if v.users[target].role == Admin then Reply(v, Err(NotImpersonable))
    else if v.users[target].org != v.users[actor].org then Reply(v, Err(UserNotFound))
    else
      Reply(v.(impersonations := UpdateWhere(v.impersonations, OpenBy(actor), End()) + [Impersonation(actor, target, false)]),
            Ok(|v.impersonations|))
  }

  function StopImpersonation(v: Vault, actor: Id, session: Id): Reply {
    if session >= |v.impersonations| || !OpenBy(actor)(v.impersonations[session]) then Reply(v, Err(InvalidToken))
    else
      Reply(v.(impersonations := v.impersonations[session := v.impersonations[session].(ended := true)]), Ok(session))
  }

  // ---------------------------------------------------------------- the recovery service

  datatype RecoveryConfig = RecoveryConfig(webhook: bool, breakGlassEnabled: bool, caseTtlMs: nat)

  /** Recovery asks for an active, undeleted administrator of an organisation. */
  function Actor(v: Vault, actor: Id): Option<Id> {
    if actor in v.users && v.users[actor].role == Admin && v.users[actor].usable && !v.users[actor].deleted then
      v.users[actor].org
    else None
  }

  predicate GoodReason(reason: string) {
    10 <= |reason| <= 1000
  }

  predicate LivePending(c: Case, now: int) {
    c.status == Pending && c.expiresAt > now
  }

  function LivePendingOn(target: Id, now: int): Case -> bool {
    (c: Case) => c.target == target && LivePending(c, now)
  }

  /** `admitted` says whether the limiter lets this attempt in. */
  function RequestRecovery(v: Vault, config: RecoveryConfig, actor: Id, target: Id, kind: RecoveryType, reason: string,
                           admitted: bool, now: int): Reply
  {
    var org := Actor(v, actor);
    if org.None? then Reply(v, Err(NotActiveAdmin))
    else if !admitted then Reply(v, Err(TooManyAttempts))
    else if actor == target then Reply(v, Err(OwnAccount))
    else if target !in v.users || v.users[target].org != org || v.users[target].deleted then Reply(v, Err(UserNotFound))
    else if kind == BreakGlass && !config.breakGlassEnabled then Reply(v, Err(BreakGlassDisabled))
    else if kind != BreakGlass && v.users[target].role == Admin then Reply(v, Err(NeedsBreakGlass))
    else if !GoodReason(reason) then Reply(v, Err(BadReason))
    else if FindFirst(v.cases, LivePendingOn(target, now)).Some? then Reply(v, Err(CasePending))
    else
      var added := Case(org.value, target, actor, kind, Pending, now + config.caseTtlMs, None, None);
      Reply(v.(cases := v.cases + [added]), Ok(|v.cases|))
  }

  predicate FindsPending(v: Vault, org: Id, c: Id) {
    c < |v.cases| && v.cases[c].org == org && v.cases[c].status == Pending
  }

  function RejectRecovery(v: Vault, actor: Id, c: Id, reason: string): Reply {
    var org := Actor(v, actor);
    if org.None? then Reply(v, Err(NotActiveAdmin))
    else if !GoodReason(reason) then Reply(v, Err(BadReason))
    else if !FindsPending(v, org.value, c) then Reply(v, Err(CaseNotFound))
    else Reply(v.(cases := v.cases[c := v.cases[c].(status := Rejected, reviewer := Some(actor))]), Ok(c))
  }

  /** Everything an approval checks before the limiter is asked. */
  function FindApprovable(v: Vault, actor: Id, c: Id, reason: string, now: int): Option<Error> {
    var org := Actor(v, actor);
    if org.None? then Some(NotActiveAdmin)
    else if !GoodReason(reason) then Some(BadReason)
    else if !FindsPending(v, org.value, c) || v.cases[c].expiresAt <= now then Some(CaseNotFound)
    else None
  }

  /** Everything of the target that an approval revokes. */
  function Wiped(v: Vault, u: Id, now: int): Vault
    requires u in v.users
  {
    v.(users := v.users[u := v.users[u].(mfaEnabled := false, mfaSecret := None, mfaTempSecret := None,
                                         failedLogins := 0, lockedUntil := None)],
       refresh := RevokeAll(v.refresh, u, now, PrivilegedRecovery),
       artifacts := UpdateWhere(v.artifacts, UnusedOf(u), Use(now)),
       codes := Filter(v.codes, CodesOfOthers(u)),
       impersonations := UpdateWhere(v.impersonations, OpenInvolving(u), End()))
  }

  function ApproveRecovery(v: Vault, config: RecoveryConfig, actor: Id, c: Id, reason: string, admitted: bool,
                           draw: Draw, now: int): Reply
  {
    var refusal := FindApprovable(v, actor, c, reason, now);
    if refusal.Some? then Reply(v, Err(refusal.value))
    else if !admitted then Reply(v, Err(TooManyAttempts))
    else
      var recovery := v.cases[c];
      var u := recovery.target;
      if recovery.requester == actor then Reply(v, Err(SameReviewer))
      else if u == actor then Reply(v, Err(OwnAccount))
      else if u !in v.users then Reply(v, Err(UserNotFound))
      else if recovery.kind != MfaReset && !config.webhook then Reply(v, Err(NoWebhook))
      else
        var wiped := Wiped(v, u, now);
        var artifacts := if recovery.kind == MfaReset then wiped.artifacts
                         else wiped.artifacts + [Artifact(u, Reset, draw.secret, draw.expiresAt, None, false)];
        var executed := recovery.(status := Executed, reviewer := Some(actor), executedAt := Some(now));
        Reply(wiped.(artifacts := artifacts, cases := wiped.cases[c := executed]), Ok(c))
  }

  function StaleOf(org: Id, now: int): Case -> bool {
    (c: Case) => c.org == org && c.status == Pending && c.expiresAt <= now
  }

  function Expire(): Case -> Case {
    (c: Case) => c.(status := ExpiredCase)
  }

  function ExpireStale(v: Vault, org: Id, now: int): Reply {
    Reply(v.(cases := UpdateWhere(v.cases, StaleOf(org, now), Expire())), Ok(org))
  }

  // ---------------------------------------------------------------- what retention deletes

  predicate DueToken(t: RefreshToken, now: int) {
    t.expiresAt <= now || t.revoked.Some?
  }

  predicate DueArtifact(a: Artifact, now: int) {
    a.expiresAt <= now || a.usedAt.Some?
  }

  function PurgeTokens(refresh: seq<RefreshToken>, chosen: set<Id>, now: int): (r: seq<RefreshToken>)
    ensures |r| == |refresh|
    ensures forall i {:trigger r[i]} :: 0 <= i < |refresh| ==>
              r[i] == if i in chosen && DueToken(refresh[i], now) then refresh[i].(purged := true) else refresh[i]
  {
    seq(|refresh|, i requires 0 <= i < |refresh| =>
      if i in chosen && DueToken(refresh[i], now) then refresh[i].(purged := true) else refresh[i])
  }

  function PurgeArtifacts(artifacts: seq<Artifact>, chosen: set<Id>, now: int): (r: seq<Artifact>)
    ensures |r| == |artifacts|
    ensures forall i {:trigger r[i]} :: 0 <= i < |artifacts| ==>
              r[i] == if i in chosen && DueArtifact(artifacts[i], now) then artifacts[i].(purged := true) else artifacts[i]
  {
    seq(|artifacts|, i requires 0 <= i < |artifacts| =>
      if i in chosen && DueArtifact(artifacts[i], now) then artifacts[i].(purged := true) else artifacts[i])
  }

  function NotPurged(chosen: set<BackupCode>): BackupCode -> bool {
    (c: BackupCode) => !(c.used && c in chosen)
  }

  /** A cleanup deletes chosen rows, of those that have expired, were revoked or were used. */
  function Purge(v: Vault, tokens: set<Id>, artifacts: set<Id>, codes: set<BackupCode>, now: int): Reply {
    Reply(v.(refresh := PurgeTokens(v.refresh, tokens, now), artifacts := PurgeArtifacts(v.artifacts, artifacts, now),
             codes := Filter(v.codes, NotPurged(codes))), Ok(0))
  }
}
