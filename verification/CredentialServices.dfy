/** The sign-in and the recovery service as objects that change one shared database in place. */
module CredentialServices {
  import opened Common
  import opened CredentialVault
  import opened CredentialProperties
  import opened RateLimit

  /** The tables that both services write. */
  class Database {
    var users: map<Id, User>
    var refresh: seq<RefreshToken>
    var artifacts: seq<Artifact>
    var codes: seq<BackupCode>
    var impersonations: seq<Impersonation>
    var cases: seq<Case>

    function State(): Vault
      reads this
    {
      Vault(users, refresh, artifacts, codes, impersonations, cases)
    }

    constructor ()
      ensures State() == Empty
    {
      users, refresh, artifacts, codes, impersonations, cases := map[], [], [], [], [], [];
    }

    method RevokeSessions(u: Id, now: int, reason: Reason)
      modifies this`refresh
      ensures refresh == RevokeAll(old(refresh), u, now, reason)
    {
      refresh := UpdateWhere(refresh, LiveTokenOf(u), Revoke(now, reason));
    }

    /** Uses up what the user still has of a kind, then creates a new one. */
    method CreateArtifact(u: Id, kind: Kind, draw: Draw, now: int) returns (id: Id)
      modifies this`artifacts
      ensures artifacts == Issue(old(artifacts), u, kind, draw, now) && id == |old(artifacts)|
    {
      artifacts := UpdateWhere(artifacts, UnusedOfKind(u, kind), Use(now));
      artifacts := artifacts + [Artifact(u, kind, draw.secret, draw.expiresAt, None, false)];
      return |artifacts| - 1;
    }

    method CreateSession(u: Id, draw: Draw) returns (id: Id)
      modifies this`refresh
      ensures refresh == AddSession(old(refresh), u, draw) && id == |old(refresh)|
    {
      refresh := refresh + [RefreshToken(u, draw.secret, draw.expiresAt, None, |refresh|, false)];
      return |refresh| - 1;
    }

    method UseArtifact(i: Id, now: int)
      requires i < |artifacts|
      modifies this`artifacts
      ensures artifacts == UseAt(old(artifacts), i, now)
    {
      artifacts := artifacts[i := artifacts[i].(usedAt := Some(now))];
    }
  }

  /** What a call leaves behind and answers. */
  predicate Answers(before: Vault, op: Op, now: int, after: Vault, r: Result<Id, Error>) {
    Reply(after, r) == Serve(before, op, now)
  }

  /** The sign-in limiter counts logins and reset requests per address, and MFA attempts per user. */
  datatype AuthKey = LoginKey(address: string) | ResetKey(address: string) | VerifyKey(u: Id) | DisableKey(u: Id)

  class AuthService {
    const db: Database
    const limiter: RateLimiter<AuthKey>

    constructor (db: Database, limiter: RateLimiter<AuthKey>)
      ensures this.db == db && this.limiter == limiter
    {
      this.db, this.limiter := db, limiter;
    }

    /** The limiter would let an attempt on the key in. */
    predicate Admitted(key: AuthKey, now: int)
      reads this, limiter
    {
      Admits(Lookup(limiter.windows, key), now, limiter.limits)
    }

    /** The limiter's windows after an attempt on the key, which an accepted one clears. */
    function Knocked(key: AuthKey, now: int, accepted: bool): map<AuthKey, Window>
      reads this, limiter
    {
      if accepted then limiter.windows - {key}
      else limiter.windows[key := Attempted(Lookup(limiter.windows, key), now, limiter.limits)]
    }

    /** Limiter, account checks and password, and then a challenge or a session. */
    method LogIn(address: string, known: Option<Id>, matches: bool, lockout: Lockout, draw: Draw, now: int)
      returns (r: Result<Id, Error>)
      modifies db, limiter
      ensures Answers(old(db.State()), LoginOp(known, matches, lockout, old(Admitted(LoginKey(address), now)), draw), now,
                      db.State(), r)
      ensures limiter.windows == old(Knocked(LoginKey(address), now, r.Ok?))
    {
      var admitted := limiter.Attempt(LoginKey(address), now);
      if !admitted {
        return Err(TooManyAttempts);
      }
      if known.None? || known.value !in db.users || !db.users[known.value].usable {
        return Err(InvalidCredentials);
      }
      var u := known.value;
      var user := db.users[u];
      if user.lockedUntil.Some? && user.lockedUntil.value > now {
        return Err(AccountLocked);
      }
      if !matches {
        var failed := user.failedLogins + 1;
        var lockedUntil := if failed >= lockout.threshold then Some(now + lockout.lengthMs) else None;
        db.users := db.users[u := user.(failedLogins := failed, lockedUntil := lockedUntil,
                                        usable := if lockedUntil.Some? then false else user.usable)];
        return Err(InvalidCredentials);
      }
      if user.failedLogins > 0 || user.lockedUntil.Some? {
        db.users := db.users[u := user.(failedLogins := 0, lockedUntil := None)];
      }
      assert db.users == old(db.users)[u := Reopened(user)];
      limiter.Clear(LoginKey(address));
      r := SignInUser(u, draw, now);
    }

    method SignInUser(u: Id, draw: Draw, now: int) returns (r: Result<Id, Error>)
      modifies db
      ensures Reply(db.State(), r) == SignIn(old(db.State()), u, draw, now)
    {
      if u !in db.users {
        return Err(UserNotFound);
      }
      var id;
      if RequiresMfa(db.users[u]) {
        var setupRequired := !db.users[u].mfaEnabled;
        id := db.CreateArtifact(u, if setupRequired then SetupChallenge else VerifyChallenge, draw, now);
      } else {
        id := db.CreateSession(u, draw);
      }
      return Ok(id);
    }

    method RefreshSession(secret: nat, draw: Draw, now: int) returns (r: Result<Id, Error>)
      modifies db
      ensures Answers(old(db.State()), RefreshOp(secret, draw), now, db.State(), r)
    {
      var stored := FindFirst(db.refresh, WithSecret(secret));
      if stored.None? {
        return Err(InvalidToken);
      }
      var i := stored.value;
      var t := db.refresh[i];
      if ReplayedAfterGrace(t, now) {
        db.RevokeSessions(t.user, now, ReuseDetected);
        return Err(InvalidToken);
      }
      if t.revoked.Some? {
        return Err(InvalidToken);
      }
      if t.expiresAt <= now || t.user !in db.users || !db.users[t.user].usable {
        return Err(InvalidToken);
      }
      db.refresh := db.refresh[i := t.(revoked := Some(Revocation(now, Rotated)))];
      db.refresh := db.refresh + [RefreshToken(t.user, draw.secret, draw.expiresAt, None, t.origin, false)];
      return Ok(|db.refresh| - 1);
    }

    method SignOutSession(secret: nat, now: int) returns (r: Result<Id, Error>)
      modifies db
      ensures Answers(old(db.State()), SignOutOp(secret), now, db.State(), r)
    {
      var stored := FindFirst(db.refresh, LiveWithSecret(secret));
      if stored.None? {
        return Ok(0);
      }
      var i := stored.value;
      db.refresh := db.refresh[i := db.refresh[i].(revoked := Some(Revocation(now, Logout)))];
      return Ok(i);
    }

    method RequestPasswordReset(address: string, known: Option<Id>, draw: Draw, now: int) returns (r: Result<Id, Error>)
      modifies db, limiter
      ensures Answers(old(db.State()), RequestResetOp(known, old(Admitted(ResetKey(address), now)), draw), now, db.State(), r)
      ensures limiter.windows == old(Knocked(ResetKey(address), now, false))
    {
      var admitted := limiter.Attempt(ResetKey(address), now);
      if !admitted {
        return Err(TooManyAttempts);
      }
      if known.None? {
        return Ok(0);
      }
      var id := db.CreateArtifact(known.value, Reset, draw, now);
      return Ok(id);
    }

    method CompletePasswordReset(secret: nat, now: int) returns (r: Result<Id, Error>)
      modifies db
      ensures Answers(old(db.State()), CompleteResetOp(secret), now, db.State(), r)
    {
      var stored := FindFirst(db.artifacts, Redeemable(Reset, secret, now));
      if stored.None? {
        return Err(InvalidToken);
      }
      var u := db.artifacts[stored.value].user;
      if u !in db.users {
        return Err(UserNotFound);
      }
      db.users := db.users[u := db.users[u].(usable := true, failedLogins := 0, lockedUntil := None)];
      db.UseArtifact(stored.value, now);
      db.RevokeSessions(u, now, PasswordReset);
      return Ok(u);
    }

    method CreateActivationForUser(u: Id, draw: Draw, now: int) returns (r: Result<Id, Error>)
      modifies db
      ensures Answers(old(db.State()), CreateActivationOp(u, draw), now, db.State(), r)
    {
      if u !in db.users {
        return Err(UserNotFound);
      }
      var id := db.CreateArtifact(u, Activation, draw, now);
      return Ok(id);
    }

    method ActivateAccount(secret: nat, draw: Draw, now: int) returns (r: Result<Id, Error>)
      modifies db
      ensures Answers(old(db.State()), ActivateOp(secret, draw), now, db.State(), r)
    {
      var stored := FindFirst(db.artifacts, Redeemable(Activation, secret, now));
      if stored.None? {
        return Err(InvalidToken);
      }
      var u := db.artifacts[stored.value].user;
      if u !in db.users {
        return Err(UserNotFound);
      }
      db.users := db.users[u := db.users[u].(usable := true, failedLogins := 0, lockedUntil := None)];
      db.UseArtifact(stored.value, now);
      r := SignInUser(u, draw, now);
    }

    method InitializeMfaSetup(secret: nat, mfaSecret: nat, now: int) returns (r: Result<Id, Error>)
      modifies db
      ensures Answers(old(db.State()), InitializeMfaOp(secret, mfaSecret), now, db.State(), r)
    {
      var challenge := FindFirst(db.artifacts, Redeemable(SetupChallenge, secret, now));
      if challenge.None? {
        return Err(InvalidToken);
      }
      var u := db.artifacts[challenge.value].user;
      if u !in db.users {
        return Err(UserNotFound);
      }
      if db.users[u].mfaTempSecret.None? {
        db.users := db.users[u := db.users[u].(mfaTempSecret := Some(mfaSecret))];
      }
      return Ok(challenge.value);
    }

    method FinishMfaSetup(secret: nat, accepted: bool, codes: seq<nat>, draw: Draw, now: int) returns (r: Result<Id, Error>)
      modifies db
      ensures Answers(old(db.State()), CompleteMfaSetupOp(secret, accepted, codes, draw), now, db.State(), r)
    {
      var challenge := FindFirst(db.artifacts, Redeemable(SetupChallenge, secret, now));
      if challenge.None? {
        return Err(InvalidToken);
      }
      var u := db.artifacts[challenge.value].user;
      if u !in db.users || db.users[u].mfaTempSecret.None? {
        return Err(InvalidToken);
      }
      if !accepted {
        return Err(InvalidCode);
      }
      var user := db.users[u];
      db.users := db.users[u := user.(mfaSecret := user.mfaTempSecret, mfaTempSecret := None, mfaEnabled := true)];
      db.UseArtifact(challenge.value, now);
      db.codes := Filter(db.codes, CodesOfOthers(u));
      db.codes := db.codes + seq(|codes|, i requires 0 <= i < |codes| => BackupCode(u, codes[i], false));
      assert db.codes == NewCodes(old(db.codes), u, codes);
      var id := db.CreateSession(u, draw);
      return Ok(id);
    }

    method VerifyMfaChallenge(secret: nat, accepted: bool, code: nat, draw: Draw, now: int) returns (r: Result<Id, Error>)
      modifies db, limiter
      ensures var u := Challenged(old(db.State()), secret, now);
              && Answers(old(db.State()), VerifyMfaOp(secret, u.Some? && old(Admitted(VerifyKey(u.value), now)), accepted,
                                                      code, draw), now, db.State(), r)
              && limiter.windows == if u.None? then old(limiter.windows) else old(Knocked(VerifyKey(u.value), now, r.Ok?))
    {
      var challenge := FindFirst(db.artifacts, Redeemable(VerifyChallenge, secret, now));
      if challenge.None? {
        return Err(InvalidToken);
      }
      var u := db.artifacts[challenge.value].user;
      if u !in db.users || db.users[u].mfaSecret.None? {
        return Err(InvalidToken);
      }
      var admitted := limiter.Attempt(VerifyKey(u), now);
      if !admitted {
        return Err(TooManyAttempts);
      }
      if !accepted {
        var stored := FindFirst(db.codes, UnusedCode(u, code));
        if stored.None? {
          return Err(InvalidCode);
        }
        db.codes := db.codes[stored.value := db.codes[stored.value].(used := true)];
      }
      limiter.Clear(VerifyKey(u));
      db.UseArtifact(challenge.value, now);
      var id := db.CreateSession(u, draw);
      return Ok(id);
    }

    method TurnOffMfa(u: Id, accepted: bool, now: int) returns (r: Result<Id, Error>)
      modifies db, limiter
      ensures Answers(old(db.State()), DisableMfaOp(u, old(Admitted(DisableKey(u), now)), accepted), now, db.State(), r)
      ensures limiter.windows == if HasMfa(old(db.State()), u) then old(Knocked(DisableKey(u), now, r.Ok?))
                                 else old(limiter.windows)
    {
      if u !in db.users {
        return Err(UserNotFound);
      }
      if !db.users[u].mfaEnabled || db.users[u].mfaSecret.None? {
        return Err(MfaNotEnabled);
      }
      var admitted := limiter.Attempt(DisableKey(u), now);
      if !admitted {
        return Err(TooManyAttempts);
      }
      if !accepted {
        return Err(InvalidCode);
      }
      limiter.Clear(DisableKey(u));
      db.users := db.users[u := db.users[u].(mfaEnabled := false, mfaSecret := None, mfaTempSecret := None)];
      db.artifacts := UpdateWhere(db.artifacts, UnusedChallengeOf(u), Use(now));
      db.codes := Filter(db.codes, CodesOfOthers(u));
      return Ok(u);
    }

    method Impersonate(actor: Id, target: Id, now: int) returns (r: Result<Id, Error>)
      modifies db
      ensures Answers(old(db.State()), StartImpersonationOp(actor, target), now, db.State(), r)
    {
      if actor !in db.users {
        return Err(UserNotFound);
      }
      if db.users[actor].role != Admin {
        return Err(NotAdmin);
      }
      if target !in db.users {
        return Err(UserNotFound);
      }
      if db.users[target].role == Admin {
        return Err(NotImpersonable);
      }
      if db.users[target].org != db.users[actor].org {
        return Err(UserNotFound);
      }
      db.impersonations := UpdateWhere(db.impersonations, OpenBy(actor), End());
      db.impersonations := db.impersonations + [Impersonation(actor, target, false)];
      return Ok(|db.impersonations| - 1);
    }

    method EndImpersonation(actor: Id, session: Id, now: int) returns (r: Result<Id, Error>)
      modifies db
      ensures Answers(old(db.State()), StopImpersonationOp(actor, session), now, db.State(), r)
    {
      if session >= |db.impersonations| || !OpenBy(actor)(db.impersonations[session]) {
        return Err(InvalidToken);
      }
      db.impersonations := db.impersonations[session := db.impersonations[session].(ended := true)];
      return Ok(session);
    }
  }

  /** The user whose challenge is answered. */
  function Challenged(v: Vault, secret: nat, now: int): Option<Id> {
    match FindFirst(v.artifacts, Redeemable(VerifyChallenge, secret, now))
    case None => None
    case Some(i) =>
      var u := v.artifacts[i].user;
      if u in v.users && v.users[u].mfaSecret.Some? then Some(u) else None
  }

  predicate HasMfa(v: Vault, u: Id) {
    u in v.users && v.users[u].mfaEnabled && v.users[u].mfaSecret.Some?
  }

  /** The recovery limiter counts requests and approvals apart, per administrator and target. */
  datatype AttemptKey = RequestKey(actor: Id, target: Id) | ApproveKey(actor: Id, target: Id)

  class RecoveryService {
    const db: Database
    const config: RecoveryConfig
    const limiter: RateLimiter<AttemptKey>

    constructor (db: Database, config: RecoveryConfig, limiter: RateLimiter<AttemptKey>)
      ensures this.db == db && this.config == config && this.limiter == limiter
    {
      this.db, this.config, this.limiter := db, config, limiter;
    }

    method RequestCase(actor: Id, target: Id, kind: RecoveryType, reason: string, now: int) returns (r: Result<Id, Error>)
      modifies db, limiter
      ensures var admitted := Admits(Lookup(old(limiter.windows), RequestKey(actor, target)), now, limiter.limits);
              Answers(old(db.State()), RequestRecoveryOp(config, actor, target, kind, reason, admitted), now, db.State(), r)
      ensures limiter.windows ==
              if Actor(old(db.State()), actor).None? then old(limiter.windows)
              else old(limiter.windows)[RequestKey(actor, target) :=
                     Attempted(Lookup(old(limiter.windows), RequestKey(actor, target)), now, limiter.limits)]
    {
      var org := Actor(db.State(), actor);
      if org.None? {
        return Err(NotActiveAdmin);
      }
      var admitted := limiter.Attempt(RequestKey(actor, target), now);
      if !admitted {
        return Err(TooManyAttempts);
      }
      if actor == target {
        return Err(OwnAccount);
      }
      if target !in db.users || db.users[target].org != org || db.users[target].deleted {
        return Err(UserNotFound);
      }
      if kind == BreakGlass {
        if !config.breakGlassEnabled {
          return Err(BreakGlassDisabled);
        }
      } else if db.users[target].role == Admin {
        return Err(NeedsBreakGlass);
      }
      if !GoodReason(reason) {
        return Err(BadReason);
      }
      var existing := FindFirst(db.cases, LivePendingOn(target, now));
      if existing.Some? {
        return Err(CasePending);
      }
      db.cases := db.cases + [Case(org.value, target, actor, kind, Pending, now + config.caseTtlMs, None, None)];
      return Ok(|db.cases| - 1);
    }

    method RejectCase(actor: Id, c: Id, reason: string, now: int) returns (r: Result<Id, Error>)
      modifies db
      ensures Answers(old(db.State()), RejectRecoveryOp(actor, c, reason), now, db.State(), r)
    {
      var org := Actor(db.State(), actor);
      if org.None? {
        return Err(NotActiveAdmin);
      }
      if !GoodReason(reason) {
        return Err(BadReason);
      }
      if !FindsPending(db.State(), org.value, c) {
        return Err(CaseNotFound);
      }
      db.cases := db.cases[c := db.cases[c].(status := Rejected, reviewer := Some(actor))];
      return Ok(c);
    }

    method ApproveCase(actor: Id, c: Id, reason: string, draw: Draw, now: int) returns (r: Result<Id, Error>)
      modifies db, limiter
      ensures FindApprovable(old(db.State()), actor, c, reason, now).None? ==>
              var key := ApproveKey(actor, old(db.cases)[c].target);
              && Answers(old(db.State()), ApproveRecoveryOp(config, actor, c, reason,
                           Admits(Lookup(old(limiter.windows), key), now, limiter.limits), draw), now, db.State(), r)
              && limiter.windows == old(limiter.windows)[key := Attempted(Lookup(old(limiter.windows), key), now, limiter.limits)]
      ensures FindApprovable(old(db.State()), actor, c, reason, now).Some? ==>
              && db.State() == old(db.State()) && limiter.windows == old(limiter.windows)
              && r == Err(FindApprovable(old(db.State()), actor, c, reason, now).value)
    {
      var refusal := FindApprovable(db.State(), actor, c, reason, now);
      if refusal.Some? {
        return Err(refusal.value);
      }
      var recovery := db.cases[c];
      var u := recovery.target;
      var admitted := limiter.Attempt(ApproveKey(actor, u), now);
      if !admitted {
        return Err(TooManyAttempts);
      }
      if recovery.requester == actor {
        return Err(SameReviewer);
      }
      if u == actor {
        return Err(OwnAccount);
      }
      if u !in db.users {
        return Err(UserNotFound);
      }
      var needsPasswordReset := recovery.kind != MfaReset;
      if needsPasswordReset && !config.webhook {
        return Err(NoWebhook);
      }
      Wipe(u, now);
      if needsPasswordReset {
        db.artifacts := db.artifacts + [Artifact(u, Reset, draw.secret, draw.expiresAt, None, false)];
      }
      db.cases := db.cases[c := recovery.(status := Executed, reviewer := Some(actor), executedAt := Some(now))];
      return Ok(c);
    }

    method Wipe(u: Id, now: int)
      requires u in db.users
      modifies db
      ensures db.State() == Wiped(old(db.State()), u, now)
    {
      db.users := db.users[u := db.users[u].(mfaEnabled := false, mfaSecret := None, mfaTempSecret := None,
                                             failedLogins := 0, lockedUntil := None)];
      db.RevokeSessions(u, now, PrivilegedRecovery);
      db.artifacts := UpdateWhere(db.artifacts, UnusedOf(u), Use(now));
      db.codes := Filter(db.codes, CodesOfOthers(u));
      db.impersonations := UpdateWhere(db.impersonations, OpenInvolving(u), End());
    }

    /** Settles the stale cases of an organisation one by one. */
    method ExpireStaleCases(org: Id, now: int)
      modifies db
      ensures db.State() == Serve(old(db.State()), ExpireStaleOp(org), now).vault
    {
      var i := 0;
      while i < |db.cases|
        invariant 0 <= i <= |db.cases| == |old(db.cases)|
        invariant forall k :: 0 <= k < |db.cases| ==>
                    db.cases[k] == if k < i && StaleOf(org, now)(old(db.cases)[k]) then Expire()(old(db.cases)[k])
                                   else old(db.cases)[k]
        invariant db.State() == old(db.State()).(cases := db.cases)
      {
        if StaleOf(org, now)(db.cases[i]) {
          db.cases := db.cases[i := db.cases[i].(status := ExpiredCase)];
        }
        i := i + 1;
      }
      assert db.cases == UpdateWhere(old(db.cases), StaleOf(org, now), Expire());
    }
  }
}
