/** What each accepted call on the credentials writes, field by field, and exactly when one is accepted. */
module CredentialEffects {
  import opened Common
  import opened CredentialVault
  import opened CredentialProperties

  // ---------------------------------------------------------------- refresh tokens

  /** The token can be presented: it is neither revoked nor deleted nor expired, and its user is in use. */
  predicate Presentable(v: Vault, t: RefreshToken, now: int) {
    t.revoked.None? && !t.purged && now < t.expiresAt && t.user in v.users && v.users[t.user].usable
  }

  /** A single row of the table bears the secret. */
  ghost predicate OnlyToken(r: seq<RefreshToken>, secret: nat, i: nat) {
    i < |r| && r[i].secret == secret && forall k :: 0 <= k < |r| && k != i ==> r[k].secret != secret
  }

  ghost predicate Undrawn(r: seq<RefreshToken>, secret: nat) {
    forall k :: 0 <= k < |r| ==> r[k].secret != secret
  }

  /** The token was rotated more than ten seconds ago, and is still there to tell. */
  predicate RotatedLongAgo(t: RefreshToken, now: int) {
    t.revoked.Some? && t.revoked.value.reason == Rotated && now - t.revoked.value.at > 10_000 && !t.purged
  }

  /** The live tokens of a user are revoked, and no other token changes. */
  ghost predicate AllRevoked(r: seq<RefreshToken>, r': seq<RefreshToken>, u: Id, now: int, reason: Reason) {
    && |r'| == |r|
    && forall k :: 0 <= k < |r| ==>
         r'[k] == if r[k].user == u && r[k].revoked.None? && !r[k].purged
                  then r[k].(revoked := Some(Revocation(now, reason))) else r[k]
  }

  /** A refresh is accepted exactly for a token that can be presented; it revokes that token as rotated and adds one with
      the secret and the expiry drawn, of the same user and lineage. A refused one revokes all tokens of the user if the
      token presented was rotated more than ten seconds ago, and changes nothing otherwise. */
  lemma {:induction false} RefreshWrites(v: Vault, i: nat, secret: nat, draw: Draw, now: int)
    requires OnlyToken(v.refresh, secret, i)
    ensures var reply, t := Refresh(v, secret, draw, now), v.refresh[i];
            && (reply.answer.Ok? <==> Presentable(v, t, now))
            && (reply.answer.Ok? ==>
                  && reply.answer.value == |v.refresh|
                  && reply.vault == v.(refresh :=
                       v.refresh[i := t.(revoked := Some(Revocation(now, Rotated)))]
                       + [RefreshToken(t.user, draw.secret, draw.expiresAt, None, t.origin, false)]))
            && (reply.answer.Err? ==>
                  if RotatedLongAgo(t, now) then
                    && AllRevoked(v.refresh, reply.vault.refresh, t.user, now, ReuseDetected)
                    && reply.vault == v.(refresh := reply.vault.refresh)
                  else reply.vault == v)
  {
    if !v.refresh[i].purged {
      assert WithSecret(secret)(v.refresh[i]);
    }
  }

  /** The token handed out works: presenting the drawn secret later succeeds exactly while it has not expired and its
      user is in use. */
  lemma {:induction false} RotatedTokenWorks(v: Vault, i: nat, secret: nat, draw: Draw, now: int, next: Draw, later: int)
    requires OnlyToken(v.refresh, secret, i) && Undrawn(v.refresh, draw.secret)
    requires Refresh(v, secret, draw, now).answer.Ok?
    ensures var v' := Refresh(v, secret, draw, now).vault;
            && OnlyToken(v'.refresh, draw.secret, |v.refresh|)
            && (Refresh(v', draw.secret, next, later).answer.Ok? <==>
                  later < draw.expiresAt && v.users[v.refresh[i].user].usable)
  {
    RefreshWrites(v, i, secret, draw, now);
    RefreshWrites(Refresh(v, secret, draw, now).vault, |v.refresh|, draw.secret, next, later);
  }

  /** One refresh of a chain: what is drawn, and when. */
  datatype Turn = Turn(draw: Draw, now: int)

  /** The secret to present after the turns: the one drawn last. */
  function LastDrawn(secret: nat, turns: seq<Turn>): nat {
    if turns == [] then secret else turns[|turns| - 1].draw.secret
  }

  function Expiry(t: RefreshToken, turns: seq<Turn>): int {
    if turns == [] then t.expiresAt else turns[|turns| - 1].draw.expiresAt
  }

  /** Refreshes that each present what the one before handed out. */
  function AfterTurns(v: Vault, secret: nat, turns: seq<Turn>): Vault {
    if turns == [] then v
    else
      var n := |turns| - 1;
      Refresh(AfterTurns(v, secret, turns[..n]), LastDrawn(secret, turns[..n]), turns[n].draw, turns[n].now).vault
  }

  /** Every secret drawn is new, and every token is presented before it expires. */
  ghost predicate GoodTurns(v: Vault, t: RefreshToken, turns: seq<Turn>) {
    turns != [] ==>
      var n := |turns| - 1;
      && GoodTurns(v, t, turns[..n]) && turns[n].now < Expiry(t, turns[..n]) && Undrawn(v.refresh, turns[n].draw.secret)
      && forall k :: 0 <= k < n ==> turns[k].draw.secret != turns[n].draw.secret
  }

  /** What a chain of refreshes leaves: one more token a turn, all of the user and lineage of the first, of which only
      the last is not revoked; it bears the secret drawn last, which no other token does. */
  ghost predicate ChainLeft(v: Vault, i: nat, turns: seq<Turn>, r: seq<RefreshToken>)
    requires i < |v.refresh|
  {
    var t, last := v.refresh[i], |r| - 1;
    && |r| == |v.refresh| + |turns|
    && (forall k :: |v.refresh| <= k < |r| ==>
          r[k].user == t.user && r[k].origin == t.origin && !r[k].purged
          && r[k].secret == turns[k - |v.refresh|].draw.secret && (r[k].revoked.None? <==> k == last))
    && (forall k :: 0 <= k < |v.refresh| && k != i ==> r[k] == v.refresh[k])
    && r[i] == (if turns == [] then t else t.(revoked := Some(Revocation(turns[0].now, Rotated))))
    && (turns != [] ==> r[last].expiresAt == turns[|turns| - 1].draw.expiresAt)
  }

  /** However often a session is refreshed, as long as each token is presented in time every refresh succeeds, and at any
      time exactly one token of the chain can be presented. */
  lemma {:induction false} ChainOfRefreshes(v: Vault, i: nat, secret: nat, turns: seq<Turn>, next: Draw, later: int)
    requires OnlyToken(v.refresh, secret, i) && GoodTurns(v, v.refresh[i], turns)
    requires v.refresh[i].revoked.None? && !v.refresh[i].purged
    requires v.refresh[i].user in v.users && v.users[v.refresh[i].user].usable
    ensures var v' := AfterTurns(v, secret, turns);
            && ChainLeft(v, i, turns, v'.refresh) && v'.users == v.users
            && OnlyToken(v'.refresh, LastDrawn(secret, turns), if turns == [] then i else |v'.refresh| - 1)
            && (Refresh(v', LastDrawn(secret, turns), next, later).answer.Ok? <==> later < Expiry(v.refresh[i], turns))
  {
    var last := if turns == [] then i else |v.refresh| + |turns| - 1;
    if turns != [] {
      var n := |turns| - 1;
      var before := AfterTurns(v, secret, turns[..n]);
      ChainOfRefreshes(v, i, secret, turns[..n], turns[n].draw, turns[n].now);
      var at := if n == 0 then i else |before.refresh| - 1;
      RefreshWrites(before, at, LastDrawn(secret, turns[..n]), turns[n].draw, turns[n].now);
      ChainGrows(v, i, turns, before.refresh, at);
    }
    RefreshWrites(AfterTurns(v, secret, turns), last, LastDrawn(secret, turns), next, later);
  }

  lemma {:induction false} ChainGrows(v: Vault, i: nat, turns: seq<Turn>, r: seq<RefreshToken>, at: nat)
    requires turns != [] && i < |v.refresh| && GoodTurns(v, v.refresh[i], turns)
    requires v.refresh[i].revoked.None?
    requires ChainLeft(v, i, turns[..|turns| - 1], r) && at == if |turns| == 1 then i else |r| - 1
    ensures var t, last := v.refresh[i], turns[|turns| - 1];
            var r' := r[at := r[at].(revoked := Some(Revocation(last.now, Rotated)))]
                      + [RefreshToken(t.user, last.draw.secret, last.draw.expiresAt, None, t.origin, false)];
            ChainLeft(v, i, turns, r') && OnlyToken(r', last.draw.secret, |r|)
  {
    assert forall k :: 0 <= k < |turns| - 1 ==> turns[..|turns| - 1][k] == turns[k];
  }

  /** Signing out revokes the token presented, if it is live, and changes nothing otherwise; the answer is the same. */
  lemma {:induction false} SignOutWrites(v: Vault, i: nat, secret: nat, now: int)
    requires OnlyToken(v.refresh, secret, i)
    ensures var reply, t := SignOut(v, secret, now), v.refresh[i];
            && reply.answer.Ok?
            && reply.vault == if t.revoked.None? && !t.purged
                              then v.(refresh := v.refresh[i := t.(revoked := Some(Revocation(now, Logout)))]) else v
  {
    if v.refresh[i].revoked.None? && !v.refresh[i].purged {
      assert LiveWithSecret(secret)(v.refresh[i]);
    }
  }

  /** And the token stays out, whatever happens afterwards, as long as no other one bears its secret. */
  lemma {:induction false} SignedOutStaysOut(v: Vault, i: nat, secret: nat, now: int, events: seq<Event>, draw: Draw,
                                             later: int)
    requires OnlyToken(v.refresh, secret, i)
    requires OnlyToken(RunFrom(SignOut(v, secret, now).vault, events).refresh, secret, i)
    ensures Refresh(RunFrom(SignOut(v, secret, now).vault, events), secret, draw, later).answer == Err(InvalidToken)
  {
    var out := SignOut(v, secret, now).vault;
    var v' := RunFrom(out, events);
    SignOutWrites(v, i, secret, now);
    RunPersists(out, events);
    assert SameToken(out.refresh[i], v'.refresh[..|out.refresh|][i]);
    RefreshWrites(v', i, secret, draw, later);
  }

  // ---------------------------------------------------------------- tokens and challenges used once

  /** A single row is of this kind and bears this secret. */
  ghost predicate OnlyArtifact(a: seq<Artifact>, kind: Kind, secret: nat, i: nat) {
    && i < |a| && a[i].kind == kind && a[i].secret == secret
    && forall k :: 0 <= k < |a| && k != i ==> !(a[k].kind == kind && a[k].secret == secret)
  }

  /** It is neither used nor deleted nor expired. */
  predicate Good(a: Artifact, now: int) {
    a.usedAt.None? && !a.purged && now < a.expiresAt
  }

  lemma {:induction false} FindsOnly(a: seq<Artifact>, kind: Kind, secret: nat, i: nat, now: int)
    requires OnlyArtifact(a, kind, secret, i)
    ensures FindFirst(a, Redeemable(kind, secret, now)) == if Good(a[i], now) then Some(i) else None
  {
    if Good(a[i], now) {
      assert Redeemable(kind, secret, now)(a[i]);
    }
  }

  /** The open rows of a user and of these kinds are used up, and no other row changes. */
  ghost predicate UsedUp(a: seq<Artifact>, a': seq<Artifact>, u: Id, kinds: set<Kind>, now: int) {
    && |a'| == |a|
    && forall k :: 0 <= k < |a| ==>
         a'[k] == if a[k].user == u && a[k].kind in kinds && a[k].usedAt.None? && !a[k].purged
                  then a[k].(usedAt := Some(now)) else a[k]
  }

  /** What the user had of the kind is used up, and a new one with the secret and the expiry drawn is added. */
  ghost predicate Issued(a: seq<Artifact>, a': seq<Artifact>, u: Id, kind: Kind, draw: Draw, now: int) {
    && |a'| == |a| + 1 && UsedUp(a, a'[..|a|], u, {kind}, now)
    && a'[|a|] == Artifact(u, kind, draw.secret, draw.expiresAt, None, false)
  }

  predicate SessionAdded(r: seq<RefreshToken>, r': seq<RefreshToken>, u: Id, draw: Draw) {
    r' == r + [RefreshToken(u, draw.secret, draw.expiresAt, None, |r|, false)]
  }

  /** Once the password was accepted: administrators and supervisors get a challenge, to verify or, without MFA yet, to
      set it up; canvassers get a session. */
  lemma {:induction false} SignInWrites(v: Vault, u: Id, draw: Draw, now: int)
    requires u in v.users
    ensures var reply, user := SignIn(v, u, draw, now), v.users[u];
            && reply.answer.Ok?
            && reply.vault == v.(refresh := reply.vault.refresh, artifacts := reply.vault.artifacts)
            && if user.role == Canvasser then
                 && SessionAdded(v.refresh, reply.vault.refresh, u, draw) && reply.vault.artifacts == v.artifacts
                 && reply.answer.value == |v.refresh|
               else
                 && Issued(v.artifacts, reply.vault.artifacts, u, if user.mfaEnabled then VerifyChallenge else SetupChallenge,
                           draw, now)
                 && reply.vault.refresh == v.refresh && reply.answer.value == |v.artifacts|
  {
  }

  /** A request for a reset issues a reset token; an unknown address is answered alike. */
  lemma {:induction false} RequestResetWrites(v: Vault, known: Option<Id>, admitted: bool, draw: Draw, now: int)
    ensures var reply := RequestReset(v, known, admitted, draw, now);
            && (reply.answer.Ok? <==> admitted)
            && if admitted && known.Some? then
                 && reply.vault == v.(artifacts := reply.vault.artifacts)
                 && Issued(v.artifacts, reply.vault.artifacts, known.value, Reset, draw, now)
               else reply.vault == v
  {
  }

  lemma {:induction false} CreateActivationWrites(v: Vault, u: Id, draw: Draw, now: int)
    ensures var reply := CreateActivation(v, u, draw, now);
            && (reply.answer.Ok? <==> u in v.users)
            && if u in v.users then
                 && reply.vault == v.(artifacts := reply.vault.artifacts)
                 && Issued(v.artifacts, reply.vault.artifacts, u, Activation, draw, now)
               else reply.vault == v
  {
  }

  /** Back in use, without failures and without a lock. */
  predicate BackInUse(user: User, user': User) {
    user' == user.(usable := true, failedLogins := 0, lockedUntil := None)
  }

  /** A reset is completed exactly with a good reset token of a known user: it puts the user back in use, uses the token
      and revokes the user's sessions. */
  lemma {:induction false} CompleteResetWrites(v: Vault, i: nat, secret: nat, now: int)
    requires OnlyArtifact(v.artifacts, Reset, secret, i)
    ensures var reply, u := CompleteReset(v, secret, now), v.artifacts[i].user;
            && (reply.answer.Ok? <==> Good(v.artifacts[i], now) && u in v.users)
            && if reply.answer.Ok? then
                 && reply.answer.value == u && u in reply.vault.users && BackInUse(v.users[u], reply.vault.users[u])
                 && AllRevoked(v.refresh, reply.vault.refresh, u, now, PasswordReset)
                 && reply.vault == v.(users := v.users[u := reply.vault.users[u]],
                                      artifacts := v.artifacts[i := v.artifacts[i].(usedAt := Some(now))],
                                      refresh := reply.vault.refresh)
               else reply.vault == v
  {
    FindsOnly(v.artifacts, Reset, secret, i, now);
  }

  /** An activation puts the user in use, uses the token, and signs in as after a password: the activated user is let in
      at once, or asked for MFA. */
  lemma {:induction false} ActivateWrites(v: Vault, i: nat, secret: nat, draw: Draw, now: int)
    requires OnlyArtifact(v.artifacts, Activation, secret, i)
    ensures var reply, u := Activate(v, secret, draw, now), v.artifacts[i].user;
            && (reply.answer.Ok? <==> Good(v.artifacts[i], now) && u in v.users)
            && if reply.answer.Ok? then
                 && u in reply.vault.users && BackInUse(v.users[u], reply.vault.users[u])
                 && reply.vault.users == v.users[u := reply.vault.users[u]]
                 && reply == SignIn(v.(users := reply.vault.users,
                                       artifacts := v.artifacts[i := v.artifacts[i].(usedAt := Some(now))]), u, draw, now)
               else reply.vault == v
  {
    FindsOnly(v.artifacts, Activation, secret, i, now);
  }

  /** A secret that was never drawn is refused, except at sign-out, and changes nothing. */
  lemma {:induction false} UnknownSecretsDoNothing(v: Vault, secret: nat, draw: Draw, mfaSecret: nat, drawn: seq<nat>,
                                                   accepted: bool, code: nat, now: int)
    requires Undrawn(v.refresh, secret) && forall k :: 0 <= k < |v.artifacts| ==> v.artifacts[k].secret != secret
    ensures Refresh(v, secret, draw, now) == CompleteReset(v, secret, now) == Activate(v, secret, draw, now)
         == InitializeMfa(v, secret, mfaSecret, now) == CompleteMfaSetup(v, secret, accepted, drawn, draw, now)
         == VerifyMfa(v, secret, true, accepted, code, draw, now) == Reply(v, Err(InvalidToken))
    ensures SignOut(v, secret, now) == Reply(v, Ok(0))
  {
  }

  // ---------------------------------------------------------------- logins

  /** A login is accepted exactly with the right password of a user who is in use and not within the time of a lock, if
      the limiter admits it; it clears the failures and signs in. A wrong password in the same circumstances counts a
      failure, and at the threshold sets the lock and takes the account out of use. Anything else changes nothing. */
  lemma {:induction false} LoginWrites(v: Vault, known: Option<Id>, matches: bool, lockout: Lockout, admitted: bool,
                                       draw: Draw, now: int)
    ensures var reply := Login(v, known, matches, lockout, admitted, draw, now);
            var tried := admitted && known.Some? && known.value in v.users && v.users[known.value].usable
                         && (v.users[known.value].lockedUntil.Some? ==> v.users[known.value].lockedUntil.value <= now);
            && (reply.answer.Ok? <==> tried && matches)
            && if !tried then reply.vault == v
               else
                 var u, user := known.value, v.users[known.value];
                 if matches then
                   reply == SignIn(v.(users := v.users[u := user.(failedLogins := 0, lockedUntil := None)]), u, draw, now)
                 else if user.failedLogins + 1 < lockout.threshold then
                   reply.vault == v.(users := v.users[u := user.(failedLogins := user.failedLogins + 1,
                                                                 lockedUntil := None)])
                 else
                   reply.vault == v.(users := v.users[u := user.(failedLogins := user.failedLogins + 1, usable := false,
                                                                 lockedUntil := Some(now + lockout.lengthMs))])
  {
  }

  // ---------------------------------------------------------------- MFA

  /** Setting up starts by giving the user a secret, unless one is waiting already. */
  lemma {:induction false} InitializeMfaWrites(v: Vault, i: nat, secret: nat, mfaSecret: nat, now: int)
    requires OnlyArtifact(v.artifacts, SetupChallenge, secret, i)
    ensures var reply, u := InitializeMfa(v, secret, mfaSecret, now), v.artifacts[i].user;
            && (reply.answer.Ok? <==> Good(v.artifacts[i], now) && u in v.users)
            && reply.vault == if reply.answer.Ok? && v.users[u].mfaTempSecret.None?
                              then v.(users := v.users[u := v.users[u].(mfaTempSecret := Some(mfaSecret))]) else v
  {
    FindsOnly(v.artifacts, SetupChallenge, secret, i, now);
  }

  /** Setting up succeeds exactly with a good challenge, a secret waiting and a code accepted for it: the secret becomes
      the user's, the challenge is used, the user's backup codes are those drawn, and a session starts. A wrong code
      changes nothing. */
  lemma {:induction false} CompleteMfaSetupWrites(v: Vault, i: nat, secret: nat, accepted: bool, drawn: seq<nat>,
                                                  draw: Draw, now: int)
    requires OnlyArtifact(v.artifacts, SetupChallenge, secret, i)
    ensures var reply, u := CompleteMfaSetup(v, secret, accepted, drawn, draw, now), v.artifacts[i].user;
            && (reply.answer.Ok? <==>
                  Good(v.artifacts[i], now) && u in v.users && v.users[u].mfaTempSecret.Some? && accepted)
            && if reply.answer.Ok? then
                 var user := v.users[u].(mfaEnabled := true, mfaSecret := v.users[u].mfaTempSecret, mfaTempSecret := None);
                 && SessionAdded(v.refresh, reply.vault.refresh, u, draw)
                 && CodesReplaced(v.codes, reply.vault.codes, u, drawn)
                 && reply.vault == v.(users := v.users[u := user],
                                      artifacts := v.artifacts[i := v.artifacts[i].(usedAt := Some(now))],
                                      refresh := reply.vault.refresh, codes := reply.vault.codes)
               else reply.vault == v
  {
    FindsOnly(v.artifacts, SetupChallenge, secret, i, now);
    FilterAgreesOnOthers(v.codes, v.artifacts[i].user);
  }

  /** The codes of others, and then those drawn for the user, none of them used. */
  ghost predicate CodesReplaced(codes: seq<BackupCode>, codes': seq<BackupCode>, u: Id, drawn: seq<nat>) {
    var others := Filter(codes, (c: BackupCode) => c.user != u);
    && |codes'| == |others| + |drawn| && codes'[..|others|] == others
    && forall k :: 0 <= k < |drawn| ==> codes'[|others| + k] == BackupCode(u, drawn[k], false)
  }

  lemma {:induction false} FilterAgreesOnOthers(codes: seq<BackupCode>, u: Id)
    ensures Filter(codes, CodesOfOthers(u)) == Filter(codes, (c: BackupCode) => c.user != u)
  {
    if codes != [] {
      FilterAgreesOnOthers(codes[..|codes| - 1], u);
    }
  }

  ghost predicate HasCode(codes: seq<BackupCode>, u: Id, code: nat) {
    exists k :: 0 <= k < |codes| && codes[k] == BackupCode(u, code, false)
  }

  /** One unused code of the user is used, and no other one changes. */
  ghost predicate CodeSpent(codes: seq<BackupCode>, codes': seq<BackupCode>, u: Id, code: nat) {
    exists k :: 0 <= k < |codes| && codes[k] == BackupCode(u, code, false)
                && codes' == codes[k := BackupCode(u, code, true)]
  }

  /** A challenge is answered exactly by a code that is accepted or a backup code of the user that is unused, if it is
      good, MFA is set up and the limiter admits it: it is used, with the backup code where the code was not accepted,
      and a session starts. A wrong code changes nothing. */
  lemma {:induction false} VerifyMfaWrites(v: Vault, i: nat, secret: nat, admitted: bool, accepted: bool, code: nat,
                                           draw: Draw, now: int)
    requires OnlyArtifact(v.artifacts, VerifyChallenge, secret, i)
    ensures var reply, u := VerifyMfa(v, secret, admitted, accepted, code, draw, now), v.artifacts[i].user;
            && (reply.answer.Ok? <==>
                  && Good(v.artifacts[i], now) && u in v.users && v.users[u].mfaSecret.Some? && admitted
                  && (accepted || HasCode(v.codes, u, code)))
            && if reply.answer.Ok? then
                 && SessionAdded(v.refresh, reply.vault.refresh, u, draw)
                 && (if accepted then reply.vault.codes == v.codes else CodeSpent(v.codes, reply.vault.codes, u, code))
                 && reply.vault == v.(artifacts := v.artifacts[i := v.artifacts[i].(usedAt := Some(now))],
                                      refresh := reply.vault.refresh, codes := reply.vault.codes)
               else reply.vault == v
  {
    FindsOnly(v.artifacts, VerifyChallenge, secret, i, now);
    var spent := FindFirst(v.codes, UnusedCode(v.artifacts[i].user, code));
    assert forall k :: 0 <= k < |v.codes| ==>
      (UnusedCode(v.artifacts[i].user, code)(v.codes[k]) <==> v.codes[k] == BackupCode(v.artifacts[i].user, code, false));
  }

  /** MFA is turned off exactly for a user who has it, with password and code accepted and the limiter admitting it:
      secrets, backup codes and open challenges of the user are gone. */
  lemma {:induction false} DisableMfaWrites(v: Vault, u: Id, admitted: bool, accepted: bool, now: int)
    ensures var reply := DisableMfa(v, u, admitted, accepted, now);
            && (reply.answer.Ok? <==>
                  u in v.users && v.users[u].mfaEnabled && v.users[u].mfaSecret.Some? && admitted && accepted)
            && if reply.answer.Ok? then
                 && UsedUp(v.artifacts, reply.vault.artifacts, u, {SetupChallenge, VerifyChallenge}, now)
                 && CodesReplaced(v.codes, reply.vault.codes, u, [])
                 && reply.vault == v.(users := v.users[u := v.users[u].(mfaEnabled := false, mfaSecret := None,
                                                                        mfaTempSecret := None)],
                                      artifacts := reply.vault.artifacts, codes := reply.vault.codes)
               else reply.vault == v
  {
    FilterAgreesOnOthers(v.codes, u);
  }

  // ---------------------------------------------------------------- impersonation

  /** An administrator may impersonate who is no administrator of the same organisation; earlier impersonations by the
      administrator end. */
  lemma {:induction false} StartImpersonationWrites(v: Vault, actor: Id, target: Id)
    ensures var reply := StartImpersonation(v, actor, target);
            && (reply.answer.Ok? <==>
                  && actor in v.users && v.users[actor].role == Admin
                  && target in v.users && v.users[target].role != Admin && v.users[target].org == v.users[actor].org)
            && if reply.answer.Ok? then
                 && ImpersonationsEnd(v.impersonations, reply.vault.impersonations[..|v.impersonations|], {actor}, {})
                 && reply.vault == v.(impersonations := reply.vault.impersonations[..|v.impersonations|]
                                                        + [Impersonation(actor, target, false)])
               else reply.vault == v
  {
    if StartImpersonation(v, actor, target).answer.Ok? {
      var s' := StartImpersonation(v, actor, target).vault.impersonations;
      assert s' == s'[..|v.impersonations|] + [Impersonation(actor, target, false)];
    }
  }

  /** Those by one of the actors or of one of the targets have ended, the others are as they were. */
  ghost predicate ImpersonationsEnd(s: seq<Impersonation>, s': seq<Impersonation>, actors: set<Id>, targets: set<Id>) {
    && |s'| == |s|
    && forall k :: 0 <= k < |s| ==>
         s'[k] == if s[k].actor in actors || s[k].target in targets then s[k].(ended := true) else s[k]
  }

  lemma {:induction false} StopImpersonationWrites(v: Vault, actor: Id, session: Id)
    ensures var reply := StopImpersonation(v, actor, session);
            && (reply.answer.Ok? <==> session < |v.impersonations| && v.impersonations[session].actor == actor
                                      && !v.impersonations[session].ended)
            && reply.vault == if reply.answer.Ok?
                              then v.(impersonations := v.impersonations[session := v.impersonations[session].(ended := true)])
                              else v
  {
  }

  // ---------------------------------------------------------------- recovery

  /** Recovery is for administrators of an organisation who are in use and not deleted. */
  predicate Recovers(v: Vault, actor: Id, org: Id) {
    && actor in v.users && v.users[actor].role == Admin && v.users[actor].usable && !v.users[actor].deleted
    && v.users[actor].org == Some(org)
  }

  /** A case is opened exactly by such an administrator whom the limiter admits, for another undeleted user of the
      organisation, with a reason of ten to a thousand characters, by break-glass if that is enabled and otherwise for
      who is no administrator, while no unexpired case of the target is pending. */
  lemma {:induction false} RequestRecoveryWrites(v: Vault, config: RecoveryConfig, actor: Id, target: Id, kind: RecoveryType,
                                                 reason: string, admitted: bool, now: int)
    ensures var reply := RequestRecovery(v, config, actor, target, kind, reason, admitted, now);
            && (reply.answer.Ok? <==>
                  && (exists org :: Recovers(v, actor, org)) && admitted && actor != target
                  && target in v.users && v.users[target].org == v.users[actor].org && !v.users[target].deleted
                  && (if kind == BreakGlass then config.breakGlassEnabled else v.users[target].role != Admin)
                  && 10 <= |reason| <= 1000
                  && forall k :: 0 <= k < |v.cases| && v.cases[k].target == target && v.cases[k].status == Pending ==>
                       v.cases[k].expiresAt <= now)
            && if reply.answer.Ok? then
                 && reply.answer.value == |v.cases| && v.users[actor].org.Some?
                 && reply.vault == v.(cases := v.cases + [Case(v.users[actor].org.value, target, actor, kind, Pending,
                                                               now + config.caseTtlMs, None, None)])
               else reply.vault == v
  {
    assert forall k :: 0 <= k < |v.cases| ==>
      (LivePendingOn(target, now)(v.cases[k]) <==>
       v.cases[k].target == target && v.cases[k].status == Pending && v.cases[k].expiresAt > now);
    if actor in v.users && v.users[actor].org.Some? {
      assert Actor(v, actor).Some? <==> Recovers(v, actor, v.users[actor].org.value);
    }
  }

  /** A pending case of the organisation is rejected by any of its administrators who gives a reason, also after it has
      expired. */
  lemma {:induction false} RejectRecoveryWrites(v: Vault, actor: Id, c: Id, reason: string)
    ensures var reply := RejectRecovery(v, actor, c, reason);
            && (reply.answer.Ok? <==>
                  c < |v.cases| && v.cases[c].status == Pending && Recovers(v, actor, v.cases[c].org) && 10 <= |reason| <= 1000)
            && reply.vault == if reply.answer.Ok?
                              then v.(cases := v.cases[c := v.cases[c].(status := Rejected, reviewer := Some(actor))]) else v
  {
  }

  /** An approval is accepted exactly for a pending unexpired case of the organisation, from an administrator who neither
      requested it nor is its target, gives a reason and is admitted, if the target exists and, unless only MFA is
      reset, the channel for notifications does. */
  lemma {:induction false} ApproveSucceeds(v: Vault, config: RecoveryConfig, actor: Id, c: Id, reason: string,
                                           admitted: bool, draw: Draw, now: int)
    ensures var reply := ApproveRecovery(v, config, actor, c, reason, admitted, draw, now);
            && (reply.answer.Ok? <==>
                  && c < |v.cases| && v.cases[c].status == Pending && now < v.cases[c].expiresAt
                  && Recovers(v, actor, v.cases[c].org) && 10 <= |reason| <= 1000 && admitted
                  && v.cases[c].requester != actor && v.cases[c].target != actor && v.cases[c].target in v.users
                  && (v.cases[c].kind != MfaReset ==> config.webhook))
            && (!reply.answer.Ok? ==> reply.vault == v)
  {
  }

  /** It takes the target's MFA, failures and lock, revokes the sessions, uses up every open token and challenge, removes
      the backup codes, ends the impersonations, settles the case, and issues a reset token unless only MFA is reset. */
  lemma {:induction false} ApproveWrites(v: Vault, config: RecoveryConfig, actor: Id, c: Id, reason: string,
                                         admitted: bool, draw: Draw, now: int)
    requires ApproveRecovery(v, config, actor, c, reason, admitted, draw, now).answer.Ok?
    ensures c < |v.cases| && v.cases[c].target in v.users
    ensures var v', u := ApproveRecovery(v, config, actor, c, reason, admitted, draw, now).vault, v.cases[c].target;
            && v'.users == v.users[u := v.users[u].(mfaEnabled := false, mfaSecret := None, mfaTempSecret := None,
                                                    failedLogins := 0, lockedUntil := None)]
            && AllRevoked(v.refresh, v'.refresh, u, now, PrivilegedRecovery)
            && |v'.artifacts| == |v.artifacts| + (if v.cases[c].kind == MfaReset then 0 else 1)
            && UsedUp(v.artifacts, v'.artifacts[..|v.artifacts|], u,
                      {Reset, Activation, SetupChallenge, VerifyChallenge}, now)
            && (v.cases[c].kind != MfaReset ==>
                  v'.artifacts[|v.artifacts|] == Artifact(u, Reset, draw.secret, draw.expiresAt, None, false))
            && CodesReplaced(v.codes, v'.codes, u, [])
            && ImpersonationsEnd(v.impersonations, v'.impersonations, {u}, {u})
            && v'.cases == v.cases[c := v.cases[c].(status := Executed, reviewer := Some(actor), executedAt := Some(now))]
  {
    FilterAgreesOnOthers(v.codes, v.cases[c].target);
    forall k | 0 <= k < |v.artifacts|
      ensures v.artifacts[k].kind in {Reset, Activation, SetupChallenge, VerifyChallenge}
    {
      match v.artifacts[k].kind
      case Reset | Activation | SetupChallenge | VerifyChallenge =>
    }
  }

  /** Expiring touches the pending cases of the organisation whose time is over. */
  lemma {:induction false} ExpireStaleWrites(v: Vault, org: Id, now: int)
    ensures var reply := ExpireStale(v, org, now);
            && reply.vault == v.(cases := reply.vault.cases) && |reply.vault.cases| == |v.cases|
            && forall k :: 0 <= k < |v.cases| ==>
                 reply.vault.cases[k] == if v.cases[k].org == org && v.cases[k].status == Pending && v.cases[k].expiresAt <= now
                                         then v.cases[k].(status := ExpiredCase) else v.cases[k]
  {
  }

  // ---------------------------------------------------------------- cleanups

  /** A cleanup marks as deleted those of the chosen tokens and challenges that have expired or were revoked or used, and
      takes out chosen backup codes that were used. */
  lemma {:induction false} PurgeWrites(v: Vault, tokens: set<Id>, used: set<Id>, spent: set<BackupCode>, now: int,
                                       c: BackupCode)
    ensures var v' := Purge(v, tokens, used, spent, now).vault;
            && |v'.refresh| == |v.refresh| && |v'.artifacts| == |v.artifacts|
            && (forall k :: 0 <= k < |v.refresh| ==>
                  v'.refresh[k] == if k in tokens && (v.refresh[k].expiresAt <= now || v.refresh[k].revoked.Some?)
                                   then v.refresh[k].(purged := true) else v.refresh[k])
            && (forall k :: 0 <= k < |v.artifacts| ==>
                  v'.artifacts[k] == if k in used && (v.artifacts[k].expiresAt <= now || v.artifacts[k].usedAt.Some?)
                                     then v.artifacts[k].(purged := true) else v.artifacts[k])
            && (c in v'.codes <==> c in v.codes && !(c.used && c in spent))
            && v' == v.(refresh := v'.refresh, artifacts := v'.artifacts, codes := v'.codes)
  {
    FilterKeeps(v.codes, NotPurged(spent), c);
  }

  // ---------------------------------------------------------------- errors

  /** A refused login says what is wrong. */
  lemma {:induction false} LoginErrors(v: Vault, known: Option<Id>, matches: bool, lockout: Lockout, admitted: bool,
                                       draw: Draw, now: int)
    ensures match Login(v, known, matches, lockout, admitted, draw, now).answer
            case Ok(_) => admitted && matches
            case Err(error) =>
              match error
              case TooManyAttempts => !admitted
              case AccountLocked => known.Some? && known.value in v.users && v.users[known.value].lockedUntil.Some?
                                    && now < v.users[known.value].lockedUntil.value
              case InvalidCredentials => known.None? || known.value !in v.users || !v.users[known.value].usable || !matches
              case _ => false
  {
  }

  /** So do the refusals of MFA. */
  lemma {:induction false} MfaErrors(v: Vault, secret: nat, admitted: bool, accepted: bool, code: nat, drawn: seq<nat>,
                                     u: Id, draw: Draw, now: int)
    ensures match VerifyMfa(v, secret, admitted, accepted, code, draw, now).answer
            case Ok(_) => admitted
            case Err(error) =>
              match error
              case TooManyAttempts => !admitted
              case InvalidCode => !accepted && admitted
              case InvalidToken =>
                forall k :: 0 <= k < |v.artifacts| && v.artifacts[k].kind == VerifyChallenge
                            && v.artifacts[k].secret == secret && Good(v.artifacts[k], now) ==>
                  exists j :: 0 <= j <= k && Good(v.artifacts[j], now) && v.artifacts[j].secret == secret
                              && (v.artifacts[j].user in v.users ==> v.users[v.artifacts[j].user].mfaSecret.None?)
              case _ => false
    ensures CompleteMfaSetup(v, secret, accepted, drawn, draw, now).answer == Err(InvalidCode) ==> !accepted
    ensures match DisableMfa(v, u, admitted, accepted, now).answer
            case Ok(_) => admitted && accepted
            case Err(error) =>
              match error
              case UserNotFound => u !in v.users
              case MfaNotEnabled => u in v.users && (!v.users[u].mfaEnabled || v.users[u].mfaSecret.None?)
              case TooManyAttempts => !admitted
              case InvalidCode => !accepted && admitted
              case _ => false
  {
    var found := FindFirst(v.artifacts, Redeemable(VerifyChallenge, secret, now));
    forall k | 0 <= k < |v.artifacts| && v.artifacts[k].kind == VerifyChallenge && v.artifacts[k].secret == secret
               && Good(v.artifacts[k], now)
      ensures found.Some? && found.value <= k
    {
      assert Redeemable(VerifyChallenge, secret, now)(v.artifacts[k]);
    }
  }

  /** A token or challenge that is refused is not good; a good one is refused only if its user is gone, or for a wrong
      code. */
  lemma {:induction false} TokenErrors(v: Vault, i: nat, kind: Kind, secret: nat, mfaSecret: nat, accepted: bool,
                                       drawn: seq<nat>, draw: Draw, now: int)
    requires OnlyArtifact(v.artifacts, kind, secret, i)
    ensures var refusal := if Good(v.artifacts[i], now) then UserNotFound else InvalidToken;
            && (kind == SetupChallenge && InitializeMfa(v, secret, mfaSecret, now).answer.Err? ==>
                  InitializeMfa(v, secret, mfaSecret, now).answer == Err(refusal))
            && (kind == Reset && CompleteReset(v, secret, now).answer.Err? ==>
                  CompleteReset(v, secret, now).answer == Err(refusal))
            && (kind == Activation && Activate(v, secret, draw, now).answer.Err? ==>
                  Activate(v, secret, draw, now).answer == Err(refusal))
    ensures var u, answer := v.artifacts[i].user, CompleteMfaSetup(v, secret, accepted, drawn, draw, now).answer;
            kind == SetupChallenge && answer.Err? ==>
              answer.error == if Good(v.artifacts[i], now) && u in v.users && v.users[u].mfaTempSecret.Some? then InvalidCode
                              else InvalidToken
  {
    FindsOnly(v.artifacts, kind, secret, i, now);
  }

  /** The other calls have one cause to refuse, and name it. */
  lemma {:induction false} SingleErrors(v: Vault, known: Option<Id>, u: Id, session: Id, draw: Draw, now: int)
    ensures RequestReset(v, known, false, draw, now).answer == Err(TooManyAttempts)
    ensures u !in v.users ==> CreateActivation(v, u, draw, now).answer == Err(UserNotFound)
    ensures StopImpersonation(v, u, session).answer.Err? ==> StopImpersonation(v, u, session).answer == Err(InvalidToken)
  {
  }

  lemma {:induction false} ImpersonationErrors(v: Vault, actor: Id, target: Id)
    ensures match StartImpersonation(v, actor, target).answer
            case Ok(_) => true
            case Err(error) =>
              match error
              case UserNotFound => actor !in v.users || target !in v.users || v.users[target].org != v.users[actor].org
              case NotAdmin => actor in v.users && v.users[actor].role != Admin
              case NotImpersonable => target in v.users && v.users[target].role == Admin
              case _ => false
  {
  }

  lemma {:induction false} RequestErrors(v: Vault, config: RecoveryConfig, actor: Id, target: Id, kind: RecoveryType,
                                         reason: string, admitted: bool, now: int)
    ensures match RequestRecovery(v, config, actor, target, kind, reason, admitted, now).answer
            case Ok(_) => admitted
            case Err(error) =>
              match error
              case NotActiveAdmin => !exists org :: Recovers(v, actor, org)
              case TooManyAttempts => !admitted
              case OwnAccount => actor == target
              case UserNotFound =>
                target !in v.users || v.users[target].deleted || (actor in v.users && v.users[target].org != v.users[actor].org)
              case BreakGlassDisabled => kind == BreakGlass && !config.breakGlassEnabled
              case NeedsBreakGlass => kind != BreakGlass && target in v.users && v.users[target].role == Admin
              case BadReason => |reason| < 10 || |reason| > 1000
              case CasePending =>
                exists k :: 0 <= k < |v.cases| && v.cases[k].target == target && v.cases[k].status == Pending
                            && now < v.cases[k].expiresAt
              case _ => false
  {
    if actor in v.users && v.users[actor].org.Some? {
      assert Actor(v, actor).Some? <==> Recovers(v, actor, v.users[actor].org.value);
    }
    var pending := FindFirst(v.cases, LivePendingOn(target, now));
    assert pending.Some? ==> v.cases[pending.value].target == target && now < v.cases[pending.value].expiresAt;
  }

  lemma {:induction false} ReviewErrors(v: Vault, config: RecoveryConfig, actor: Id, c: Id, reason: string, admitted: bool,
                                        draw: Draw, now: int)
    ensures match ApproveRecovery(v, config, actor, c, reason, admitted, draw, now).answer
            case Ok(_) => admitted
            case Err(error) =>
              match error
              case NotActiveAdmin => !exists org :: Recovers(v, actor, org)
              case BadReason => |reason| < 10 || |reason| > 1000
              case CaseNotFound =>
                c >= |v.cases| || v.cases[c].status != Pending || v.cases[c].expiresAt <= now || !Recovers(v, actor, v.cases[c].org)
              case TooManyAttempts => !admitted
              case SameReviewer => c < |v.cases| && v.cases[c].requester == actor
              case OwnAccount => c < |v.cases| && v.cases[c].target == actor
              case UserNotFound => c < |v.cases| && v.cases[c].target !in v.users
              case NoWebhook => c < |v.cases| && v.cases[c].kind != MfaReset && !config.webhook
              case _ => false
    ensures match RejectRecovery(v, actor, c, reason).answer
            case Ok(_) => true
            case Err(error) =>
              match error
              case NotActiveAdmin => !exists org :: Recovers(v, actor, org)
              case BadReason => |reason| < 10 || |reason| > 1000
              case CaseNotFound => c >= |v.cases| || v.cases[c].status != Pending || !Recovers(v, actor, v.cases[c].org)
              case _ => false
  {
    if actor in v.users && v.users[actor].org.Some? {
      assert Actor(v, actor).Some? <==> Recovers(v, actor, v.users[actor].org.value);
    }
  }
}
