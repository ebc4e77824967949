/** What every run of the sign-in and recovery services keeps. */
module CredentialProperties {
  import opened Common
  import opened CredentialVault

  /** One call of either service, a change to a user made elsewhere, or a cleanup. */
  datatype Op =
    | LoginOp(known: Option<Id>, matches: bool, lockout: Lockout, admitted: bool, draw: Draw)
    | InitializeMfaOp(secret: nat, mfaSecret: nat)
    | CompleteMfaSetupOp(secret: nat, accepted: bool, codes: seq<nat>, draw: Draw)
    | VerifyMfaOp(secret: nat, admitted: bool, accepted: bool, code: nat, draw: Draw)
    | DisableMfaOp(u: Id, admitted: bool, accepted: bool)
    | RefreshOp(secret: nat, draw: Draw)
    | SignOutOp(secret: nat)
    | RequestResetOp(known: Option<Id>, admitted: bool, draw: Draw)
    | CompleteResetOp(secret: nat)
    | CreateActivationOp(u: Id, draw: Draw)
    | ActivateOp(secret: nat, draw: Draw)
    | StartImpersonationOp(actor: Id, target: Id)
    | StopImpersonationOp(actor: Id, session: Id)
    | RequestRecoveryOp(config: RecoveryConfig, actor: Id, target: Id, kind: RecoveryType, reason: string, admitted: bool)
    | RejectRecoveryOp(actor: Id, c: Id, reason: string)
    | ApproveRecoveryOp(config: RecoveryConfig, actor: Id, c: Id, reason: string, admitted: bool, draw: Draw)
    | ExpireStaleOp(org: Id)
    | ChangeUserOp(u: Id, user: User)
    | PurgeOp(tokens: set<Id>, used: set<Id>, spent: set<BackupCode>)

  function Serve(v: Vault, op: Op, now: int): Reply {
    match op
    case LoginOp(known, matches, lockout, admitted, draw) => Login(v, known, matches, lockout, admitted, draw, now)
    case InitializeMfaOp(secret, mfaSecret) => InitializeMfa(v, secret, mfaSecret, now)
    case CompleteMfaSetupOp(secret, accepted, codes, draw) => CompleteMfaSetup(v, secret, accepted, codes, draw, now)
    case VerifyMfaOp(secret, admitted, accepted, code, draw) => VerifyMfa(v, secret, admitted, accepted, code, draw, now)
    case DisableMfaOp(u, admitted, accepted) => DisableMfa(v, u, admitted, accepted, now)
    case RefreshOp(secret, draw) => Refresh(v, secret, draw, now)
    case SignOutOp(secret) => SignOut(v, secret, now)
    case RequestResetOp(known, admitted, draw) => RequestReset(v, known, admitted, draw, now)
    case CompleteResetOp(secret) => CompleteReset(v, secret, now)
    case CreateActivationOp(u, draw) => CreateActivation(v, u, draw, now)
    case ActivateOp(secret, draw) => Activate(v, secret, draw, now)
    case StartImpersonationOp(actor, target) => StartImpersonation(v, actor, target)
    case StopImpersonationOp(actor, session) => StopImpersonation(v, actor, session)
    case RequestRecoveryOp(config, actor, target, kind, reason, admitted) =>
      RequestRecovery(v, config, actor, target, kind, reason, admitted, now)
    case RejectRecoveryOp(actor, c, reason) => RejectRecovery(v, actor, c, reason)
    case ApproveRecoveryOp(config, actor, c, reason, admitted, draw) =>
      ApproveRecovery(v, config, actor, c, reason, admitted, draw, now)
    case ExpireStaleOp(org) => ExpireStale(v, org, now)
    case ChangeUserOp(u, user) => Reply(v.(users := v.users[u := user]), Ok(u))
    case PurgeOp(tokens, used, spent) => Purge(v, tokens, used, spent, now)
  }

  datatype Event = Event(op: Op, now: int)

  function RunFrom(v: Vault, events: seq<Event>): Vault {
    if events == [] then v
    else
      var last := events[|events| - 1];
      Serve(RunFrom(v, events[..|events| - 1]), last.op, last.now).vault
  }

  const Empty := Vault(map[], [], [], [], [], [])

  // ---------------------------------------------------------------- refresh tokens

  /** A token's lineage begins with a token of the same user, no later than the token itself. */
  ghost predicate TokenOk(r: seq<RefreshToken>, i: nat)
    requires i < |r|
  {
    r[i].origin <= i && r[r[i].origin].user == r[i].user && r[r[i].origin].origin == r[i].origin
  }

  /** Within a lineage only the newest token can be unrevoked. */
  ghost predicate RefreshOk(r: seq<RefreshToken>) {
    && (forall i {:trigger TokenOk(r, i)} :: 0 <= i < |r| ==> TokenOk(r, i))
    && (forall i, j {:trigger r[i].origin, r[j].origin} :: 0 <= i < j < |r| && r[i].origin == r[j].origin ==> r[i].revoked.Some?)
  }

  /** The same token, perhaps revoked or deleted in between; a revocation stays as it is. */
  predicate SameToken(t: RefreshToken, t': RefreshToken) {
    && t' == t.(revoked := t'.revoked, purged := t'.purged)
    && (t.revoked.Some? ==> t'.revoked == t.revoked) && (t.purged ==> t'.purged)
  }

  /** The same tokens, some of them revoked or deleted. */
  ghost predicate OnlyRevokes(r: seq<RefreshToken>, r': seq<RefreshToken>) {
    |r| == |r'| && forall i {:trigger r'[i]} :: 0 <= i < |r| ==> SameToken(r[i], r'[i])
  }

  lemma RevokingKeepsRefresh(r: seq<RefreshToken>, r': seq<RefreshToken>)
    requires RefreshOk(r) && OnlyRevokes(r, r')
    ensures RefreshOk(r')
  {
    forall i | 0 <= i < |r'| ensures TokenOk(r', i) {
      assert TokenOk(r, i);
      assert r'[r[i].origin].user == r[r[i].origin].user;
    }
    forall i, j | 0 <= i < j < |r'| && r'[i].origin == r'[j].origin ensures r'[i].revoked.Some? {
      assert r[i].origin == r[j].origin;
    }
  }

  lemma SessionKeepsRefresh(r: seq<RefreshToken>, u: Id, draw: Draw)
    requires RefreshOk(r)
    ensures RefreshOk(AddSession(r, u, draw))
  {
    var r' := AddSession(r, u, draw);
    forall i | 0 <= i < |r'| ensures TokenOk(r', i) {
      assert i < |r| ==> TokenOk(r, i);
    }
    forall i, j | 0 <= i < j < |r'| && r'[i].origin == r'[j].origin ensures r'[i].revoked.Some? {
      assert TokenOk(r, i);
      assert j < |r| ==> r[i].origin == r[j].origin;
    }
  }

  lemma RotationKeepsRefresh(r: seq<RefreshToken>, i: nat, draw: Draw, now: int)
    requires RefreshOk(r) && i < |r| && r[i].revoked.None?
    ensures RefreshOk(Rotate(r, i, draw, now))
  {
    var r' := Rotate(r, i, draw, now);
    forall k | 0 <= k < |r'| ensures TokenOk(r', k) {
      assert TokenOk(r, i);
      assert k < |r| ==> TokenOk(r, k);
    }
    forall k, j | 0 <= k < j < |r'| && r'[k].origin == r'[j].origin ensures r'[k].revoked.Some? {
      if k != i {
        if j < |r| {
          assert r[k].origin == r[j].origin;
        } else {
          assert r[k].origin == r[i].origin;
        }
      }
    }
  }

  // ---------------------------------------------------------------- one-time artefacts

  /** A user has at most one open artefact of each kind. */
  ghost predicate ArtifactsOk(a: seq<Artifact>) {
    forall i, j {:trigger a[i].kind, a[j].kind} :: 0 <= i < j < |a| && Open(a[i]) && Open(a[j]) ==>
      !(a[i].user == a[j].user && a[i].kind == a[j].kind)
  }

  /** The same artefact, perhaps used up or deleted in between. */
  predicate SameArtifact(a: Artifact, a': Artifact) {
    && a' == a.(usedAt := a'.usedAt, purged := a'.purged)
    && (a.usedAt.Some? ==> a'.usedAt.Some?) && (a.purged ==> a'.purged)
  }

  /** The same artefacts, some of them used up or deleted. */
  ghost predicate OnlyUses(a: seq<Artifact>, a': seq<Artifact>) {
    |a| == |a'| && forall i {:trigger a'[i]} :: 0 <= i < |a| ==> SameArtifact(a[i], a'[i])
  }

  lemma UsingKeepsArtifacts(a: seq<Artifact>, a': seq<Artifact>)
    requires ArtifactsOk(a) && OnlyUses(a, a')
    ensures ArtifactsOk(a')
  {
    forall i, j | 0 <= i < j < |a'| && Open(a'[i]) && Open(a'[j])
      ensures !(a'[i].user == a'[j].user && a'[i].kind == a'[j].kind)
    {
      assert a[i].kind == a'[i].kind && a[j].kind == a'[j].kind;
    }
  }

  lemma IssueKeepsArtifacts(a: seq<Artifact>, u: Id, kind: Kind, draw: Draw, now: int)
    requires ArtifactsOk(a)
    ensures ArtifactsOk(Issue(a, u, kind, draw, now))
  {
    var used := UpdateWhere(a, UnusedOfKind(u, kind), Use(now));
    UsingKeepsArtifacts(a, used);
    assert forall i :: 0 <= i < |used| && Open(used[i]) ==> !(used[i].user == u && used[i].kind == kind);
  }

  // ---------------------------------------------------------------- impersonations and cases

  /** An administrator has at most one open impersonation. */
  ghost predicate ImpersonationsOk(s: seq<Impersonation>) {
    forall i, j {:trigger s[i].ended, s[j].ended} :: 0 <= i < j < |s| && !s[i].ended && !s[j].ended ==> s[i].actor != s[j].actor
  }

  /** Nobody recovers their own account; an executed case had a second administrator, and was executed in time. */
  ghost predicate CaseOk(c: Case) {
    && c.requester != c.target
    && (c.status == Executed ==>
          && c.reviewer.Some? && c.reviewer != Some(c.requester) && c.reviewer != Some(c.target)
          && c.executedAt.Some? && c.executedAt.value < c.expiresAt)
  }

  /** A target has at most one case that is pending and has not expired. */
  ghost predicate CasesOk(cases: seq<Case>, now: int) {
    && (forall i {:trigger cases[i]} :: 0 <= i < |cases| ==> CaseOk(cases[i]))
    && (forall i, j {:trigger cases[i].target, cases[j].target} ::
          0 <= i < j < |cases| && LivePending(cases[i], now) && LivePending(cases[j], now) ==> cases[i].target != cases[j].target)
  }

  /** The same cases, some of them settled. */
  ghost predicate OnlySettles(c: seq<Case>, c': seq<Case>) {
    |c| == |c'| && forall i {:trigger c'[i]} :: 0 <= i < |c| ==>
      && CaseOk(c'[i]) && c'[i].target == c[i].target && c'[i].expiresAt == c[i].expiresAt
      && (c'[i].status == Pending ==> c[i].status == Pending)
  }

  lemma SettlingKeepsCases(c: seq<Case>, c': seq<Case>, now: int)
    requires CasesOk(c, now) && OnlySettles(c, c')
    ensures CasesOk(c', now)
  {
    forall i, j | 0 <= i < j < |c'| && LivePending(c'[i], now) && LivePending(c'[j], now)
      ensures c'[i].target != c'[j].target
    {
      assert c[i].target != c[j].target;
    }
  }

  // ---------------------------------------------------------------- every call

  ghost predicate Valid(v: Vault, now: int) {
    RefreshOk(v.refresh) && ArtifactsOk(v.artifacts) && ImpersonationsOk(v.impersonations) && CasesOk(v.cases, now)
  }

  lemma TimePasses(v: Vault, now: int, later: int)
    requires Valid(v, now) && now <= later
    ensures Valid(v, later)
  {
  }

  /** Of the calls, these alone may start a session. */
  predicate MayStartSession(op: Op) {
    op.LoginOp? || op.CompleteMfaSetupOp? || op.VerifyMfaOp? || op.ActivateOp?
  }

  /** What a call may do to the refresh tokens: start a session, exchange a live token, or revoke or delete some. */
  lemma {:induction false} RefreshEffect(v: Vault, op: Op, now: int)
    ensures var r, r' := v.refresh, Serve(v, op, now).vault.refresh;
            || OnlyRevokes(r, r')
            || (MayStartSession(op) && |r'| == |r| + 1 && r' == AddSession(r, r'[|r|].user, op.draw))
            || (op.RefreshOp? && FindFirst(r, WithSecret(op.secret)).Some? &&
                var i := FindFirst(r, WithSecret(op.secret)).value; r[i].revoked.None? && r' == Rotate(r, i, op.draw, now))
  {
    if !ConcernsTokens(op) {
      OthersKeepTokens(v, op, now);
    } else if !MayStartSession(op) && !op.RefreshOp? {
      RevokesOnly(v, op, now);
    }
  }

  lemma {:induction false} RevokesOnly(v: Vault, op: Op, now: int)
    requires op.SignOutOp? || op.CompleteResetOp? || op.ApproveRecoveryOp? || op.PurgeOp?
    ensures OnlyRevokes(v.refresh, Serve(v, op, now).vault.refresh)
  {
    match op
    case CompleteResetOp(secret) =>
      if CompleteReset(v, secret, now).answer.Ok? {
        RevokingAllOnlyRevokes(v.refresh, CompleteReset(v, secret, now).answer.value, now, PasswordReset);
      }
    case ApproveRecoveryOp(config, actor, c, reason, admitted, draw) =>
      if ApproveRecovery(v, config, actor, c, reason, admitted, draw, now).answer.Ok? {
        RevokingAllOnlyRevokes(v.refresh, v.cases[c].target, now, PrivilegedRecovery);
      }
    case SignOutOp(secret) =>
    case PurgeOp(tokens, used, spent) =>
  }

  lemma {:induction false} RevokingAllOnlyRevokes(r: seq<RefreshToken>, u: Id, now: int, reason: Reason)
    ensures OnlyRevokes(r, RevokeAll(r, u, now, reason))
  {
  }

  predicate ConcernsTokens(op: Op) {
    MayStartSession(op) || op.RefreshOp? || op.SignOutOp? || op.CompleteResetOp? || op.ApproveRecoveryOp? || op.PurgeOp?
  }

  lemma {:induction false} OthersKeepTokens(v: Vault, op: Op, now: int)
    requires !ConcernsTokens(op)
    ensures Serve(v, op, now).vault.refresh == v.refresh
  {
  }

  lemma ServeKeepsRefresh(v: Vault, op: Op, now: int)
    requires RefreshOk(v.refresh)
    ensures RefreshOk(Serve(v, op, now).vault.refresh)
  {
    var r, r' := v.refresh, Serve(v, op, now).vault.refresh;
    RefreshEffect(v, op, now);
    if OnlyRevokes(r, r') {
      RevokingKeepsRefresh(r, r');
    } else if MayStartSession(op) {
      SessionKeepsRefresh(r, r'[|r|].user, op.draw);
    } else {
      RotationKeepsRefresh(r, FindFirst(r, WithSecret(op.secret)).value, op.draw, now);
    }
  }

  /** Of the calls, these alone may issue an artefact. */
  predicate MayIssue(op: Op) {
    op.LoginOp? || op.RequestResetOp? || op.CreateActivationOp? || op.ActivateOp? || op.ApproveRecoveryOp?
  }

  /** Of the others, these alone may use up or delete artefacts. */
  predicate MayUse(op: Op) {
    op.CompleteMfaSetupOp? || op.VerifyMfaOp? || op.DisableMfaOp? || op.CompleteResetOp? || op.PurgeOp?
  }

  lemma {:induction false} RestKeepArtifacts(v: Vault, op: Op, now: int)
    requires !MayIssue(op) && !MayUse(op)
    ensures Serve(v, op, now).vault.artifacts == v.artifacts
  {
  }

  lemma {:induction false} OthersOnlyUse(v: Vault, op: Op, now: int)
    requires !MayIssue(op)
    ensures OnlyUses(v.artifacts, Serve(v, op, now).vault.artifacts)
  {
    if !MayUse(op) {
      RestKeepArtifacts(v, op, now);
    }
  }

  lemma ServeKeepsArtifacts(v: Vault, op: Op, now: int)
    requires ArtifactsOk(v.artifacts)
    ensures ArtifactsOk(Serve(v, op, now).vault.artifacts)
  {
    var a, a' := v.artifacts, Serve(v, op, now).vault.artifacts;
    if !MayIssue(op) {
      OthersOnlyUse(v, op, now);
      UsingKeepsArtifacts(a, a');
    } else {
      match op
      case LoginOp(known, matches, lockout, admitted, draw) =>
        if a' != a { IssueKeepsArtifacts(a, known.value, a'[|a|].kind, draw, now); }
      case RequestResetOp(known, admitted, draw) =>
        if a' != a { IssueKeepsArtifacts(a, known.value, Reset, draw, now); }
      case CreateActivationOp(u, draw) =>
        if a' != a { IssueKeepsArtifacts(a, u, Activation, draw, now); }
      case ActivateOp(secret, draw) => ActivateKeepsArtifacts(v, secret, draw, now);
      case ApproveRecoveryOp(config, actor, c, reason, admitted, draw) =>
        ApproveKeepsArtifacts(v, config, actor, c, reason, admitted, draw, now);
    }
  }

  lemma ActivateKeepsArtifacts(v: Vault, secret: nat, draw: Draw, now: int)
    requires ArtifactsOk(v.artifacts)
    ensures ArtifactsOk(Activate(v, secret, draw, now).vault.artifacts)
  {
    var a, a' := v.artifacts, Activate(v, secret, draw, now).vault.artifacts;
    if a' != a {
      var i := FindFirst(a, Redeemable(Activation, secret, now)).value;
      UsingKeepsArtifacts(a, UseAt(a, i, now));
      if |a'| > |a| {
        IssueKeepsArtifacts(UseAt(a, i, now), a[i].user, a'[|a|].kind, draw, now);
      }
    }
  }

  lemma ApproveKeepsArtifacts(v: Vault, config: RecoveryConfig, actor: Id, c: Id, reason: string, admitted: bool,
                              draw: Draw, now: int)
    requires ArtifactsOk(v.artifacts)
    ensures ArtifactsOk(ApproveRecovery(v, config, actor, c, reason, admitted, draw, now).vault.artifacts)
  {
    var a' := ApproveRecovery(v, config, actor, c, reason, admitted, draw, now).vault.artifacts;
    if a' != v.artifacts {
      var u := v.cases[c].target;
      var used := UpdateWhere(v.artifacts, UnusedOf(u), Use(now));
      UsingKeepsArtifacts(v.artifacts, used);
      assert forall i :: 0 <= i < |used| && Open(used[i]) ==> used[i].user != u;
    }
  }

  lemma {:induction false} OthersKeepImpersonations(v: Vault, op: Op, now: int)
    requires !op.StartImpersonationOp? && !op.StopImpersonationOp? && !op.ApproveRecoveryOp?
    ensures Serve(v, op, now).vault.impersonations == v.impersonations
  {
  }

  lemma {:induction false} ServeKeepsImpersonations(v: Vault, op: Op, now: int)
    requires ImpersonationsOk(v.impersonations)
    ensures ImpersonationsOk(Serve(v, op, now).vault.impersonations)
  {
    if !op.StartImpersonationOp? && !op.StopImpersonationOp? && !op.ApproveRecoveryOp? {
      OthersKeepImpersonations(v, op, now);
    } else {
      var s, s' := v.impersonations, Serve(v, op, now).vault.impersonations;
      assert forall i :: 0 <= i < |s| ==> s'[i].actor == s[i].actor && (!s'[i].ended ==> !s[i].ended);
      if |s'| > |s| {
        assert forall i :: 0 <= i < |s| && !s'[i].ended ==> s'[i].actor != s'[|s|].actor;
      }
    }
  }

  /** Of the calls, these alone may change a case, and only the first may add one. */
  predicate ConcernsCases(op: Op) {
    op.RequestRecoveryOp? || op.RejectRecoveryOp? || op.ApproveRecoveryOp? || op.ExpireStaleOp?
  }

  lemma OthersKeepCases(v: Vault, op: Op, now: int)
    requires !ConcernsCases(op)
    ensures Serve(v, op, now).vault.cases == v.cases
  {
  }

  lemma ServeKeepsCases(v: Vault, op: Op, now: int)
    requires CasesOk(v.cases, now)
    ensures CasesOk(Serve(v, op, now).vault.cases, now)
  {
    if op.RequestRecoveryOp? {
      RequestKeepsCases(v, op.config, op.actor, op.target, op.kind, op.reason, op.admitted, now);
    } else if ConcernsCases(op) {
      SettlesOnly(v, op, now);
      SettlingKeepsCases(v.cases, Serve(v, op, now).vault.cases, now);
    } else {
      OthersKeepCases(v, op, now);
    }
  }

  lemma SettlesOnly(v: Vault, op: Op, now: int)
    requires op.RejectRecoveryOp? || op.ApproveRecoveryOp? || op.ExpireStaleOp?
    requires CasesOk(v.cases, now)
    ensures OnlySettles(v.cases, Serve(v, op, now).vault.cases)
  {
    assert forall i :: 0 <= i < |v.cases| ==> CaseOk(v.cases[i]);
  }

  lemma RequestKeepsCases(v: Vault, config: RecoveryConfig, actor: Id, target: Id, kind: RecoveryType, reason: string,
                          admitted: bool, now: int)
    requires CasesOk(v.cases, now)
    ensures CasesOk(RequestRecovery(v, config, actor, target, kind, reason, admitted, now).vault.cases, now)
  {
    var c, c' := v.cases, RequestRecovery(v, config, actor, target, kind, reason, admitted, now).vault.cases;
    if c' != c {
      assert forall i :: 0 <= i < |c| ==> !LivePendingOn(target, now)(c[i]);
    }
  }

  lemma ServeKeepsValid(v: Vault, op: Op, now: int)
    requires Valid(v, now)
    ensures Valid(Serve(v, op, now).vault, now)
  {
    ServeKeepsRefresh(v, op, now);
    ServeKeepsArtifacts(v, op, now);
    ServeKeepsImpersonations(v, op, now);
    ServeKeepsCases(v, op, now);
  }

  predicate InOrder(events: seq<Event>) {
    forall i, j :: 0 <= i < j < |events| ==> events[i].now <= events[j].now
  }

  /** Whatever users do, in whatever order, as long as the clock does not run backwards. */
  lemma {:induction false} RunKeepsValid(events: seq<Event>)
    requires InOrder(events)
    ensures events == [] ==> forall now :: Valid(RunFrom(Empty, events), now)
    ensures events != [] ==> Valid(RunFrom(Empty, events), events[|events| - 1].now)
  {
    if events != [] {
      var before, last := events[..|events| - 1], events[|events| - 1];
      RunKeepsValid(before);
      if before != [] {
        TimePasses(RunFrom(Empty, before), before[|before| - 1].now, last.now);
      }
      ServeKeepsValid(RunFrom(Empty, before), last.op, last.now);
    }
  }

  // ---------------------------------------------------------------- refresh tokens in every run

  /** Tokens stay where they are, and a revoked one keeps its revocation. */
  ghost predicate Persists(r: seq<RefreshToken>, r': seq<RefreshToken>) {
    |r| <= |r'| && OnlyRevokes(r, r'[..|r|])
  }

  lemma ServePersists(v: Vault, op: Op, now: int)
    ensures Persists(v.refresh, Serve(v, op, now).vault.refresh)
  {
    var r, r' := v.refresh, Serve(v, op, now).vault.refresh;
    RefreshEffect(v, op, now);
    if OnlyRevokes(r, r') {
      assert r'[..|r|] == r';
    }
  }

  lemma {:induction false} RunPersists(v: Vault, events: seq<Event>)
    ensures Persists(v.refresh, RunFrom(v, events).refresh)
  {
    if events == [] {
      assert v.refresh[..|v.refresh|] == v.refresh;
    } else {
      var before, last := RunFrom(v, events[..|events| - 1]), events[|events| - 1];
      RunPersists(v, events[..|events| - 1]);
      ServePersists(before, last.op, last.now);
      var r, mid, r' := v.refresh, before.refresh, Serve(before, last.op, last.now).vault.refresh;
      forall i | 0 <= i < |r| ensures SameToken(r[i], r'[i]) {
        assert SameToken(mid[i], r'[..|mid|][i]) && SameToken(r[i], mid[..|r|][i]);
      }
    }
  }

  /** A refresh token is redeemed at most once: after a success, presenting it again fails, whatever happened between,
      except after retention has deleted it and another token bears the same secret. */
  lemma {:induction false} RedeemedAtMostOnce(v: Vault, secret: nat, draw: Draw, now: int, events: seq<Event>,
                                              again: Draw, later: int)
    requires Refresh(v, secret, draw, now).answer.Ok?
    ensures var i, v' := FindFirst(v.refresh, WithSecret(secret)).value, RunFrom(Refresh(v, secret, draw, now).vault, events);
            && i < |v'.refresh|
            && (Refresh(v', secret, again, later).answer.Ok? ==>
                  v'.refresh[i].purged && exists k :: i < k < |v'.refresh| && WithSecret(secret)(v'.refresh[k]))
  {
    var start := Refresh(v, secret, draw, now).vault;
    var i, v' := FindFirst(v.refresh, WithSecret(secret)).value, RunFrom(start, events);
    RunPersists(start, events);
    forall k | 0 <= k <= i ensures SameToken(start.refresh[k], v'.refresh[k]) {
      assert v'.refresh[..|start.refresh|][k] == v'.refresh[k];
    }
    assert forall k :: 0 <= k < i ==> start.refresh[k] == v.refresh[k];
    assert forall k :: 0 <= k < i ==> !WithSecret(secret)(v'.refresh[k]);
    if Refresh(v', secret, again, later).answer.Ok? {
      var k := FindFirst(v'.refresh, WithSecret(secret)).value;
      assert k != i && WithSecret(secret)(v'.refresh[k]);
    }
  }

  /** In every run a lineage has at most one unrevoked token, its newest; a refresh adds to the lineage it came from. */
  lemma {:induction false} OnlyNewestOfLineageIsLive(events: seq<Event>, i: nat, j: nat)
    requires i < j < |RunFrom(Empty, events).refresh|
    ensures var r := RunFrom(Empty, events).refresh; r[i].origin == r[j].origin ==> r[i].revoked.Some?
  {
    RunKeepsRefresh(events);
  }

  /** However the clock runs. */
  lemma {:induction false} RunKeepsRefresh(events: seq<Event>)
    ensures RefreshOk(RunFrom(Empty, events).refresh)
  {
    if events != [] {
      var before, last := events[..|events| - 1], events[|events| - 1];
      RunKeepsRefresh(before);
      ServeKeepsRefresh(RunFrom(Empty, before), last.op, last.now);
    }
  }

  ghost predicate NoLiveToken(r: seq<RefreshToken>, u: Id) {
    forall i {:trigger r[i]} :: 0 <= i < |r| ==> !LiveTokenOf(u)(r[i])
  }

  /** Some token from position `from` on began a lineage of u. */
  ghost predicate NewSession(r: seq<RefreshToken>, start: nat, u: Id) {
    exists k :: start <= k < |r| && r[k].user == u && r[k].origin == k
  }

  lemma StaysLockedOut(v: Vault, op: Op, now: int, u: Id)
    requires NoLiveToken(v.refresh, u)
    ensures NoLiveToken(Serve(v, op, now).vault.refresh, u) || NewSession(Serve(v, op, now).vault.refresh, |v.refresh|, u)
  {
    var r, r' := v.refresh, Serve(v, op, now).vault.refresh;
    RefreshEffect(v, op, now);
    assert forall i :: 0 <= i < |r| ==> !LiveTokenOf(u)(r[i]);
    if MayStartSession(op) && |r'| == |r| + 1 && r'[|r|].user == u && r' == AddSession(r, u, op.draw) {
      assert NewSession(r', |r|, u);
    }
  }

  /** Replaying a rotated token after the grace period is refused and leaves the user without an unrevoked token,
      and that lasts until a new session is started. */
  lemma {:induction false} ReplayLocksOut(v: Vault, secret: nat, draw: Draw, now: int, events: seq<Event>)
    requires FindFirst(v.refresh, WithSecret(secret)).Some?
    requires ReplayedAfterGrace(v.refresh[FindFirst(v.refresh, WithSecret(secret)).value], now)
    ensures var u := v.refresh[FindFirst(v.refresh, WithSecret(secret)).value].user;
            var v' := Refresh(v, secret, draw, now).vault;
            && Refresh(v, secret, draw, now).answer == Err(InvalidToken)
            && NoLiveToken(v'.refresh, u)
            && (NoLiveToken(RunFrom(v', events).refresh, u) || NewSession(RunFrom(v', events).refresh, |v'.refresh|, u))
  {
    var u := v.refresh[FindFirst(v.refresh, WithSecret(secret)).value].user;
    LockedOutUntilNewSession(Refresh(v, secret, draw, now).vault, events, u);
  }

  lemma {:induction false} LockedOutUntilNewSession(v: Vault, events: seq<Event>, u: Id)
    requires NoLiveToken(v.refresh, u)
    ensures NoLiveToken(RunFrom(v, events).refresh, u) || NewSession(RunFrom(v, events).refresh, |v.refresh|, u)
  {
    if events != [] {
      var before, last := RunFrom(v, events[..|events| - 1]), events[|events| - 1];
      LockedOutUntilNewSession(v, events[..|events| - 1], u);
      RunPersists(v, events[..|events| - 1]);
      ServePersists(before, last.op, last.now);
      var r' := Serve(before, last.op, last.now).vault.refresh;
      if NoLiveToken(before.refresh, u) {
        StaysLockedOut(before, last.op, last.now, u);
      } else {
        var k :| |v.refresh| <= k < |before.refresh| && before.refresh[k].user == u && before.refresh[k].origin == k;
        assert r'[..|before.refresh|][k].origin == k;
      }
    }
  }

  // ---------------------------------------------------------------- artefacts and cases in every run

  /** In every run of both services a user has at most one open reset token, one open activation token and one
      open challenge per purpose, however the clock runs. */
  lemma {:induction false} AtMostOneUnusedPerKind(events: seq<Event>, i: nat, j: nat)
    requires i < j < |RunFrom(Empty, events).artifacts|
    ensures var a := RunFrom(Empty, events).artifacts;
            a[i].user == a[j].user && a[i].kind == a[j].kind ==> !Open(a[i]) || !Open(a[j])
  {
    RunKeepsArtifacts(events);
  }

  lemma {:induction false} RunKeepsArtifacts(events: seq<Event>)
    ensures ArtifactsOk(RunFrom(Empty, events).artifacts)
  {
    if events != [] {
      var before, last := events[..|events| - 1], events[|events| - 1];
      RunKeepsArtifacts(before);
      ServeKeepsArtifacts(RunFrom(Empty, before), last.op, last.now);
    }
  }

  /** In every run requester, reviewer and target of an executed case are three people, it was executed before it
      expired, and a target has at most one case that can still be executed. */
  lemma {:induction false} CasesInEveryRun(events: seq<Event>, i: nat, j: nat)
    requires InOrder(events) && events != [] && i < |RunFrom(Empty, events).cases| && j < |RunFrom(Empty, events).cases|
    ensures var c := RunFrom(Empty, events).cases[i];
            c.status == Executed ==>
              c.reviewer.Some? && c.requester != c.target && c.reviewer.value != c.requester && c.reviewer.value != c.target
              && c.executedAt.Some? && c.executedAt.value < c.expiresAt
    ensures var c, now := RunFrom(Empty, events).cases, events[|events| - 1].now;
            LivePending(c[i], now) && LivePending(c[j], now) && c[i].target == c[j].target ==> i == j
  {
    RunKeepsValid(events);
    var c := RunFrom(Empty, events).cases;
    assert CaseOk(c[i]);
    if i < j {
      var now := events[|events| - 1].now;
      assert c[i].target == c[j].target ==> !(LivePending(c[i], now) && LivePending(c[j], now));
    }
  }

  /** A settled case never changes again. */
  lemma SettledStays(v: Vault, op: Op, now: int, i: nat)
    requires i < |v.cases| && v.cases[i].status != Pending
    ensures i < |Serve(v, op, now).vault.cases| && Serve(v, op, now).vault.cases[i] == v.cases[i]
  {
  }

  lemma {:induction false} SettledStaysInRun(v: Vault, events: seq<Event>, i: nat)
    requires i < |v.cases| && v.cases[i].status != Pending
    ensures i < |RunFrom(v, events).cases| && RunFrom(v, events).cases[i] == v.cases[i]
  {
    if events != [] {
      SettledStaysInRun(v, events[..|events| - 1], i);
      SettledStays(RunFrom(v, events[..|events| - 1]), events[|events| - 1].op, events[|events| - 1].now, i);
    }
  }

  /** An approval cannot be replayed, whatever happens in between. */
  lemma {:induction false} ApprovedAtMostOnce(v: Vault, op: Op, now: int, events: seq<Event>, again: Op, later: int)
    requires op.ApproveRecoveryOp? && again.ApproveRecoveryOp? && again.c == op.c
    requires Serve(v, op, now).answer.Ok?
    ensures Serve(RunFrom(Serve(v, op, now).vault, events), again, later).answer.Err?
  {
    SettledStaysInRun(Serve(v, op, now).vault, events, op.c);
  }

  // ---------------------------------------------------------------- what an approval leaves the target

  function CodesOf(u: Id): BackupCode -> bool {
    (c: BackupCode) => c.user == u
  }

  /** Right after an approval the target has no live session, impersonation, backup code or MFA secret, and no unused
      artefact, except exactly one reset token when the case asks for a password reset. */
  lemma ApprovalWipesTarget(v: Vault, config: RecoveryConfig, actor: Id, c: Id, reason: string, admitted: bool,
                            draw: Draw, now: int)
    requires ApproveRecovery(v, config, actor, c, reason, admitted, draw, now).answer.Ok?
    ensures c < |v.cases| && v.cases[c].target in ApproveRecovery(v, config, actor, c, reason, admitted, draw, now).vault.users
    ensures var u, v' := v.cases[c].target, ApproveRecovery(v, config, actor, c, reason, admitted, draw, now).vault;
            && NoLiveToken(v'.refresh, u)
            && CountWhere(v'.impersonations, OpenInvolving(u)) == 0
            && CountWhere(v'.codes, CodesOf(u)) == 0
            && !v'.users[u].mfaEnabled && v'.users[u].mfaSecret == None && v'.users[u].mfaTempSecret == None
            && (if v.cases[c].kind == MfaReset then CountWhere(v'.artifacts, UnusedOf(u)) == 0
                else CountWhere(v'.artifacts, UnusedOf(u)) == 1
                     && v'.artifacts[|v'.artifacts| - 1] == Artifact(u, Reset, draw.secret, draw.expiresAt, None, false))
  {
    var u, v' := v.cases[c].target, ApproveRecovery(v, config, actor, c, reason, admitted, draw, now).vault;
    var used := UpdateWhere(v.artifacts, UnusedOf(u), Use(now));
    assert forall i :: 0 <= i < |used| ==> !UnusedOf(u)(used[i]);
    if v.cases[c].kind != MfaReset {
      CountOfOne(v'.artifacts, UnusedOf(u), |used|);
    }
    forall i | 0 <= i < |v'.codes| ensures !CodesOf(u)(v'.codes[i]) {
      FilterKeeps(v.codes, CodesOfOthers(u), v'.codes[i]);
    }
  }

  /** An approval touches nothing that belongs to anyone else. */
  lemma ApprovalSparesOthers(v: Vault, config: RecoveryConfig, actor: Id, c: Id, reason: string, admitted: bool,
                             draw: Draw, now: int)
    requires ApproveRecovery(v, config, actor, c, reason, admitted, draw, now).answer.Ok?
    ensures c < |v.cases|
    ensures var u, v' := v.cases[c].target, ApproveRecovery(v, config, actor, c, reason, admitted, draw, now).vault;
            && (forall x :: x in v.users && x != u ==> x in v'.users && v'.users[x] == v.users[x])
            && |v'.refresh| == |v.refresh|
            && (forall i :: 0 <= i < |v.refresh| && v.refresh[i].user != u ==> v'.refresh[i] == v.refresh[i])
            && |v'.artifacts| >= |v.artifacts|
            && (forall i :: 0 <= i < |v.artifacts| && v.artifacts[i].user != u ==> v'.artifacts[i] == v.artifacts[i])
            && (forall x :: x in v.codes && x.user != u ==> x in v'.codes)
            && (forall i :: 0 <= i < |v.cases| && i != c ==> v'.cases[i] == v.cases[i])
  {
    forall x | x in v.codes && x.user != v.cases[c].target ensures x in Filter(v.codes, CodesOfOthers(v.cases[c].target)) {
      FilterKeeps(v.codes, CodesOfOthers(v.cases[c].target), x);
    }
  }

  // ---------------------------------------------------------------- what has been issued works, once

  lemma {:induction false} RefreshOfFound(v: Vault, i: nat, secret: nat, draw: Draw, now: int)
    requires FindFirst(v.refresh, WithSecret(secret)) == Some(i) && i < |v.refresh|
    ensures var t := v.refresh[i];
            Refresh(v, secret, draw, now).answer.Ok?
            <==> t.revoked.None? && t.expiresAt > now && t.user in v.users && v.users[t.user].usable
  {
  }

  /** A token just issued by a sign-in can be redeemed, unless its secret was drawn before, its time is over or the
      user may not sign in. */
  lemma {:induction false} FreshSessionCanRefresh(v: Vault, u: Id, draw: Draw, now: int, next: Draw, later: int)
    requires u in v.users && !RequiresMfa(v.users[u])
    requires FindFirst(v.refresh, WithSecret(draw.secret)).None?
    ensures Refresh(SignIn(v, u, draw, now).vault, draw.secret, next, later).answer.Ok?
       <==> draw.expiresAt > later && v.users[u].usable
  {
    var t := RefreshToken(u, draw.secret, draw.expiresAt, None, |v.refresh|, false);
    var v' := v.(refresh := v.refresh + [t]);
    assert SignIn(v, u, draw, now).vault == v';
    FindFirstAppend(v.refresh, [t], WithSecret(draw.secret));
    assert v'.refresh[|v.refresh|] == t;
    RefreshOfFound(v', |v.refresh|, draw.secret, next, later);
  }

  /** Artefacts stay where they are, and a used one stays used. */
  ghost predicate ArtifactsPersist(a: seq<Artifact>, a': seq<Artifact>) {
    |a| <= |a'| && OnlyUses(a, a'[..|a|])
  }

  lemma {:induction false} ServePersistsArtifacts(v: Vault, op: Op, now: int)
    ensures ArtifactsPersist(v.artifacts, Serve(v, op, now).vault.artifacts)
  {
    var a, a' := v.artifacts, Serve(v, op, now).vault.artifacts;
    if !MayIssue(op) {
      OthersOnlyUse(v, op, now);
      assert a'[..|a|] == a';
    } else {
      IssuingPersists(v, op, now);
      forall i | 0 <= i < |a| ensures SameArtifact(a[i], a'[..|a|][i]) {
        assert a'[..|a|][i] == a'[i];
      }
    }
  }

  lemma {:induction false} IssuingPersists(v: Vault, op: Op, now: int)
    requires MayIssue(op)
    ensures Continues(v.artifacts, Serve(v, op, now).vault.artifacts)
  {
    match op
    case ActivateOp(secret, draw) => ActivatingPersists(v, secret, draw, now);
    case ApproveRecoveryOp(config, actor, c, reason, admitted, draw) =>
      ApprovingPersists(v, config, actor, c, reason, admitted, draw, now);
    case LoginOp(known, matches, lockout, admitted, draw) =>
    case RequestResetOp(known, admitted, draw) =>
    case CreateActivationOp(u, draw) =>
  }

  ghost predicate Continues(a: seq<Artifact>, a': seq<Artifact>) {
    |a| <= |a'| && forall i {:trigger a'[i]} :: 0 <= i < |a| ==> SameArtifact(a[i], a'[i])
  }

  lemma {:induction false} ActivatingPersists(v: Vault, secret: nat, draw: Draw, now: int)
    ensures Continues(v.artifacts, Activate(v, secret, draw, now).vault.artifacts)
  {
  }

  lemma {:induction false} ApprovingPersists(v: Vault, config: RecoveryConfig, actor: Id, c: Id, reason: string,
                                             admitted: bool, draw: Draw, now: int)
    ensures Continues(v.artifacts, ApproveRecovery(v, config, actor, c, reason, admitted, draw, now).vault.artifacts)
  {
  }

  lemma {:induction false} RunPersistsArtifacts(v: Vault, events: seq<Event>)
    ensures ArtifactsPersist(v.artifacts, RunFrom(v, events).artifacts)
  {
    if events == [] {
      assert v.artifacts[..|v.artifacts|] == v.artifacts;
    } else {
      var before, last := RunFrom(v, events[..|events| - 1]), events[|events| - 1];
      RunPersistsArtifacts(v, events[..|events| - 1]);
      ServePersistsArtifacts(before, last.op, last.now);
      PersistTransitive(v.artifacts, before.artifacts, Serve(before, last.op, last.now).vault.artifacts);
    }
  }

  lemma PersistTransitive(a: seq<Artifact>, b: seq<Artifact>, c: seq<Artifact>)
    requires ArtifactsPersist(a, b) && ArtifactsPersist(b, c)
    ensures ArtifactsPersist(a, c)
  {
    forall i | 0 <= i < |a|
      ensures SameArtifact(a[i], c[..|a|][i])
    {
      assert SameArtifact(a[i], b[..|a|][i]) && SameArtifact(b[i], c[..|b|][i]);
    }
  }

  /** The secret belongs to no reset token but the given one. */
  ghost predicate OnlyReset(a: seq<Artifact>, secret: nat, i: nat) {
    forall k :: 0 <= k < |a| && k != i ==> !(a[k].kind == Reset && a[k].secret == secret)
  }

  /** A requested reset works until it expires, whatever the user's other tokens are. */
  lemma {:induction false} FreshResetWorks(v: Vault, u: Id, draw: Draw, now: int, later: int)
    requires u in v.users && OnlyReset(v.artifacts, draw.secret, |v.artifacts|)
    ensures var v' := RequestReset(v, Some(u), true, draw, now).vault;
            CompleteReset(v', draw.secret, later).answer.Ok? <==> draw.expiresAt > later
  {
    var a' := RequestReset(v, Some(u), true, draw, now).vault.artifacts;
    var i := |v.artifacts|;
    assert a'[i] == Artifact(u, Reset, draw.secret, draw.expiresAt, None, false);
    forall k | 0 <= k < i ensures !Redeemable(Reset, draw.secret, later)(a'[k]) {
      assert a'[k].kind == v.artifacts[k].kind && a'[k].secret == v.artifacts[k].secret;
    }
    if draw.expiresAt > later {
      assert Redeemable(Reset, draw.secret, later)(a'[i]);
    }
  }

  /** A reset token works at most once: whatever happens in between, as long as its secret is not drawn again. */
  lemma {:induction false} ResetWorksOnce(v: Vault, secret: nat, now: int, events: seq<Event>, later: int)
    requires CompleteReset(v, secret, now).answer.Ok?
    requires var i := FindFirst(v.artifacts, Redeemable(Reset, secret, now)).value;
             OnlyReset(RunFrom(CompleteReset(v, secret, now).vault, events).artifacts, secret, i)
    ensures CompleteReset(RunFrom(CompleteReset(v, secret, now).vault, events), secret, later).answer == Err(InvalidToken)
  {
    var i := FindFirst(v.artifacts, Redeemable(Reset, secret, now)).value;
    var v' := CompleteReset(v, secret, now).vault;
    var a := RunFrom(v', events).artifacts;
    RunPersistsArtifacts(v', events);
    assert SameArtifact(v'.artifacts[i], a[..|v'.artifacts|][i]);
    assert a[i].usedAt.Some?;
    assert forall k :: 0 <= k < |a| ==> !Redeemable(Reset, secret, later)(a[k]);
  }

  /** After a reset the user has no live session. */
  lemma ResetEndsSessions(v: Vault, secret: nat, now: int)
    requires CompleteReset(v, secret, now).answer.Ok?
    ensures NoLiveToken(CompleteReset(v, secret, now).vault.refresh, CompleteReset(v, secret, now).answer.value)
  {
  }

  /** A requested case is approved by any second active administrator of the organisation who is not its target, gives
      a reason and is admitted by the limiter, until it expires; a notification channel is needed unless only MFA is
      reset. */
  lemma {:induction false} RequestedCaseCanBeApproved(
    v: Vault, config: RecoveryConfig, requester: Id, target: Id, kind: RecoveryType, reason: string, now: int,
    reviewer: Id, note: string, draw: Draw, later: int)
    requires RequestRecovery(v, config, requester, target, kind, reason, true, now).answer.Ok?
    requires Actor(v, reviewer).Some? && Actor(v, reviewer) == Actor(v, requester) && GoodReason(note)
    ensures var asked := RequestRecovery(v, config, requester, target, kind, reason, true, now);
            ApproveRecovery(asked.vault, config, reviewer, asked.answer.value, note, true, draw, later).answer.Ok? <==>
              later < now + config.caseTtlMs && reviewer != requester && reviewer != target
              && (kind == MfaReset || config.webhook)
  {
  }

  /** Break-glass recovery asks nothing of the role of its target. */
  lemma {:induction false} BreakGlassIgnoresRole(v: Vault, config: RecoveryConfig, actor: Id, target: Id, role: Role,
                                                 reason: string, admitted: bool, now: int)
    requires actor != target && target in v.users
    ensures var other := v.(users := v.users[target := v.users[target].(role := role)]);
            RequestRecovery(other, config, actor, target, BreakGlass, reason, admitted, now).answer
            == RequestRecovery(v, config, actor, target, BreakGlass, reason, admitted, now).answer
  {
  }

  // ---------------------------------------------------------------- what cleanups change

  ghost predicate DistinctSecrets(r: seq<RefreshToken>) {
    forall i, j {:trigger r[i].secret, r[j].secret} :: 0 <= i < j < |r| ==> r[i].secret != r[j].secret
  }

  lemma {:induction false} RefreshAnswer(v: Vault, i: nat, secret: nat, draw: Draw, now: int)
    requires DistinctSecrets(v.refresh) && i < |v.refresh| && v.refresh[i].secret == secret
    ensures var t := v.refresh[i];
            Refresh(v, secret, draw, now).answer
            == if t.purged || t.revoked.Some? || t.expiresAt <= now || t.user !in v.users || !v.users[t.user].usable
               then Err(InvalidToken) else Ok(|v.refresh|)
    ensures v.refresh[i].purged ==> Refresh(v, secret, draw, now).vault == v
  {
    assert forall k :: 0 <= k < |v.refresh| && k != i ==> v.refresh[k].secret != secret;
    if !v.refresh[i].purged {
      assert WithSecret(secret)(v.refresh[i]);
    }
  }

  /** A cleanup changes the answer to no later refresh. */
  lemma {:induction false} CleanupKeepsRefresh(v: Vault, tokens: set<Id>, used: set<Id>, spent: set<BackupCode>, now: int,
                                               secret: nat, draw: Draw, later: int)
    requires DistinctSecrets(v.refresh) && now <= later
    ensures Refresh(Purge(v, tokens, used, spent, now).vault, secret, draw, later).answer
         == Refresh(v, secret, draw, later).answer
  {
    var r' := PurgeTokens(v.refresh, tokens, now);
    assert forall k :: 0 <= k < |r'| ==> r'[k].secret == v.refresh[k].secret;
    if i :| 0 <= i < |v.refresh| && v.refresh[i].secret == secret {
      RefreshAnswer(v, i, secret, draw, later);
      RefreshAnswer(Purge(v, tokens, used, spent, now).vault, i, secret, draw, later);
    }
  }

  lemma {:induction false} CleanupKeepsRedeemable(a: seq<Artifact>, used: set<Id>, now: int, kind: Kind, secret: nat,
                                                  later: int)
    requires now <= later
    ensures FindFirst(PurgeArtifacts(a, used, now), Redeemable(kind, secret, later))
         == FindFirst(a, Redeemable(kind, secret, later))
  {
    if a != [] {
      var n := |a| - 1;
      CleanupKeepsRedeemable(a[..n], used, now, kind, secret, later);
      assert PurgeArtifacts(a, used, now)[..n] == PurgeArtifacts(a[..n], used, now);
    }
  }

  /** Nor the answer to a later reset. */
  lemma {:induction false} CleanupKeepsReset(v: Vault, tokens: set<Id>, used: set<Id>, spent: set<BackupCode>, now: int,
                                             secret: nat, later: int)
    requires now <= later
    ensures CompleteReset(Purge(v, tokens, used, spent, now).vault, secret, later).answer
         == CompleteReset(v, secret, later).answer
  {
    CleanupKeepsRedeemable(v.artifacts, used, now, Reset, secret, later);
  }

  /** But replaying a rotated token after the grace period revokes the user's sessions exactly until a cleanup has
      deleted that token. */
  lemma {:induction false} ReplayIsNoticedUntilCleanup(v: Vault, i: nat, secret: nat, draw: Draw, now: int)
    requires DistinctSecrets(v.refresh) && i < |v.refresh| && v.refresh[i].secret == secret
    requires ReplayedAfterGrace(v.refresh[i], now)
    ensures var reply := Refresh(v, secret, draw, now);
            && reply.answer == Err(InvalidToken)
            && (!v.refresh[i].purged ==> NoLiveToken(reply.vault.refresh, v.refresh[i].user))
            && (v.refresh[i].purged ==> reply.vault == v)
  {
    RefreshAnswer(v, i, secret, draw, now);
    assert forall k :: 0 <= k < |v.refresh| && k != i ==> v.refresh[k].secret != secret;
    if !v.refresh[i].purged {
      assert WithSecret(secret)(v.refresh[i]);
      assert FindFirst(v.refresh, WithSecret(secret)) == Some(i);
      ReplayLocksOut(v, secret, draw, now, []);
    }
  }

  /** And a cleanup may delete it as soon as it was rotated. */
  lemma {:induction false} CleanupHidesReplay(v: Vault, i: nat, secret: nat, now: int, draw: Draw, later: int)
    requires DistinctSecrets(v.refresh) && i < |v.refresh| && v.refresh[i].secret == secret
    requires v.refresh[i].revoked.Some? && ReplayedAfterGrace(v.refresh[i], later)
    ensures var v' := Purge(v, {i}, {}, {}, now).vault;
            Refresh(v', secret, draw, later) == Reply(v', Err(InvalidToken))
  {
    var v' := Purge(v, {i}, {}, {}, now).vault;
    assert forall k :: 0 <= k < |v.refresh| ==> v'.refresh[k].secret == v.refresh[k].secret;
    assert v'.refresh[i].purged;
    ReplayIsNoticedUntilCleanup(v', i, secret, draw, later);
  }

  // ---------------------------------------------------------------- lockout

  predicate WrongPassword(e: Event, u: Id, lockout: Lockout) {
    e.op.LoginOp? && e.op.known == Some(u) && !e.op.matches && e.op.lockout == lockout && e.op.admitted
  }

  /** Wrong passwords in a row take an account out of use exactly when their number reaches the threshold. */
  lemma {:induction false} WrongPasswordsLock(v: Vault, u: Id, lockout: Lockout, events: seq<Event>)
    requires u in v.users && v.users[u].usable && v.users[u].failedLogins == 0 && v.users[u].lockedUntil.None?
    requires forall k :: 0 <= k < |events| ==> WrongPassword(events[k], u, lockout)
    ensures u in RunFrom(v, events).users
    ensures var user := RunFrom(v, events).users[u];
            && (user.usable <==> events == [] || |events| < lockout.threshold)
            && (user.usable ==> user.failedLogins == |events| && user.lockedUntil.None?)
  {
    if events != [] {
      WrongPasswordsLock(v, u, lockout, events[..|events| - 1]);
      assert WrongPassword(events[|events| - 1], u, lockout);
    }
  }

  /** A reset, an activation, or a change made elsewhere. */
  predicate Reopens(v: Vault, op: Op, u: Id, now: int) {
    match op
    case CompleteResetOp(secret) => Redeems(v, Redeemable(Reset, secret, now), u)
    case ActivateOp(secret, _) => Redeems(v, Redeemable(Activation, secret, now), u)
    case ChangeUserOp(x, _) => x == u
    case _ => false
  }

  predicate Redeems(v: Vault, p: Artifact -> bool, u: Id) {
    FindFirst(v.artifacts, p).Some? && v.artifacts[FindFirst(v.artifacts, p).value].user == u
  }

  predicate Closed(v: Vault, u: Id) {
    u in v.users && !v.users[u].usable
  }

  lemma {:induction false} StaysClosed(v: Vault, op: Op, now: int, u: Id)
    requires Closed(v, u) && !Reopens(v, op, u, now)
    ensures Closed(Serve(v, op, now).vault, u)
  {
  }

  lemma {:induction false} StaysClosedInRun(v: Vault, events: seq<Event>, u: Id)
    requires Closed(v, u)
    requires forall k :: 0 <= k < |events| ==> !Reopens(RunFrom(v, events[..k]), events[k].op, u, events[k].now)
    ensures Closed(RunFrom(v, events), u)
  {
    if events != [] {
      var n := |events| - 1;
      forall k | 0 <= k < n
        ensures !Reopens(RunFrom(v, events[..n][..k]), events[..n][k].op, u, events[..n][k].now)
      {
        assert events[..n][..k] == events[..k];
      }
      StaysClosedInRun(v, events[..n], u);
      StaysClosed(RunFrom(v, events[..n]), events[n].op, events[n].now, u);
    }
  }

  /** The failed login that reaches the threshold refuses the account for good: until a reset, an activation or a
      change made elsewhere reopens it, every login fails, with the right password too, and however much later. */
  lemma {:induction false} LockOutlastsItsTime(v: Vault, u: Id, lockout: Lockout, draw: Draw, now: int,
                                               events: seq<Event>, again: Event)
    requires LoginRefusal(v, Some(u), now).None? && v.users[u].failedLogins + 1 >= lockout.threshold
    requires var v' := Login(v, Some(u), false, lockout, true, draw, now).vault;
             forall k :: 0 <= k < |events| ==> !Reopens(RunFrom(v', events[..k]), events[k].op, u, events[k].now)
    requires again.op.LoginOp? && again.op.known == Some(u)
    ensures var v' := RunFrom(Login(v, Some(u), false, lockout, true, draw, now).vault, events);
            Serve(v', again.op, again.now).answer
            == Err(if again.op.admitted then InvalidCredentials else TooManyAttempts)
  {
    StaysClosedInRun(Login(v, Some(u), false, lockout, true, draw, now).vault, events, u);
  }

  /** A completed reset reopens the account at once. */
  lemma {:induction false} ResetReopens(v: Vault, secret: nat, now: int, lockout: Lockout, draw: Draw, later: int)
    requires CompleteReset(v, secret, now).answer.Ok?
    ensures var r := CompleteReset(v, secret, now);
            Login(r.vault, Some(r.answer.value), true, lockout, true, draw, later).answer.Ok?
  {
  }
}
