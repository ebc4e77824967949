/** The diagnostics that the mobile queue keeps per visit: a log of transitions that is pruned, by age and
    by length, on every transition. Times are milliseconds. */
module SyncDiagnostics {
  import opened Common

  datatype Status = Pending | Syncing | Synced | Failed | Conflict

  datatype DependencyState = Offline | Reachable | AuthRequired | ServerRejected | ConflictReview

  datatype ErrorCategory =
    | Network | Authentication | Authorization | Validation | RateLimited | Server | ConflictError | Unknown

  datatype Transition = Transition(
    at: int, status: Status, errorCategory: Option<ErrorCategory>, dependencyState: DependencyState,
    serverAcknowledged: bool)

  datatype Diagnostics = Diagnostics(
    retryCount: nat, lastAttemptAt: Option<int>, lastErrorCategory: Option<ErrorCategory>,
    dependencyState: DependencyState, serverAcknowledged: bool, transitions: seq<Transition>)

  datatype QueuedVisit = QueuedVisit(syncStatus: Status, diagnostics: Diagnostics)

  datatype Policy = Policy(maxTransitions: int, retentionDays: int)

  /** An error carries its HTTP status, zero when there was no response. */
  datatype Input = Input(at: int, isOnline: Option<bool>, error: Option<int>, serverAcknowledged: Option<bool>)

  function ConfiguredPolicy(maxTransitions: Option<int>, retentionDays: Option<int>): (policy: Policy)
    ensures Bounded(policy)
    ensures maxTransitions.None? ==> policy.maxTransitions == 12
    ensures maxTransitions.Some? && 3 <= maxTransitions.value <= 50 ==> policy.maxTransitions == maxTransitions.value
    ensures retentionDays.None? ==> policy.retentionDays == 14
    ensures retentionDays.Some? && 1 <= retentionDays.value <= 90 ==> policy.retentionDays == retentionDays.value
  {
    Policy(ClampedInteger(maxTransitions, 12, 3, 50), ClampedInteger(retentionDays, 14, 1, 90))
  }

  predicate Bounded(policy: Policy) {
    3 <= policy.maxTransitions <= 50 && 1 <= policy.retentionDays <= 90
  }

  function CreateQueueDiagnostics(at: int, isOnline: bool): Diagnostics {
    var dependencyState := if isOnline then Reachable else Offline;
    Diagnostics(0, None, None, dependencyState, false, [Transition(at, Pending, None, dependencyState, false)])
  }

  function ClassifySyncError(status: int): ErrorCategory {
    if status == 0 then Network
    else if status == 401 then Authentication
    else if status == 403 then Authorization
    else if status == 409 then ConflictError
    else if status == 429 then RateLimited
    else if 400 <= status < 500 then Validation
    else if status >= 500 then Server
    else Unknown
  }

  function DependencyFor(category: ErrorCategory): DependencyState {
    if category == Network then Offline
    else if category == Authentication then AuthRequired
    else if category == ConflictError then ConflictReview
    else ServerRejected
  }

  function Cutoff(now: int, policy: Policy): int {
    now - policy.retentionDays * 86_400_000
  }

  function RecentAt(cutoff: int): Transition -> bool {
    (t: Transition) => t.at >= cutoff
  }

  /** The last n entries, or all of them when there are fewer. */
  function LastOf<T>(s: seq<T>, n: nat): seq<T> {
    if |s| <= n then s else s[|s| - n..]
  }

  function PruneTransitions(transitions: seq<Transition>, now: int, policy: Policy): seq<Transition>
    requires Bounded(policy)
  {
    LastOf(Filter(transitions, RecentAt(Cutoff(now, policy))), policy.maxTransitions)
  }

  /** What one step records. */
  function Recorded(status: Status, input: Input): Transition {
    var category := match input.error case None => None case Some(code) => Some(ClassifySyncError(code));
    var dependencyState := if category.Some? then DependencyFor(category.value)
                           else if input.isOnline == Some(false) then Offline else Reachable;
    var acknowledged := match input.serverAcknowledged
                        case Some(b) => b
                        case None => input.error.Some? && input.error.value > 0;
    Transition(input.at, status, category, dependencyState, acknowledged)
  }

  function TransitionQueuedVisit(item: QueuedVisit, status: Status, input: Input, policy: Policy): QueuedVisit
    requires Bounded(policy)
  {
    var d := item.diagnostics;
    var step := Recorded(status, input);
    QueuedVisit(status, Diagnostics(
      d.retryCount + (if status == Syncing then 1 else 0),
      if status == Syncing then Some(input.at) else d.lastAttemptAt,
      if step.errorCategory.Some? then step.errorCategory else if status == Syncing then None else d.lastErrorCategory,
      step.dependencyState,
      step.serverAcknowledged,
      PruneTransitions(d.transitions + [step], input.at, policy)))
  }

  // ---------------------------------------------------------------- runs of transitions

  datatype Step = Step(status: Status, input: Input)

  function Run(created: int, isOnline: bool, steps: seq<Step>, policy: Policy): QueuedVisit
    requires Bounded(policy)
  {
    if steps == [] then QueuedVisit(Pending, CreateQueueDiagnostics(created, isOnline))
    else
      var last := steps[|steps| - 1];
      TransitionQueuedVisit(Run(created, isOnline, steps[..|steps| - 1], policy), last.status, last.input, policy)
  }

  /** Everything that ever happened to the visit, unpruned. */
  function History(created: int, isOnline: bool, steps: seq<Step>): seq<Transition> {
    if steps == [] then CreateQueueDiagnostics(created, isOnline).transitions
    else
      History(created, isOnline, steps[..|steps| - 1]) + [Recorded(steps[|steps| - 1].status, steps[|steps| - 1].input)]
  }

  function Latest(created: int, steps: seq<Step>): int {
    if steps == [] then created else steps[|steps| - 1].input.at
  }

  predicate Sorted(log: seq<Transition>) {
    forall i, j :: 0 <= i < j < |log| ==> log[i].at <= log[j].at
  }

  predicate Nondecreasing(created: int, steps: seq<Step>) {
    forall i :: 0 <= i < |steps| ==> Latest(created, steps[..i]) <= steps[i].input.at
  }

  /** The entry from which on a sorted log is recent. */
  function FirstRecent(log: seq<Transition>, cutoff: int): (k: nat)
    requires Sorted(log)
    ensures k <= |log|
    ensures forall i :: 0 <= i < |log| ==> (log[i].at >= cutoff <==> i >= k)
  {
    if log == [] then 0
    else
      var n := |log| - 1;
      assert forall i :: 0 <= i < n ==> log[..n][i] == log[i];
      var k := FirstRecent(log[..n], cutoff);
      assert k < n ==> log[k].at <= log[n].at;
      if k < n || log[n].at >= cutoff then k else |log|
  }

  /** Filtering a sorted log by age drops a prefix. */
  lemma RecentIsSuffix(log: seq<Transition>, cutoff: int)
    requires Sorted(log)
    ensures Filter(log, RecentAt(cutoff)) == log[FirstRecent(log, cutoff)..]
  {
    var k := FirstRecent(log, cutoff);
    FilterAppend(log[..k], log[k..], RecentAt(cutoff));
    assert log[..k] + log[k..] == log;
    FilterNone(log[..k], RecentAt(cutoff));
    FilterAll(log[k..], RecentAt(cutoff));
  }

  /** Where the part of a sorted log begins that pruning keeps. */
  function PruneStart(log: seq<Transition>, now: int, policy: Policy): (k: nat)
    requires Bounded(policy) && Sorted(log)
    ensures k <= |log|
  {
    var k := FirstRecent(log, Cutoff(now, policy));
    if |log| - k <= policy.maxTransitions then k else |log| - policy.maxTransitions
  }

  lemma PruneIsSuffix(log: seq<Transition>, now: int, policy: Policy)
    requires Bounded(policy) && Sorted(log)
    ensures PruneTransitions(log, now, policy) == log[PruneStart(log, now, policy)..]
  {
    RecentIsSuffix(log, Cutoff(now, policy));
  }

  lemma FirstRecentOfSuffix(log: seq<Transition>, s: nat, cutoff: int)
    requires Sorted(log) && s <= |log|
    ensures FirstRecent(log[s..], cutoff) == if FirstRecent(log, cutoff) <= s then 0 else FirstRecent(log, cutoff) - s
  {
    var k, k' := FirstRecent(log, cutoff), FirstRecent(log[s..], cutoff);
    assert forall i :: 0 <= i < |log| - s ==> log[s..][i] == log[s + i];
    assert k' < |log| - s ==> log[s + k'].at >= cutoff;
    assert k' > 0 ==> log[s + k' - 1].at < cutoff;
  }

  /** Pruning early loses nothing that pruning once at the end would keep. */
  lemma PruneTwice(log: seq<Transition>, step: Transition, before: int, policy: Policy)
    requires Bounded(policy) && Sorted(log + [step]) && before <= step.at
    ensures Sorted(log)
    ensures PruneTransitions(PruneTransitions(log, before, policy) + [step], step.at, policy)
         == PruneTransitions(log + [step], step.at, policy)
  {
    var full := log + [step];
    assert forall i :: 0 <= i < |log| ==> log[i] == full[i];
    var s := PruneStart(log, before, policy);
    PruneIsSuffix(log, before, policy);
    assert log[s..] + [step] == full[s..];
    RecentStartsNoEarlier(log, step, before, policy);
    PruneOfSuffix(full, s, step.at, policy);
  }

  /** Dropping a prefix that pruning would drop anyway makes no difference. */
  lemma PruneOfSuffix(log: seq<Transition>, s: nat, now: int, policy: Policy)
    requires Bounded(policy) && Sorted(log) && s <= PruneStart(log, now, policy)
    ensures PruneTransitions(log[s..], now, policy) == PruneTransitions(log, now, policy)
  {
    PruneIsSuffix(log, now, policy);
    PruneIsSuffix(log[s..], now, policy);
    FirstRecentOfSuffix(log, s, Cutoff(now, policy));
    assert log[s..][PruneStart(log[s..], now, policy)..] == log[PruneStart(log, now, policy)..];
  }

  lemma RecentStartsNoEarlier(log: seq<Transition>, step: Transition, before: int, policy: Policy)
    requires Sorted(log) && Sorted(log + [step]) && before <= step.at
    ensures FirstRecent(log, Cutoff(before, policy)) <= FirstRecent(log + [step], Cutoff(step.at, policy))
  {
    var k := FirstRecent(log + [step], Cutoff(step.at, policy));
    if k < |log| {
      assert (log + [step])[k] == log[k];
    }
  }

  lemma {:induction false} HistoryIsSorted(created: int, isOnline: bool, steps: seq<Step>)
    requires Nondecreasing(created, steps)
    ensures Sorted(History(created, isOnline, steps))
    ensures History(created, isOnline, steps) != []
    ensures History(created, isOnline, steps)[|History(created, isOnline, steps)| - 1].at == Latest(created, steps)
  {
    if steps != [] {
      ShorterIsNondecreasing(created, steps);
      HistoryIsSorted(created, isOnline, steps[..|steps| - 1]);
    }
  }

  lemma ShorterIsNondecreasing(created: int, steps: seq<Step>)
    requires steps != [] && Nondecreasing(created, steps)
    ensures Nondecreasing(created, steps[..|steps| - 1])
    ensures Latest(created, steps[..|steps| - 1]) <= steps[|steps| - 1].input.at
  {
    var shorter := steps[..|steps| - 1];
    forall i | 0 <= i < |shorter| ensures Latest(created, shorter[..i]) <= shorter[i].input.at {
      assert shorter[..i] == steps[..i];
    }
  }

  /** As long as the clock does not run backwards, the log that is pruned on every transition equals the whole
      history pruned once, at the latest time. */
  lemma {:induction false} IncrementalPruningIsOnePruning(created: int, isOnline: bool, steps: seq<Step>, policy: Policy)
    requires Bounded(policy) && Nondecreasing(created, steps)
    ensures Run(created, isOnline, steps, policy).diagnostics.transitions
         == PruneTransitions(History(created, isOnline, steps), Latest(created, steps), policy)
  {
    var history := History(created, isOnline, steps);
    if steps == [] {
      FilterAll(history, RecentAt(Cutoff(created, policy)));
    } else {
      var before, last := steps[..|steps| - 1], steps[|steps| - 1];
      ShorterIsNondecreasing(created, steps);
      IncrementalPruningIsOnePruning(created, isOnline, before, policy);
      HistoryIsSorted(created, isOnline, steps);
      PruneTwice(History(created, isOnline, before), Recorded(last.status, last.input), Latest(created, before), policy);
    }
  }

  /** After any transition, whatever the clock did, the log is not empty, is within its cap, and ends in the step
      just taken, whose status is the visit's. */
  lemma LogEndsInCurrentStatus(item: QueuedVisit, status: Status, input: Input, policy: Policy)
    requires Bounded(policy)
    ensures var item' := TransitionQueuedVisit(item, status, input, policy);
            var log := item'.diagnostics.transitions;
            1 <= |log| <= policy.maxTransitions && log[|log| - 1] == Recorded(status, input)
            && log[|log| - 1].status == item'.syncStatus
  {
    var step := Recorded(status, input);
    FilterAppend(item.diagnostics.transitions, [step], RecentAt(Cutoff(input.at, policy)));
    FilterAll([step], RecentAt(Cutoff(input.at, policy)));
  }

  function IsSyncing(): Step -> bool {
    (s: Step) => s.status == Syncing
  }

  /** Pruning never costs a retry: the count is the number of syncing steps ever taken. */
  lemma {:induction false} RetryCountsSyncingSteps(created: int, isOnline: bool, steps: seq<Step>, policy: Policy)
    requires Bounded(policy)
    ensures Run(created, isOnline, steps, policy).diagnostics.retryCount == CountWhere(steps, IsSyncing())
  {
    if steps != [] {
      RetryCountsSyncingSteps(created, isOnline, steps[..|steps| - 1], policy);
    }
  }

  // ---------------------------------------------------------------- what a step writes and pruning keeps

  /** Pruning keeps the entries that are at most the retention days old, and of those the last ones up to the cap. */
  lemma {:induction false} PruningKeepsDays(log: seq<Transition>, now: int, policy: Policy, entry: Transition)
    requires Bounded(policy)
    ensures entry in PruneTransitions(log, now, policy) ==>
              entry in log && now - entry.at <= policy.retentionDays * 24 * 60 * 60 * 1000
    ensures |log| <= policy.maxTransitions && entry in log && now - entry.at <= policy.retentionDays * 24 * 60 * 60 * 1000
            ==> entry in PruneTransitions(log, now, policy)
  {
    var recent := Filter(log, RecentAt(Cutoff(now, policy)));
    FilterKeeps(log, RecentAt(Cutoff(now, policy)), entry);
    FilterCounts(log, RecentAt(Cutoff(now, policy)));
    CountIsBounded(log, RecentAt(Cutoff(now, policy)));
  }

  lemma {:induction false} CountIsBounded<T>(rows: seq<T>, p: T -> bool)
    ensures CountWhere(rows, p) <= |rows|
  {
    if rows != [] {
      CountIsBounded(rows[..|rows| - 1], p);
    }
  }

  /** What the status of a failed request tells about the error, and that about the dependency. */
  lemma {:induction false} ClassificationMeans(status: int)
    ensures var category := ClassifySyncError(status);
            && (category == Network <==> status == 0) && (category == Authentication <==> status == 401)
            && (category == Authorization <==> status == 403) && (category == ConflictError <==> status == 409)
            && (category == RateLimited <==> status == 429) && (category == Server <==> status >= 500)
            && (category == Validation <==> 400 <= status < 500 && status !in {401, 403, 409, 429})
            && (DependencyFor(category) == Offline <==> status == 0)
            && (DependencyFor(category) == AuthRequired <==> status == 401)
            && (DependencyFor(category) == ConflictReview <==> status == 409)
            && DependencyFor(category) != Reachable
  {
  }

  /** A new visit is pending, was never attempted, and its log has the one entry of its creation. */
  lemma NewVisitIsPending(created: int, isOnline: bool, policy: Policy)
    requires Bounded(policy)
    ensures var item := Run(created, isOnline, [], policy);
            && item.syncStatus == Pending && item.diagnostics.retryCount == 0 && item.diagnostics.lastAttemptAt.None?
            && item.diagnostics.lastErrorCategory.None? && !item.diagnostics.serverAcknowledged
            && item.diagnostics.dependencyState == (if isOnline then Reachable else Offline)
            && |item.diagnostics.transitions| == 1
            && var entry := item.diagnostics.transitions[0];
               && entry.at == created && entry.status == Pending && entry.errorCategory.None?
               && entry.dependencyState == item.diagnostics.dependencyState && !entry.serverAcknowledged
  {
  }

  /** A step sets the visit's status, counts and dates attempts to sync, keeps the last error until the next attempt, and
      logs what it saw: the error and its dependency, or else whether the device was online; a response, even one with an
      error, acknowledges unless the caller says otherwise. */
  lemma {:induction false} StepWrites(item: QueuedVisit, status: Status, input: Input, policy: Policy)
    requires Bounded(policy)
    ensures var before, after := item.diagnostics, TransitionQueuedVisit(item, status, input, policy).diagnostics;
            var log := after.transitions;
            && TransitionQueuedVisit(item, status, input, policy).syncStatus == status
            && after.retryCount == before.retryCount + (if status == Syncing then 1 else 0)
            && after.lastAttemptAt == (if status == Syncing then Some(input.at) else before.lastAttemptAt)
            && after.lastErrorCategory == (if input.error.Some? then Some(ClassifySyncError(input.error.value))
                                           else if status == Syncing then None else before.lastErrorCategory)
            && after.dependencyState == (if input.error.Some? then DependencyFor(ClassifySyncError(input.error.value))
                                         else if input.isOnline == Some(false) then Offline else Reachable)
            && after.serverAcknowledged == (if input.serverAcknowledged.Some? then input.serverAcknowledged.value
                                            else input.error.Some? && input.error.value > 0)
            && log != [] && log[|log| - 1]
               == Transition(input.at, status,
                             if input.error.Some? then Some(ClassifySyncError(input.error.value)) else None,
                             after.dependencyState, after.serverAcknowledged)
  {
    LogEndsInCurrentStatus(item, status, input, policy);
  }

  // ---------------------------------------------------------------- when early pruning loses something

  /** Of a log whose first s entries are gone, pruning makes the same as of the whole log if and only if the cap is
      filled without them or none of them is recent. */
  lemma {:induction false} DroppedEntriesMatter(log: seq<Transition>, s: nat, step: Transition, now: int, policy: Policy)
    requires Bounded(policy) && s <= |log| && step.at >= Cutoff(now, policy)
    ensures PruneTransitions(log[s..] + [step], now, policy) == PruneTransitions(log + [step], now, policy) <==>
              || |Filter(log[s..], RecentAt(Cutoff(now, policy)))| >= policy.maxTransitions - 1
              || Filter(log[..s], RecentAt(Cutoff(now, policy))) == []
  {
    var p := RecentAt(Cutoff(now, policy));
    var gone, kept := Filter(log[..s], p), Filter(log[s..], p);
    FilterAll([step], p);
    FilterAppend(log[s..], [step], p);
    FilterAppend(log[..s], log[s..] + [step], p);
    assert log + [step] == log[..s] + (log[s..] + [step]);
    LastOfLonger(gone, kept + [step], policy.maxTransitions);
  }

  lemma LastOfLonger(front: seq<Transition>, rest: seq<Transition>, n: nat)
    ensures LastOf(rest, n) == LastOf(front + rest, n) <==> |rest| >= n || front == []
  {
    if front == [] {
      assert front + rest == rest;
    } else if |rest| >= n {
      assert (front + rest)[|front + rest| - n..] == rest[|rest| - n..];
    } else {
      assert |LastOf(rest, n)| < |LastOf(front + rest, n)|;
    }
  }

  /** Filtering by a later cutoff makes an earlier filter by age superfluous. */
  lemma {:induction false} LaterCutoffDecides(log: seq<Transition>, early: int, late: int)
    requires early <= late
    ensures Filter(Filter(log, RecentAt(early)), RecentAt(late)) == Filter(log, RecentAt(late))
  {
    if log != [] {
      var n := |log| - 1;
      LaterCutoffDecides(log[..n], early, late);
      var shorter := Filter(log[..n], RecentAt(early));
      if RecentAt(early)(log[n]) {
        FilterOneMore(shorter, log[n], RecentAt(late));
        assert Filter(log, RecentAt(early)) == shorter + [log[n]];
      } else {
        assert Filter(log, RecentAt(early)) == shorter;
      }
    }
  }

  /** The entries that the cap costs a log when it is pruned. */
  function CappedOff(log: seq<Transition>, now: int, policy: Policy): seq<Transition>
    requires Bounded(policy)
  {
    var recent := Filter(log, RecentAt(Cutoff(now, policy)));
    if |recent| <= policy.maxTransitions then [] else recent[..|recent| - policy.maxTransitions]
  }

  /** Pruning early, in a log of any order, loses nothing of what pruning at a later time would keep, if and only if
      what it keeps fills the cap then, or the cap has cost no entry that is still recent then. */
  lemma {:induction false} PruneTwiceExactly(log: seq<Transition>, step: Transition, before: int, policy: Policy)
    requires Bounded(policy) && before <= step.at
    ensures (PruneTransitions(PruneTransitions(log, before, policy) + [step], step.at, policy)
             == PruneTransitions(log + [step], step.at, policy)) <==>
              var recent := RecentAt(Cutoff(step.at, policy));
              || |Filter(PruneTransitions(log, before, policy), recent)| >= policy.maxTransitions - 1
              || Filter(CappedOff(log, before, policy), recent) == []
  {
    var early, late := Cutoff(before, policy), Cutoff(step.at, policy);
    var aged := Filter(log, RecentAt(early));
    var s := if |aged| <= policy.maxTransitions then 0 else |aged| - policy.maxTransitions;
    LaterCutoffDecides(log, early, late);
    FilterAppend(log, [step], RecentAt(late));
    FilterAppend(aged, [step], RecentAt(late));
    assert PruneTransitions(log, before, policy) == aged[s..] && CappedOff(log, before, policy) == aged[..s];
    DroppedEntriesMatter(aged, s, step, step.at, policy);
  }

  /** So in a run: while the log is one pruning of the history, a step no earlier than the one before keeps it so if and
      only if the log fills the cap or no entry that the cap has cost is recent. */
  lemma {:induction false} StepKeepsOnePruning(created: int, isOnline: bool, steps: seq<Step>, policy: Policy)
    requires Bounded(policy) && steps != []
    requires var before := steps[..|steps| - 1];
             && Latest(created, before) <= Latest(created, steps)
             && Run(created, isOnline, before, policy).diagnostics.transitions
                == PruneTransitions(History(created, isOnline, before), Latest(created, before), policy)
    ensures (Run(created, isOnline, steps, policy).diagnostics.transitions
             == PruneTransitions(History(created, isOnline, steps), Latest(created, steps), policy)) <==>
              var before, recent := steps[..|steps| - 1], RecentAt(Cutoff(Latest(created, steps), policy));
              || |Filter(Run(created, isOnline, before, policy).diagnostics.transitions, recent)|
                 >= policy.maxTransitions - 1
              || Filter(CappedOff(History(created, isOnline, before), Latest(created, before), policy), recent) == []
  {
    var before, last := steps[..|steps| - 1], steps[|steps| - 1];
    PruneTwiceExactly(History(created, isOnline, before), Recorded(last.status, last.input), Latest(created, before),
                      policy);
  }

  // ---------------------------------------------------------------- runs whose clock falls back

  function Repeat<T>(x: T, n: nat): seq<T> {
    if n == 0 then [] else Repeat(x, n - 1) + [x]
  }

  lemma {:induction false} OneMoreStep(created: int, isOnline: bool, steps: seq<Step>, step: Step, policy: Policy)
    requires Bounded(policy)
    ensures var r := Recorded(step.status, step.input);
            && Run(created, isOnline, steps + [step], policy).diagnostics.transitions
               == PruneTransitions(Run(created, isOnline, steps, policy).diagnostics.transitions + [r], step.input.at, policy)
            && History(created, isOnline, steps + [step]) == History(created, isOnline, steps) + [r]
  {
    assert (steps + [step])[..|steps|] == steps;
  }

  /** The history of a visit after n times the same step. */
  function Behind(first: Transition, r: Transition, n: nat): (log: seq<Transition>)
    ensures |log| == n + 1 && log[0] == first
  {
    if n == 0 then [first] else Behind(first, r, n - 1) + [r]
  }

  lemma {:induction false} BehindIsConstant(first: Transition, r: Transition, n: nat)
    ensures forall i :: 1 <= i <= n ==> Behind(first, r, n)[i] == r
  {
    if n > 0 {
      BehindIsConstant(first, r, n - 1);
    }
  }

  function Creation(created: int, isOnline: bool): Transition {
    CreateQueueDiagnostics(created, isOnline).transitions[0]
  }

  /** The history is that of n past steps, and the log is what the cap leaves of it. */
  predicate CappedAfter(first: Transition, r: Transition, n: nat, policy: Policy, history: seq<Transition>,
                        log: seq<Transition>)
    requires Bounded(policy)
  {
    history == Behind(first, r, n) && log == LastOf(history, policy.maxTransitions)
  }

  /** Steps taken while the clock shows an earlier time leave the entry of the creation recent, so only the cap takes
      anything away. */
  lemma {:induction false} StepsInThePast(created: int, isOnline: bool, past: Step, n: nat, policy: Policy)
    requires Bounded(policy) && past.input.at <= created && n <= policy.maxTransitions
    ensures var steps := Repeat(past, n);
            CappedAfter(Creation(created, isOnline), Recorded(past.status, past.input), n, policy,
                        History(created, isOnline, steps), Run(created, isOnline, steps, policy).diagnostics.transitions)
  {
    if n > 0 {
      StepsInThePast(created, isOnline, past, n - 1, policy);
      OneMoreInThePast(created, isOnline, Repeat(past, n - 1), past, n, policy);
    }
  }

  lemma {:induction false} OneMoreInThePast(created: int, isOnline: bool, steps: seq<Step>, past: Step, n: nat,
                                            policy: Policy)
    requires Bounded(policy) && past.input.at <= created && 0 < n <= policy.maxTransitions
    requires CappedAfter(Creation(created, isOnline), Recorded(past.status, past.input), n - 1, policy,
                         History(created, isOnline, steps), Run(created, isOnline, steps, policy).diagnostics.transitions)
    ensures var steps' := steps + [past];
            CappedAfter(Creation(created, isOnline), Recorded(past.status, past.input), n, policy,
                        History(created, isOnline, steps'), Run(created, isOnline, steps', policy).diagnostics.transitions)
  {
    OneMoreStep(created, isOnline, steps, past, policy);
    OnlyTheCapTakes(Creation(created, isOnline), Recorded(past.status, past.input), n, policy);
  }

  lemma {:induction false} OnlyTheCapTakes(first: Transition, r: Transition, n: nat, policy: Policy)
    requires Bounded(policy) && r.at <= first.at && 0 < n <= policy.maxTransitions
    ensures PruneTransitions(LastOf(Behind(first, r, n - 1), policy.maxTransitions) + [r], r.at, policy)
         == LastOf(Behind(first, r, n), policy.maxTransitions)
  {
    var log := Behind(first, r, n);
    BehindIsConstant(first, r, n);
    FilterAll(log, RecentAt(Cutoff(r.at, policy)));
    assert LastOf(Behind(first, r, n - 1), policy.maxTransitions) + [r] == log;
  }

  /** For every policy there are runs that lose an entry: as many steps as the cap while the clock has fallen back, and
      then a step after it was set right. The log lacks the entry of the creation, which one pruning of the history
      would have kept. */
  lemma {:induction false} PruningOutOfOrderLoses(created: int, isOnline: bool, past: Step, last: Step, policy: Policy)
    requires Bounded(policy) && past.input.at < Cutoff(last.input.at, policy) <= created
    ensures var first, r := Creation(created, isOnline), Recorded(last.status, last.input);
            var steps := Repeat(past, policy.maxTransitions) + [last];
            && Run(created, isOnline, steps, policy).diagnostics.transitions == [r]
            && PruneTransitions(History(created, isOnline, steps), last.input.at, policy) == [first, r]
  {
    var first, r := Creation(created, isOnline), Recorded(past.status, past.input);
    var n, cutoff := policy.maxTransitions, Cutoff(last.input.at, policy);
    StepsInThePast(created, isOnline, past, n, policy);
    OneMoreStep(created, isOnline, Repeat(past, n), last, policy);
    PastIsDropped(first, r, n, Recorded(last.status, last.input), cutoff);
  }

  lemma {:induction false} PastIsDropped(first: Transition, r: Transition, n: nat, last: Transition, cutoff: int)
    requires first.at >= cutoff && r.at < cutoff && last.at >= cutoff
    ensures Filter(Behind(first, r, n) + [last], RecentAt(cutoff)) == [first, last]
    ensures Filter(LastOf(Behind(first, r, n), n) + [last], RecentAt(cutoff)) == [last]
  {
    var log, p := Behind(first, r, n), RecentAt(cutoff);
    BehindIsConstant(first, r, n);
    assert log == [first] + log[1..];
    FilterNone(log[1..], p);
    FilterAll([first], p);
    FilterAppend([first], log[1..], p);
    FilterOneMore(log, last, p);
    FilterOneMore(log[1..], last, p);
  }
}
