/** Retention cleanup: each run archives, redacts or purges a bounded batch of the due rows of every entity type. */
module Retention {
  import opened Common

  datatype Kind =
    | Users | VisitLogs | AddressRequests | ImportBatches | ExportBatches
    | RefreshTokens | ActivationTokens | PasswordResetTokens | MfaChallenges | UsedBackupCodes

  /** A row of any of the tables: the scope of the row or of its user, the dates that cleanup looks at, and what it
      holds. `spentAt` is the date a token was revoked or used; `parts` are the contents of a batch's own rows. */
  datatype Item = Item(
    id: Id, organization: Id, campaign: Option<Id>, team: Option<Id>, region: Option<string>,
    deletedAt: Option<int>, archivedAt: Option<int>, purgeAt: Option<int>, expiresAt: int, spentAt: Option<int>,
    artifactPurgedAt: Option<int>, content: Option<string>, parts: seq<Option<string>>)

  datatype Scope = Scope(organization: Id, campaign: Option<Id>, team: Option<Id>, region: Option<string>)

  /** `excluded` are the types that the exclusion setting names. */
  datatype Policy = Policy(batchSize: nat, excluded: set<Kind>)

  /** What one run does to one table. */
  datatype Plan = Plan(kind: Kind, policy: Policy, scope: Option<Scope>, now: int)

  const DEFAULT_BATCH_SIZE := 500
  const MAX_BATCH_SIZE := 1000

  /** The configured batch size, if it is a safe integer, clamped to 1..1000; 500 otherwise. */
  function CurrentPolicy(configured: Option<int>, excluded: set<Kind>): (p: Policy)
    ensures 1 <= p.batchSize <= 1000 && p.excluded == excluded
    ensures configured.None? ==> p.batchSize == 500
    ensures configured.Some? && 1 <= configured.value <= 1000 ==> p.batchSize == configured.value
  {
    Policy(ClampedInteger(configured, DEFAULT_BATCH_SIZE, 1, MAX_BATCH_SIZE), excluded)
  }

  // ---------------------------------------------------------------- what is due

  predicate InScope(item: Item, scope: Option<Scope>) {
    scope.Some? ==>
      && item.organization == scope.value.organization
      && (scope.value.campaign.Some? ==> item.campaign == scope.value.campaign)
      && (scope.value.team.Some? ==> item.team == scope.value.team)
      && (scope.value.region.Some? ==> item.region == scope.value.region)
  }

  predicate PurgeDue(item: Item, now: int) {
    item.purgeAt.Some? && item.purgeAt.value <= now
  }

  predicate Expired(kind: Kind, item: Item, now: int) {
    match kind
    case Users => item.deletedAt.Some? && item.archivedAt.None? && PurgeDue(item, now)
    case VisitLogs => item.deletedAt.Some? && PurgeDue(item, now)
    case AddressRequests => PurgeDue(item, now)
    case ImportBatches | ExportBatches => item.artifactPurgedAt.None? && PurgeDue(item, now)
    case RefreshTokens | ActivationTokens | PasswordResetTokens | MfaChallenges =>
      item.expiresAt <= now || item.spentAt.Some?
    case UsedBackupCodes => item.spentAt.Some?
  }

  function Due(plan: Plan): Item -> bool {
    (item: Item) => InScope(item, plan.scope) && Expired(plan.kind, item, plan.now)
  }

  function DueCount(plan: Plan, items: seq<Item>): nat {
    CountWhere(items, Due(plan))
  }

  // ---------------------------------------------------------------- one run on one table

  function IdsOf(items: seq<Item>): set<Id> {
    if items == [] then {} else IdsOf(items[..|items| - 1]) + {items[|items| - 1].id}
  }

  /** The ids that a run plans to clean: the first due ones in id order, or none for an excluded type. */
  function Planned(plan: Plan, items: seq<Item>): seq<Item> {
    if plan.kind in plan.policy.excluded then [] else FirstWhere(items, Due(plan), plan.policy.batchSize)
  }

  predicate Deletes(kind: Kind) {
    kind != Users && kind != VisitLogs && kind != ImportBatches && kind != ExportBatches
  }

  /** What is left of a row that is archived or redacted. */
  function Redacted(plan: Plan): Item -> Item {
    (item: Item) =>
      match plan.kind
      case Users => item.(archivedAt := Some(plan.now))
      case VisitLogs => item.(archivedAt := Some(plan.now), content := None, purgeAt := None)
      case _ => item.(artifactPurgedAt := Some(plan.now), content := None,
                      parts := seq(|item.parts|, i requires 0 <= i < |item.parts| => None))
  }

  function Among(ids: set<Id>): Item -> bool {
    (item: Item) => item.id in ids
  }

  function NotAmong(ids: set<Id>): Item -> bool {
    (item: Item) => item.id !in ids
  }

  function Cleaned(plan: Plan, items: seq<Item>): seq<Item> {
    var ids := IdsOf(Planned(plan, items));
    if Deletes(plan.kind) then Filter(items, NotAmong(ids)) else UpdateWhere(items, Among(ids), Redacted(plan))
  }

  // ---------------------------------------------------------------- a run takes a batch off what is due

  /** Tables are read in id order. */
  predicate InIdOrder(items: seq<Item>) {
    var n := |items| - 1;
    n <= 0 || (InIdOrder(items[..n]) && items[n - 1].id < items[n].id)
  }

  lemma {:induction false} IdsAscend(items: seq<Item>, i: nat, j: nat)
    requires InIdOrder(items) && i < j < |items|
    ensures items[i].id < items[j].id
  {
    var n := |items| - 1;
    if j < n {
      IdsAscend(items[..n], i, j);
    } else if i < n - 1 {
      IdsAscend(items[..n], i, n - 1);
    }
  }

  lemma {:induction false} IdsDiffer(items: seq<Item>, i: nat, j: nat)
    requires InIdOrder(items) && i < |items| && j < |items| && items[i].id == items[j].id
    ensures i == j
  {
    if i < j {
      IdsAscend(items, i, j);
    } else if j < i {
      IdsAscend(items, j, i);
    }
  }

  lemma {:induction false} FirstWhereIsBounded<T>(rows: seq<T>, p: T -> bool, take: nat)
    ensures |FirstWhere(rows, p, take)| == if CountWhere(rows, p) < take then CountWhere(rows, p) else take
  {
    if rows != [] {
      FirstWhereIsBounded(rows[..|rows| - 1], p, take);
    }
  }

  /** The rows planned are the due ones with the smallest ids. */
  lemma {:induction false} PlannedAreFirst<T>(rows: seq<T>, p: T -> bool, take: nat)
    ensures var due := Filter(rows, p);
            FirstWhere(rows, p, take) == if |due| <= take then due else due[..take]
  {
    if rows != [] {
      PlannedAreFirst(rows[..|rows| - 1], p, take);
    }
  }

  lemma {:induction false} PlannedAreDue(rows: seq<Item>, p: Item -> bool, take: nat, item: Item)
    requires item in FirstWhere(rows, p, take)
    ensures item in rows && p(item)
  {
    var n := |rows| - 1;
    if item in FirstWhere(rows[..n], p, take) {
      PlannedAreDue(rows[..n], p, take, item);
    }
  }

  lemma {:induction false} IdIsOfItem(items: seq<Item>, id: Id) returns (i: nat)
    requires id in IdsOf(items)
    ensures i < |items| && items[i].id == id
  {
    i := |items| - 1;
    if items[i].id != id {
      i := IdIsOfItem(items[..i], id);
    }
  }

  /** The ids planned so far are smaller than that of a later row. */
  lemma {:induction false} LaterIsNotPlanned(rows: seq<Item>, p: Item -> bool, take: nat)
    requires rows != [] && InIdOrder(rows)
    ensures rows[|rows| - 1].id !in IdsOf(FirstWhere(rows[..|rows| - 1], p, take))
  {
    var n := |rows| - 1;
    var planned := FirstWhere(rows[..n], p, take);
    if rows[n].id in IdsOf(planned) {
      var i := IdIsOfItem(planned, rows[n].id);
      PlannedAreDue(rows[..n], p, take, planned[i]);
      var j :| 0 <= j < n && rows[..n][j] == planned[i];
      IdsAscend(rows, j, n);
    }
  }

  lemma {:induction false} IdsOfOneMore(items: seq<Item>, item: Item)
    ensures IdsOf(items + [item]) == IdsOf(items) + {item.id}
  {
    assert (items + [item])[..|items|] == items;
  }

  lemma {:induction false} CountOfOneMore(rows: seq<Item>, ids: set<Id>)
    requires rows != [] && InIdOrder(rows) && rows[|rows| - 1].id !in ids
    ensures CountWhere(rows, Among(ids)) == CountWhere(rows[..|rows| - 1], Among(ids))
    ensures CountWhere(rows, Among(ids + {rows[|rows| - 1].id})) == CountWhere(rows[..|rows| - 1], Among(ids)) + 1
  {
    var n := |rows| - 1;
    var ids' := ids + {rows[n].id};
    forall i | 0 <= i < n ensures Among(ids)(rows[..n][i]) == Among(ids')(rows[..n][i]) {
      IdsAscend(rows, i, n);
    }
    CountAgrees(rows[..n], Among(ids), Among(ids'));
  }

  lemma {:induction false} PlannedIdsCount(rows: seq<Item>, p: Item -> bool, take: nat)
    requires InIdOrder(rows)
    ensures CountWhere(rows, Among(IdsOf(FirstWhere(rows, p, take)))) == |FirstWhere(rows, p, take)|
  {
    if rows != [] {
      var n := |rows| - 1;
      var shorter := FirstWhere(rows[..n], p, take);
      PlannedIdsCount(rows[..n], p, take);
      LaterIsNotPlanned(rows, p, take);
      CountOfOneMore(rows, IdsOf(shorter));
      IdsOfOneMore(shorter, rows[n]);
    }
  }

  lemma {:induction false} CountAgrees<T>(rows: seq<T>, p: T -> bool, q: T -> bool)
    requires forall i :: 0 <= i < |rows| ==> p(rows[i]) == q(rows[i])
    ensures CountWhere(rows, p) == CountWhere(rows, q)
  {
    if rows != [] {
      CountAgrees(rows[..|rows| - 1], p, q);
    }
  }

  /** In id order, an id names one row, so only due rows are planned. */
  lemma {:induction false} IdsIdentify(plan: Plan, items: seq<Item>, k: nat)
    requires InIdOrder(items) && k < |items| && items[k].id in IdsOf(Planned(plan, items))
    ensures Due(plan)(items[k]) && plan.kind !in plan.policy.excluded
  {
    var planned := Planned(plan, items);
    var i := IdIsOfItem(planned, items[k].id);
    PlannedAreDue(items, Due(plan), plan.policy.batchSize, planned[i]);
    var j :| 0 <= j < |items| && items[j] == planned[i];
    IdsDiffer(items, j, k);
  }

  /** A redacted row is no longer due. */
  lemma {:induction false} RedactedIsNotDue(plan: Plan, item: Item)
    requires !Deletes(plan.kind)
    ensures !Due(plan)(Redacted(plan)(item))
  {
  }

  lemma {:induction false} CountOfRest(rows: seq<Item>, ids: set<Id>, p: Item -> bool)
    requires forall i :: 0 <= i < |rows| && rows[i].id in ids ==> p(rows[i])
    ensures CountWhere(Filter(rows, NotAmong(ids)), p) == CountWhere(rows, p) - CountWhere(rows, Among(ids))
  {
    if rows != [] {
      var n := |rows| - 1;
      CountOfRest(rows[..n], ids, p);
      var rest := Filter(rows[..n], NotAmong(ids));
      if rows[n].id in ids {
        assert Filter(rows, NotAmong(ids)) == rest;
      } else {
        assert (rest + [rows[n]])[..|rest|] == rest;
      }
    }
  }

  /** A run of an enabled type leaves as many due rows as there were, less a batch. */
  lemma {:induction false} RunTakesOneBatch(plan: Plan, items: seq<Item>)
    requires InIdOrder(items) && plan.kind !in plan.policy.excluded
    ensures DueCount(plan, Cleaned(plan, items)) == Less(DueCount(plan, items), plan.policy.batchSize)
  {
    var due := Due(plan);
    var planned := Planned(plan, items);
    FirstWhereIsBounded(items, due, plan.policy.batchSize);
    PlannedIdsCount(items, due, plan.policy.batchSize);
    forall k | 0 <= k < |items| && items[k].id in IdsOf(planned)
      ensures due(items[k]) && (!Deletes(plan.kind) ==> !due(Redacted(plan)(items[k])))
    {
      IdsIdentify(plan, items, k);
      if !Deletes(plan.kind) {
        RedactedIsNotDue(plan, items[k]);
      }
    }
    if Deletes(plan.kind) {
      CountOfRest(items, IdsOf(planned), due);
    } else {
      CountAfterUpdateWhere(items, Among(IdsOf(planned)), Redacted(plan), due);
    }
  }

  lemma OrderExtends(items: seq<Item>, item: Item)
    requires InIdOrder(items) && (items != [] ==> items[|items| - 1].id < item.id)
    ensures InIdOrder(items + [item])
  {
    assert (items + [item])[..|items|] == items;
  }

  /** What is kept of the rows before the last one is smaller than the last one. */
  lemma {:induction false} KeptIsSmaller(items: seq<Item>, p: Item -> bool)
    requires items != [] && InIdOrder(items)
    ensures var kept := Filter(items[..|items| - 1], p); kept != [] ==> kept[|kept| - 1].id < items[|items| - 1].id
  {
    var n := |items| - 1;
    var kept := Filter(items[..n], p);
    if kept != [] {
      FilterKeeps(items[..n], p, kept[|kept| - 1]);
      var i :| 0 <= i < n && items[..n][i] == kept[|kept| - 1];
      IdsAscend(items, i, n);
    }
  }

  lemma {:induction false} FilterStaysInOrder(items: seq<Item>, p: Item -> bool)
    requires InIdOrder(items)
    ensures InIdOrder(Filter(items, p))
  {
    if items != [] {
      var n := |items| - 1;
      FilterStaysInOrder(items[..n], p);
      if p(items[n]) {
        KeptIsSmaller(items, p);
        OrderExtends(Filter(items[..n], p), items[n]);
      } else {
        assert Filter(items, p) == Filter(items[..n], p);
      }
    }
  }

  lemma {:induction false} UpdateStaysInOrder(items: seq<Item>, p: Item -> bool, f: Item -> Item)
    requires InIdOrder(items) && forall i :: 0 <= i < |items| ==> f(items[i]).id == items[i].id
    ensures InIdOrder(UpdateWhere(items, p, f))
  {
    if |items| > 1 {
      var n, after := |items| - 1, UpdateWhere(items, p, f);
      UpdateStaysInOrder(items[..n], p, f);
      assert after[..n] == UpdateWhere(items[..n], p, f);
      assert after[n - 1].id == items[n - 1].id && after[n].id == items[n].id;
    }
  }

  lemma {:induction false} CleanedStaysInOrder(plan: Plan, items: seq<Item>)
    requires InIdOrder(items)
    ensures InIdOrder(Cleaned(plan, items))
  {
    var ids := IdsOf(Planned(plan, items));
    if Deletes(plan.kind) {
      FilterStaysInOrder(items, NotAmong(ids));
    } else {
      UpdateStaysInOrder(items, Among(ids), Redacted(plan));
    }
  }

  // ---------------------------------------------------------------- successive runs

  /** One entity type's table before the first run and after each run; nobody else writes, and the clock stands. */
  ghost predicate Runs(plan: Plan, tables: seq<seq<Item>>) {
    && tables != [] && InIdOrder(tables[0])
    && forall k {:trigger RunAt(plan, tables, k)} :: 0 < k < |tables| ==> RunAt(plan, tables, k)
  }

  ghost predicate RunAt(plan: Plan, tables: seq<seq<Item>>, k: nat)
    requires 0 < k < |tables|
  {
    tables[k] == Cleaned(plan, tables[k - 1])
  }

  lemma {:induction false} RunsStayInOrder(plan: Plan, tables: seq<seq<Item>>, k: nat)
    requires Runs(plan, tables) && k < |tables|
    ensures InIdOrder(tables[k])
  {
    if k > 0 {
      RunsStayInOrder(plan, tables, k - 1);
      assert RunAt(plan, tables, k);
      CleanedStaysInOrder(plan, tables[k - 1]);
    }
  }

  function Less(n: nat, taken: nat): nat {
    if n <= taken then 0 else n - taken
  }

  lemma OneBatchMore(n: nat, k: nat, batch: nat)
    requires k > 0
    ensures Less(Less(n, (k - 1) * batch), batch) == Less(n, k * batch)
  {
    assert k * batch == (k - 1) * batch + batch;
  }

  /** After k runs at the same time, n due rows have become max(0, n - k * batchSize). */
  lemma {:induction false} RunsTakeBatches(plan: Plan, tables: seq<seq<Item>>, k: nat)
    requires Runs(plan, tables) && k < |tables| && plan.kind !in plan.policy.excluded
    ensures DueCount(plan, tables[k]) == Less(DueCount(plan, tables[0]), k * plan.policy.batchSize)
  {
    if k > 0 {
      RunsStayInOrder(plan, tables, k - 1);
      RunTakesOneBatch(plan, tables[k - 1]);
      assert RunAt(plan, tables, k);
      RunsTakeBatches(plan, tables, k - 1);
      OneBatchMore(DueCount(plan, tables[0]), k, plan.policy.batchSize);
    }
  }

  lemma EnoughBatches(n: nat, k: nat, batch: nat)
    requires batch >= 1
    ensures n <= k * batch <==> k >= (n + batch - 1) / batch
  {
    var runs := (n + batch - 1) / batch;
    assert n + batch - 1 == batch * runs + (n + batch - 1) % batch;
    if k >= runs {
      assert k * batch >= runs * batch;
    } else {
      assert (k + 1) * batch <= runs * batch;
    }
  }

  /** So nothing is due any more exactly from the ceil(n / batchSize)-th run on. */
  lemma {:induction false} RunsDrain(plan: Plan, tables: seq<seq<Item>>, k: nat)
    requires Runs(plan, tables) && k < |tables| && plan.kind !in plan.policy.excluded && plan.policy.batchSize >= 1
    ensures DueCount(plan, tables[k]) == 0
       <==> k >= (DueCount(plan, tables[0]) + plan.policy.batchSize - 1) / plan.policy.batchSize
  {
    RunsTakeBatches(plan, tables, k);
    EnoughBatches(DueCount(plan, tables[0]), k, plan.policy.batchSize);
  }

  // ---------------------------------------------------------------- a run touches nothing else

  /** A row that is not due, out of scope or of an excluded type is there afterwards as it was; and every row there
      afterwards is one of those before, or a redacted one that was due. */
  lemma {:induction false} RunSparesTheRest(plan: Plan, items: seq<Item>, item: Item)
    requires InIdOrder(items)
    ensures item in items && (!Due(plan)(item) || plan.kind in plan.policy.excluded) ==>
              item in Cleaned(plan, items)
    ensures item in Cleaned(plan, items) && item !in items ==>
              !Deletes(plan.kind) && exists was :: was in items && Due(plan)(was) && item == Redacted(plan)(was)
  {
    var ids := IdsOf(Planned(plan, items));
    if item in items {
      var i :| 0 <= i < |items| && items[i] == item;
      if item.id in ids {
        IdsIdentify(plan, items, i);
      }
      if !Deletes(plan.kind) {
        assert Cleaned(plan, items)[i] == if item.id in ids then Redacted(plan)(item) else item;
      }
    }
    if Deletes(plan.kind) {
      FilterKeeps(items, NotAmong(ids), item);
    } else if item in Cleaned(plan, items) && item !in items {
      var i :| 0 <= i < |items| && Cleaned(plan, items)[i] == item;
      assert items[i] in items;
      IdsIdentify(plan, items, i);
    }
  }

  /** However often cleanup runs, such a row stays. */
  lemma {:induction false} RunsSpareTheRest(plan: Plan, tables: seq<seq<Item>>, k: nat, item: Item)
    requires Runs(plan, tables) && k < |tables| && item in tables[0]
    requires !Due(plan)(item) || plan.kind in plan.policy.excluded
    ensures item in tables[k]
  {
    if k > 0 {
      RunsSpareTheRest(plan, tables, k - 1, item);
      RunsStayInOrder(plan, tables, k - 1);
      assert RunAt(plan, tables, k);
      RunSparesTheRest(plan, tables[k - 1], item);
    }
  }

  // ---------------------------------------------------------------- which rows, and what is left of them

  /** The row lies in the part of the organisation that the cleanup is for. */
  predicate Concerned(plan: Plan, item: Item) {
    match plan.scope
    case None => true
    case Some(s) =>
      && item.organization == s.organization && (s.campaign == None || item.campaign == s.campaign)
      && (s.team == None || item.team == s.team) && (s.region == None || item.region == s.region)
  }

  /** Its time has come: its purge date is reached, for users and visits only if they are deleted, for users and batches
      only once; tokens when they have expired or are spent, backup codes when they are spent. */
  predicate TimeHasCome(plan: Plan, item: Item) {
    match plan.kind
    case RefreshTokens | ActivationTokens | PasswordResetTokens | MfaChallenges =>
      plan.now >= item.expiresAt || item.spentAt != None
    case UsedBackupCodes => item.spentAt != None
    case _ =>
      && item.purgeAt.Some? && plan.now >= item.purgeAt.value
      && (plan.kind in {Users, VisitLogs} ==> item.deletedAt != None)
      && (plan.kind == Users ==> item.archivedAt == None)
      && (plan.kind in {ImportBatches, ExportBatches} ==> item.artifactPurgedAt == None)
  }

  lemma DueMeaning(plan: Plan, item: Item)
    ensures Due(plan)(item) <==> Concerned(plan, item) && TimeHasCome(plan, item)
  {
  }

  /** A row is spared if it lies elsewhere or its time has not come. */
  lemma {:induction false} NotDueYet(plan: Plan, items: seq<Item>, item: Item)
    requires InIdOrder(items) && item in items && !(Concerned(plan, item) && TimeHasCome(plan, item))
    ensures item in Cleaned(plan, items)
  {
    DueMeaning(plan, item);
    RunSparesTheRest(plan, items, item);
  }

  lemma {:induction false} NoneWhere<T>(rows: seq<T>, p: T -> bool, x: T)
    requires CountWhere(rows, p) == 0 && x in rows
    ensures !p(x)
  {
    var n := |rows| - 1;
    if x in rows[..n] {
      NoneWhere(rows[..n], p, x);
    }
  }

  /** And it does not stay otherwise: a batch that reaches to it takes it. */
  lemma {:induction false} DueIsTaken(plan: Plan, items: seq<Item>, item: Item)
    requires InIdOrder(items) && item in items && plan.kind !in plan.policy.excluded
    requires |items| <= plan.policy.batchSize && Concerned(plan, item) && TimeHasCome(plan, item)
    ensures item !in Cleaned(plan, items)
  {
    RunTakesOneBatch(plan, items);
    FilterCounts(items, Due(plan));
    FilterIsShorter(items, Due(plan));
    DueMeaning(plan, item);
    if item in Cleaned(plan, items) {
      NoneWhere(Cleaned(plan, items), Due(plan), item);
    }
  }

  lemma {:induction false} FilterIsShorter<T>(rows: seq<T>, p: T -> bool)
    ensures |Filter(rows, p)| <= |rows|
  {
    if rows != [] {
      FilterIsShorter(rows[..|rows| - 1], p);
    }
  }

  /** Users, visits and batches stay as rows: a run leaves each of them as it was or, if its time has come, users
      archived, visits archived and without their content and purge date, and batches marked and without their content and
      that of each of their rows. Of the other types rows are kept as they were or deleted. */
  lemma {:induction false} RowsAfterRun(plan: Plan, items: seq<Item>)
    requires InIdOrder(items)
    ensures var left := Cleaned(plan, items);
            if plan.kind in {Users, VisitLogs, ImportBatches, ExportBatches} then
              && |left| == |items|
              && forall i {:trigger left[i]} :: 0 <= i < |items| ==> left[i] == items[i] || LeftOf(plan, items[i], left[i])
            else forall x :: x in left ==> x in items
  {
    var ids := IdsOf(Planned(plan, items));
    if plan.kind in {Users, VisitLogs, ImportBatches, ExportBatches} {
      forall i | 0 <= i < |items| && items[i].id in ids ensures LeftOf(plan, items[i], Redacted(plan)(items[i])) {
        IdsIdentify(plan, items, i);
        DueMeaning(plan, items[i]);
        RedactedLeaves(plan, items[i]);
      }
    } else {
      forall x: Item | x in Cleaned(plan, items) ensures x in items {
        FilterKeeps(items, NotAmong(ids), x);
      }
    }
  }

  predicate LeftOf(plan: Plan, was: Item, item: Item) {
    Concerned(plan, was) && TimeHasCome(plan, was) && WhatIsLeft(plan, was, item)
  }

  lemma RedactedLeaves(plan: Plan, was: Item)
    requires plan.kind in {Users, VisitLogs, ImportBatches, ExportBatches}
    ensures WhatIsLeft(plan, was, Redacted(plan)(was))
  {
  }

  predicate WhatIsLeft(plan: Plan, was: Item, item: Item) {
    match plan.kind
    case Users => item == was.(archivedAt := Some(plan.now))
    case VisitLogs => item == was.(archivedAt := Some(plan.now), content := None, purgeAt := None)
    case _ =>
      && |item.parts| == |was.parts| && (forall k :: 0 <= k < |item.parts| ==> item.parts[k] == None)
      && item == was.(artifactPurgedAt := Some(plan.now), content := None, parts := item.parts)
  }

  // ---------------------------------------------------------------- the service

  datatype RetentionError = ReasonRequired

  /** What a call reports: how many rows of each type it planned to clean, and how many it cleaned, in the order of KINDS. */
  datatype Cleanup = AlreadyRunning | Completed(planned: seq<nat>, done: seq<nat>)

  /** The condition that the statements of the transaction repeat beside the planned ids. */
  predicate StillDue(plan: Plan, item: Item) {
    match plan.kind
    case Users => item.archivedAt.None?
    case VisitLogs => item.deletedAt.Some?
    case AddressRequests => InScope(item, plan.scope) && PurgeDue(item, plan.now)
    case ImportBatches | ExportBatches =>
      InScope(item, plan.scope) && item.artifactPurgedAt.None? && PurgeDue(item, plan.now)
    case _ => true
  }

  function Hit(plan: Plan, ids: set<Id>): Item -> bool {
    (item: Item) => item.id in ids && StillDue(plan, item)
  }

  function Missed(plan: Plan, ids: set<Id>): Item -> bool {
    (item: Item) => !(item.id in ids && StillDue(plan, item))
  }

  lemma {:induction false} FilterAgrees<T>(rows: seq<T>, p: T -> bool, q: T -> bool)
    requires forall i :: 0 <= i < |rows| ==> p(rows[i]) == q(rows[i])
    ensures Filter(rows, p) == Filter(rows, q)
  {
    if rows != [] {
      FilterAgrees(rows[..|rows| - 1], p, q);
    }
  }

  /** The repeated condition excludes nothing: what is planned is due, and so is cleaned. */
  lemma {:induction false} PlannedAreHit(plan: Plan, items: seq<Item>)
    requires InIdOrder(items)
    ensures var ids := IdsOf(Planned(plan, items));
            && CountWhere(items, Hit(plan, ids)) == |Planned(plan, items)|
            && Cleaned(plan, items) == if Deletes(plan.kind) then Filter(items, Missed(plan, ids))
                                       else UpdateWhere(items, Hit(plan, ids), Redacted(plan))
  {
    var ids := IdsOf(Planned(plan, items));
    PlannedAreStillDue(plan, items, ids);
    FilterAgrees(items, NotAmong(ids), Missed(plan, ids));
    CountAgrees(items, Among(ids), Hit(plan, ids));
    PlannedAreCounted(plan, items);
  }

  lemma {:induction false} PlannedAreStillDue(plan: Plan, items: seq<Item>, ids: set<Id>)
    requires InIdOrder(items) && ids == IdsOf(Planned(plan, items))
    ensures forall i :: 0 <= i < |items| ==> Hit(plan, ids)(items[i]) == Among(ids)(items[i])
    ensures forall i :: 0 <= i < |items| ==> Missed(plan, ids)(items[i]) == NotAmong(ids)(items[i])
  {
    forall i | 0 <= i < |items| && items[i].id in ids ensures StillDue(plan, items[i]) {
      IdsIdentify(plan, items, i);
    }
  }

  lemma {:induction false} PlannedAreCounted(plan: Plan, items: seq<Item>)
    requires InIdOrder(items)
    ensures CountWhere(items, Among(IdsOf(Planned(plan, items)))) == |Planned(plan, items)|
  {
    if plan.kind in plan.policy.excluded {
      assert CountWhere(items, Among(IdsOf(Planned(plan, items)))) == 0;
    } else {
      PlannedIdsCount(items, Due(plan), plan.policy.batchSize);
    }
  }

  const KINDS := [Users, VisitLogs, AddressRequests, ImportBatches, ExportBatches, RefreshTokens, ActivationTokens,
                  PasswordResetTokens, MfaChallenges, UsedBackupCodes]

  /** Position of an entity type among the tables. */
  function Position(kind: Kind): (i: nat)
    ensures i < |KINDS| && KINDS[i] == kind
  {
    match kind
    case Users => 0
    case VisitLogs => 1
    case AddressRequests => 2
    case ImportBatches => 3
    case ExportBatches => 4
    case RefreshTokens => 5
    case ActivationTokens => 6
    case PasswordResetTokens => 7
    case MfaChallenges => 8
    case UsedBackupCodes => 9
  }

  /** One statement of the transaction: the planned rows of a table redacted or deleted. */
  method Clean(plan: Plan, items: seq<Item>, ids: set<Id>) returns (cleaned: seq<Item>, count: nat)
    requires InIdOrder(items) && ids == IdsOf(Planned(plan, items))
    ensures cleaned == Cleaned(plan, items) && InIdOrder(cleaned)
    ensures count == |Planned(plan, items)|
  {
    PlannedAreHit(plan, items);
    CleanedStaysInOrder(plan, items);
    count := CountWhere(items, Hit(plan, ids));
    if Deletes(plan.kind) {
      cleaned := Filter(items, Missed(plan, ids));
    } else {
      cleaned := UpdateWhere(items, Hit(plan, ids), Redacted(plan));
    }
  }

  class RetentionService {
    const configuredBatchSize: Option<int>
    const excluded: set<Kind>
    var running: bool
    var tables: seq<seq<Item>>

    ghost predicate Valid()
      reads this
    {
      |tables| == |KINDS| && forall i :: 0 <= i < |tables| ==> InIdOrder(tables[i])
    }

    function Table(kind: Kind): seq<Item>
      requires |tables| == |KINDS|
      reads this
    {
      tables[Position(kind)]
    }

    constructor (configuredBatchSize: Option<int>, excluded: set<Kind>, tables: seq<seq<Item>>)
      requires |tables| == |KINDS| && forall i :: 0 <= i < |tables| ==> InIdOrder(tables[i])
      ensures Valid() && !running && this.tables == tables
      ensures this.configuredBatchSize == configuredBatchSize && this.excluded == excluded
    {
      this.configuredBatchSize, this.excluded, this.tables := configuredBatchSize, excluded, tables;
      running := false;
    }

    /** What a run started now does to a table. */
    function PlanFor(kind: Kind, scope: Option<Scope>, now: int): Plan {
      Plan(kind, CurrentPolicy(configuredBatchSize, excluded), scope, now)
    }

    function PlannedCounts(tables: seq<seq<Item>>, scope: Option<Scope>, now: int): (counts: seq<nat>)
      requires |tables| == |KINDS|
    {
      seq(|KINDS|, i requires 0 <= i < |KINDS| => |Planned(PlanFor(KINDS[i], scope, now), tables[i])|)
    }

    /** The statements of the transaction, one for each type. */
    method CleanAll(scope: Option<Scope>, now: int) returns (done: seq<nat>)
      requires Valid()
      modifies `tables
      ensures Valid() && done == PlannedCounts(old(tables), scope, now)
      ensures forall i :: 0 <= i < |KINDS| ==> tables[i] == Cleaned(PlanFor(KINDS[i], scope, now), old(tables)[i])
    {
      done := [];
      for i := 0 to |KINDS|
        invariant Valid() && |done| == i
        invariant forall j :: 0 <= j < i ==> tables[j] == Cleaned(PlanFor(KINDS[j], scope, now), old(tables)[j])
        invariant forall j :: 0 <= j < i ==> done[j] == |Planned(PlanFor(KINDS[j], scope, now), old(tables)[j])|
        invariant forall j :: i <= j < |KINDS| ==> tables[j] == old(tables)[j]
      {
        var plan := PlanFor(KINDS[i], scope, now);
        var cleaned, count := Clean(plan, tables[i], IdsOf(Planned(plan, tables[i])));
        tables := tables[i := cleaned];
        done := done + [count];
      }
    }

    /** A run is refused while another one is going on, and a manual run without a reason; otherwise it cleans one
        batch of every type that is not excluded, and what it planned is what it did. */
    method RunCleanup(scope: Option<Scope>, scheduled: bool, reason: string, now: int)
      returns (r: Result<Cleanup, RetentionError>)
      requires Valid()
      modifies this
      ensures Valid() && running == old(running)
      ensures old(running) ==> r == Ok(AlreadyRunning) && tables == old(tables)
      ensures !old(running) && !scheduled && reason == "" ==> r == Err(ReasonRequired) && tables == old(tables)
      ensures !old(running) && (scheduled || reason != "") ==>
        && r == Ok(Completed(PlannedCounts(old(tables), scope, now), PlannedCounts(old(tables), scope, now)))
        && forall kind :: Table(kind) == Cleaned(PlanFor(kind, scope, now), old(Table(kind)))
    {
      if running {
        return Ok(AlreadyRunning);
      }
      running := true;
      if !scheduled && reason == "" {
        running := false;
        return Err(ReasonRequired);
      }
      var planned := PlannedCounts(tables, scope, now);
      var done := CleanAll(scope, now);
      running := false;
      r := Ok(Completed(planned, done));
    }
  }
}
