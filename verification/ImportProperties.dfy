/** What every import and every run of imports and reviews keeps: one result a row, counters that tally the
    results, one live address for a household on a turf, and turf membership that a replacing import decides. */
module ImportProperties {
  import opened Common
  import opened ImportTables

  // ---------------------------------------------------------------- grouping partitions the rows

  function Numbered(i: nat): Entry -> bool {
    (e: Entry) => e.rowIndex == i
  }

  /** How often a row number occurs in the groups. */
  function Occurrences(groups: seq<Group>, i: nat): nat {
    if groups == [] then 0
    else Occurrences(groups[..|groups| - 1], i) + CountWhere(groups[|groups| - 1].entries, Numbered(i))
  }

  function Size(groups: seq<Group>): nat {
    if groups == [] then 0 else Size(groups[..|groups| - 1]) + |groups[|groups| - 1].entries|
  }

  lemma {:induction false} AddingToOneGroup(groups: seq<Group>, g: nat, e: Entry, i: nat)
    requires g < |groups|
    ensures var groups' := groups[g := groups[g].(entries := groups[g].entries + [e])];
            Occurrences(groups', i) == Occurrences(groups, i) + (if e.rowIndex == i then 1 else 0)
            && Size(groups') == Size(groups) + 1
  {
    var entries := groups[g].entries + [e];
    var groups' := groups[g := groups[g].(entries := entries)];
    if g == |groups| - 1 {
      assert groups'[..g] == groups[..g] && entries[..|entries| - 1] == groups[g].entries;
    } else {
      AddingToOneGroup(groups[..|groups| - 1], g, e, i);
      assert groups'[..|groups| - 1] == groups[..|groups| - 1][g := groups[g].(entries := entries)];
    }
  }

  lemma {:induction false} AddToGroupsCounts(groups: seq<Group>, name: string, e: Entry, i: nat)
    ensures var groups' := AddToGroups(groups, name, e);
            Occurrences(groups', i) == Occurrences(groups, i) + (if e.rowIndex == i then 1 else 0)
            && Size(groups') == Size(groups) + 1
  {
    match FindFirst(groups, Named(name))
    case None =>
      var groups' := groups + [Group(name, [e])];
      assert groups'[..|groups|] == groups && [e][..0] == [];
    case Some(g) =>
      AddingToOneGroup(groups, g, e, i);
  }

  predicate EntryIsRow(e: Entry, name: string, rows: seq<Row>, ctx: Context) {
    1 <= e.rowIndex <= |rows| && e.row == rows[e.rowIndex - 1] && name == TurfNameOf(e.row, ctx)
  }

  predicate GroupIsRows(g: Group, rows: seq<Row>, ctx: Context) {
    g.entries != [] && forall k :: 0 <= k < |g.entries| ==> EntryIsRow(g.entries[k], g.name, rows, ctx)
  }

  ghost predicate NamesDistinct(groups: seq<Group>) {
    forall g, g' :: 0 <= g < g' < |groups| ==> groups[g].name != groups[g'].name
  }

  /** Each turf name has one group, and a group has the rows of its name. */
  lemma {:induction false} GroupsAreByName(rows: seq<Row>, ctx: Context)
    ensures NamesDistinct(GroupRows(rows, ctx))
    ensures forall g :: 0 <= g < |GroupRows(rows, ctx)| ==> GroupIsRows(GroupRows(rows, ctx)[g], rows, ctx)
  {
    if rows != [] {
      var shorter, last := rows[..|rows| - 1], rows[|rows| - 1];
      GroupsAreByName(shorter, ctx);
      AddingKeepsGroups(GroupRows(shorter, ctx), shorter, last, ctx);
      assert rows == shorter + [last];
    }
  }

  lemma {:induction false} AddingKeepsGroups(groups: seq<Group>, rows: seq<Row>, last: Row, ctx: Context)
    requires NamesDistinct(groups)
    requires forall g :: 0 <= g < |groups| ==> GroupIsRows(groups[g], rows, ctx)
    ensures var groups' := AddToGroups(groups, TurfNameOf(last, ctx), Entry(last, |rows| + 1));
            && NamesDistinct(groups')
            && forall g :: 0 <= g < |groups'| ==> GroupIsRows(groups'[g], rows + [last], ctx)
  {
    var name, e := TurfNameOf(last, ctx), Entry(last, |rows| + 1);
    var groups' := AddToGroups(groups, name, e);
    forall g | 0 <= g < |groups'| ensures GroupIsRows(groups'[g], rows + [last], ctx) {
      assert g < |groups| ==> GroupIsRows(groups[g], rows, ctx);
      forall k | 0 <= k < |groups'[g].entries|
        ensures EntryIsRow(groups'[g].entries[k], groups'[g].name, rows + [last], ctx)
      {
        assert g < |groups| && k < |groups[g].entries| ==>
                 EntryIsRow(groups[g].entries[k], groups[g].name, rows, ctx) && groups'[g].entries[k] == groups[g].entries[k];
      }
    }
  }

  /** Every row number from one to n lands in one group, once, and no other number does. */
  lemma {:induction false} GroupingPartitions(rows: seq<Row>, ctx: Context, i: nat)
    ensures Occurrences(GroupRows(rows, ctx), i) == if 1 <= i <= |rows| then 1 else 0
    ensures Size(GroupRows(rows, ctx)) == |rows|
  {
    if rows != [] {
      var shorter, last := rows[..|rows| - 1], rows[|rows| - 1];
      GroupingPartitions(shorter, ctx, i);
      AddToGroupsCounts(GroupRows(shorter, ctx), TurfNameOf(last, ctx), Entry(last, |rows|), i);
    }
  }

  // ---------------------------------------------------------------- one result a row, and counters that tally them

  function HasStatus(status: RowStatus): BatchRow -> bool {
    (r: BatchRow) => r.status == status
  }

  function Tally(rows: seq<BatchRow>, status: RowStatus): nat {
    CountWhere(rows, HasStatus(status))
  }

  ghost predicate CountersTally(imported: int, merged: int, pending: int, invalid: int, skipped: int,
                                rows: seq<BatchRow>) {
    && imported == Tally(rows, Created) && merged == Tally(rows, Merged) && pending == Tally(rows, PendingReview)
    && invalid == Tally(rows, SkippedInvalid) && skipped == Tally(rows, SkippedDuplicate)
  }

  ghost predicate Balanced(p: Progress) {
    CountersTally(p.imported, p.merged, p.pending, p.invalid, p.skipped, p.results)
  }

  function ResultNumbered(i: nat): BatchRow -> bool {
    (r: BatchRow) => r.rowIndex == i
  }

  /** Every result is that of a row under its turf name. */
  ghost predicate ResultsAreRows(results: seq<BatchRow>, rows: seq<Row>, ctx: Context) {
    forall k :: 0 <= k < |results| ==> ResultIsRow(results[k], rows, ctx)
  }

  predicate ResultIsRow(r: BatchRow, rows: seq<Row>, ctx: Context) {
    r.raw.Some? && EntryIsRow(Entry(r.raw.value, r.rowIndex), r.turfName, rows, ctx)
  }

  ghost predicate BooksKept(p: Progress, rows: seq<Row>, ctx: Context) {
    Balanced(p) && ResultsAreRows(p.results, rows, ctx)
  }

  lemma RecordKeepsBooks(p: Progress, r: BatchRow, rows: seq<Row>, ctx: Context)
    requires BooksKept(p, rows, ctx) && ResultIsRow(r, rows, ctx)
    ensures BooksKept(Record(p, r), rows, ctx)
  {
    assert Record(p, r).results[..|p.results|] == p.results;
  }

  lemma {:induction false} RowsKeepBooks(job: Job, ctx: Context, turf: Id, name: string, entries: seq<Entry>,
                                         rows: seq<Row>, job': Job)
    requires ImportRows(job, ctx, turf, name, entries) == Going(job')
    requires BooksKept(job.progress, rows, ctx)
    requires forall k :: 0 <= k < |entries| ==> EntryIsRow(entries[k], name, rows, ctx)
    ensures BooksKept(job'.progress, rows, ctx)
  {
    if entries != [] {
      var n := |entries| - 1;
      var before := ImportRows(job, ctx, turf, name, entries[..n]).job;
      assert forall k :: 0 <= k < n ==> entries[..n][k] == entries[k];
      RowsKeepBooks(job, ctx, turf, name, entries[..n], rows, before);
      RowKeepsBooks(before, ctx, turf, name, entries[n], rows, job');
    }
  }

  lemma {:induction false} RowKeepsBooks(job: Job, ctx: Context, turf: Id, name: string, e: Entry, rows: seq<Row>,
                                         job': Job)
    requires ImportRow(job, ctx, turf, name, e) == Going(job')
    requires BooksKept(job.progress, rows, ctx) && EntryIsRow(e, name, rows, ctx)
    ensures BooksKept(job'.progress, rows, ctx)
  {
    ResultNamesRow(job.tables, ctx, turf, name, e);
    RecordKeepsBooks(job.progress, ResultOf(job.tables, ctx, turf, name, e), rows, ctx);
  }

  lemma ResultNamesRow(t: Tables, ctx: Context, turf: Id, name: string, e: Entry)
    ensures var r := ResultOf(t, ctx, turf, name, e);
            r.raw == Some(e.row) && r.rowIndex == e.rowIndex && r.turfName == name
  {
  }

  lemma {:induction false} GroupsKeepBooks(job: Job, ctx: Context, groups: seq<Group>, rows: seq<Row>, job': Job)
    requires ImportGroups(job, ctx, groups) == Going(job')
    requires BooksKept(job.progress, rows, ctx)
    requires forall g :: 0 <= g < |groups| ==> GroupIsRows(groups[g], rows, ctx)
    ensures BooksKept(job'.progress, rows, ctx)
  {
    if groups != [] {
      var before := ImportGroups(job, ctx, groups[..|groups| - 1]).job;
      var g := groups[|groups| - 1];
      GroupsKeepBooks(job, ctx, groups[..|groups| - 1], rows, before);
      assert GroupIsRows(g, rows, ctx);
      var node := GroupNode(before.tables.nodes, g, ctx).value;
      var turf := TurfOfGroup(before.tables.turfs, ctx, g.name, node);
      var begun := BeginGroup(before, ctx, g.name, node);
      RowsKeepBooks(begun, ctx, turf, g.name, g.entries, rows, ImportRows(begun, ctx, turf, g.name, g.entries).job);
    }
  }

  lemma {:induction false} RowsAreRecorded(job: Job, ctx: Context, turf: Id, name: string, entries: seq<Entry>, i: nat,
                                           job': Job)
    requires ImportRows(job, ctx, turf, name, entries) == Going(job')
    ensures |job'.progress.results| == |job.progress.results| + |entries|
    ensures CountWhere(job'.progress.results, ResultNumbered(i))
         == CountWhere(job.progress.results, ResultNumbered(i)) + CountWhere(entries, Numbered(i))
  {
    if entries != [] {
      var before := ImportRows(job, ctx, turf, name, entries[..|entries| - 1]).job;
      RowsAreRecorded(job, ctx, turf, name, entries[..|entries| - 1], i, before);
      assert job'.progress.results[..|before.progress.results|] == before.progress.results;
    }
  }

  lemma {:induction false} GroupsAreRecorded(job: Job, ctx: Context, groups: seq<Group>, i: nat, job': Job)
    requires ImportGroups(job, ctx, groups) == Going(job')
    ensures |job'.progress.results| == |job.progress.results| + Size(groups)
    ensures CountWhere(job'.progress.results, ResultNumbered(i))
         == CountWhere(job.progress.results, ResultNumbered(i)) + Occurrences(groups, i)
  {
    if groups != [] {
      var before := ImportGroups(job, ctx, groups[..|groups| - 1]).job;
      var g := groups[|groups| - 1];
      GroupsAreRecorded(job, ctx, groups[..|groups| - 1], i, before);
      var node := GroupNode(before.tables.nodes, g, ctx).value;
      var turf := TurfOfGroup(before.tables.turfs, ctx, g.name, node);
      var begun := BeginGroup(before, ctx, g.name, node);
      RowsAreRecorded(begun, ctx, turf, g.name, g.entries, i, ImportRows(begun, ctx, turf, g.name, g.entries).job);
    }
  }

  /** The counters of a batch are the tallies of its rows. */
  ghost predicate Accounted(b: Batch) {
    && CountersTally(b.imported, b.merged, b.pending, b.invalid, b.skipped, b.rows)
    && b.rowCount == |b.rows|
  }

  lemma {:induction false} TalliesAddUp(rows: seq<BatchRow>)
    ensures Tally(rows, Created) + Tally(rows, Merged) + Tally(rows, PendingReview) + Tally(rows, SkippedInvalid)
          + Tally(rows, SkippedDuplicate) == |rows|
  {
    if rows != [] {
      TalliesAddUp(rows[..|rows| - 1]);
    }
  }

  /** Counters that tally add up to the row count, and none of them is negative. */
  lemma AccountedAddsUp(b: Batch)
    requires Accounted(b)
    ensures b.imported + b.merged + b.pending + b.invalid + b.skipped == b.rowCount
    ensures b.imported >= 0 && b.merged >= 0 && b.pending >= 0 && b.invalid >= 0 && b.skipped >= 0
  {
    TalliesAddUp(b.rows);
  }

  predicate NothingNoted(p: Progress) {
    p.results == [] && p.imported == p.merged == p.pending == p.invalid == p.skipped == 0
  }

  lemma {:induction false} ImportedGroupsKeepBooks(start: Job, ctx: Context, rows: seq<Row>, done: Job)
    requires NothingNoted(start.progress) && ImportGroups(start, ctx, GroupRows(rows, ctx)) == Going(done)
    ensures BooksKept(done.progress, rows, ctx) && |done.progress.results| == |rows|
  {
    GroupsAreByName(rows, ctx);
    GroupsKeepBooks(start, ctx, GroupRows(rows, ctx), rows, done);
    GroupingPartitions(rows, ctx, 0);
    GroupsAreRecorded(start, ctx, GroupRows(rows, ctx), 0, done);
  }

  /** A successful import records one batch: each of its rows under the row's turf name, with counters that tally
      the results and add up to the row count. */
  lemma {:induction false} ImportKeepsBooks(t: Tables, ctx: Context, rows: seq<Row>, job: Job)
    requires ImportCsv(t, ctx, rows) == Going(job)
    ensures |job.tables.batches| == |t.batches| + 1 && job.tables.batches[..|t.batches|] == t.batches
    ensures var b := job.tables.batches[|t.batches|];
            && Accounted(b) && |b.rows| == |rows| && ResultsAreRows(b.rows, rows, ctx)
            && b.imported + b.merged + b.pending + b.invalid + b.skipped == |rows|
  {
    var done := ImportGroups(Job(t, START), ctx, GroupRows(rows, ctx)).job;
    GroupsKeepBatches(Job(t, START), ctx, GroupRows(rows, ctx));
    ImportedGroupsKeepBooks(Job(t, START), ctx, rows, done);
    AccountedAddsUp(NewBatch(ctx, |rows|, done.progress));
  }

  /** Every row from one to n has exactly one result in the batch, and no other row number has any. */
  lemma {:induction false} ImportRecordsEveryRowOnce(t: Tables, ctx: Context, rows: seq<Row>, job: Job, i: nat)
    requires ImportCsv(t, ctx, rows) == Going(job)
    ensures |job.tables.batches| == |t.batches| + 1
    ensures CountWhere(job.tables.batches[|t.batches|].rows, ResultNumbered(i)) == if 1 <= i <= |rows| then 1 else 0
  {
    var groups := GroupRows(rows, ctx);
    GroupsKeepBatches(Job(t, START), ctx, groups);
    GroupingPartitions(rows, ctx, i);
    GroupsAreRecorded(Job(t, START), ctx, groups, i, ImportGroups(Job(t, START), ctx, groups).job);
  }

  // ---------------------------------------------------------------- parts of the tables that imports leave alone

  lemma {:induction false} RowsKeepBatches(job: Job, ctx: Context, turf: Id, name: string, entries: seq<Entry>)
    ensures var t := TablesOf(ImportRows(job, ctx, turf, name, entries));
            t.batches == job.tables.batches && t.nodes == job.tables.nodes && t.turfs == job.tables.turfs
    ensures var o := ImportRows(job, ctx, turf, name, entries);
            o.Going? ==> o.job.progress.turfs == job.progress.turfs && o.job.progress.created == job.progress.created
                         && o.job.progress.removed == job.progress.removed
  {
    if entries != [] {
      RowsKeepBatches(job, ctx, turf, name, entries[..|entries| - 1]);
    }
  }

  lemma {:induction false} GroupsKeepBatches(job: Job, ctx: Context, groups: seq<Group>)
    ensures var t := TablesOf(ImportGroups(job, ctx, groups));
            t.batches == job.tables.batches && t.nodes == job.tables.nodes
  {
    if groups != [] {
      GroupsKeepBatches(job, ctx, groups[..|groups| - 1]);
      var o := ImportGroups(job, ctx, groups[..|groups| - 1]);
      var g := groups[|groups| - 1];
      if o.Going? && GroupNode(o.job.tables.nodes, g, ctx).Ok? {
        var node := GroupNode(o.job.tables.nodes, g, ctx).value;
        RowsKeepBatches(BeginGroup(o.job, ctx, g.name, node), ctx,
                        TurfOfGroup(o.job.tables.turfs, ctx, g.name, node), g.name, g.entries);
      }
    }
  }

  // ---------------------------------------------------------------- placing the turfs

  /** The turf of every group can be placed: its rows name at most one geography, and one that is known and active. */
  ghost predicate Placeable(nodes: seq<Node>, groups: seq<Group>, ctx: Context) {
    forall g :: 0 <= g < |groups| ==> GroupNode(nodes, groups[g], ctx).Ok?
  }

  // ---------------------------------------------------------------- one live address for a household on a turf

  ghost predicate LiveUnique(addresses: seq<Address>) {
    forall i, j {:trigger addresses[i], addresses[j]} :: 0 <= i < j < |addresses| ==>
      !(addresses[i].deletedAt.None? && LiveAt(addresses[i].turf, addresses[i].household)(addresses[j]))
  }

  ghost predicate Referenced(addresses: seq<Address>, turfs: nat, households: nat) {
    forall i {:trigger addresses[i]} :: 0 <= i < |addresses| ==>
      addresses[i].turf < turfs && addresses[i].household < households
  }

  /** Addresses refer to turfs and households that exist. */
  ghost predicate References(t: Tables) {
    Referenced(t.addresses, |t.turfs|, |t.households|)
  }

  /** References stay resolved, and addresses that were unique stay unique. */
  ghost predicate AddressesKept(t: Tables, t': Tables) {
    References(t') && (LiveUnique(t.addresses) ==> LiveUnique(t'.addresses))
  }

  lemma {:induction false} RowKeepsAddresses(t: Tables, ctx: Context, turf: Id, row: Row)
    requires References(t) && turf < |t.turfs|
    ensures AddressesKept(t, RowTables(t, ctx, turf, row))
  {
    if Usable(row) {
      var h := HouseholdOf(t.households, ctx, row);
      assert h < |HouseholdsAfter(t.households, ctx, row)|;
      assert |t.households| <= |HouseholdsAfter(t.households, ctx, row)|;
      AddressStepKeepsUnique(t.addresses, ctx, turf, h, row, |t.turfs|, |t.households|,
                         |HouseholdsAfter(t.households, ctx, row)|);
    }
  }

  lemma {:induction false} AddressStepKeepsUnique(addresses: seq<Address>, ctx: Context, turf: Id, h: Id, row: Row,
                                              turfs: nat, households: nat, households': nat)
    requires Usable(row) && Referenced(addresses, turfs, households)
    requires turf < turfs && h < households' && households <= households'
    ensures LiveUnique(addresses) ==> LiveUnique(AddressesAfter(addresses, ctx, turf, h, row))
    ensures Referenced(AddressesAfter(addresses, ctx, turf, h, row), turfs, households')
  {
    match DuplicateOf(addresses, turf, h)
    case Some(d) =>
    case None =>
      assert forall i :: 0 <= i < |addresses| ==> !LiveAt(turf, h)(addresses[i]);
  }

  lemma {:induction false} RowsKeepAddresses(job: Job, ctx: Context, turf: Id, name: string, entries: seq<Entry>)
    requires References(job.tables) && turf < |job.tables.turfs|
    ensures AddressesKept(job.tables, TablesOf(ImportRows(job, ctx, turf, name, entries)))
    ensures |TablesOf(ImportRows(job, ctx, turf, name, entries)).turfs| == |job.tables.turfs|
  {
    if entries != [] {
      RowsKeepAddresses(job, ctx, turf, name, entries[..|entries| - 1]);
      var o := ImportRows(job, ctx, turf, name, entries[..|entries| - 1]);
      if o.Going? {
        RowKeepsAddresses(o.job.tables, ctx, turf, entries[|entries| - 1].row);
      }
    }
  }

  lemma {:induction false} EndKeepsAddresses(job: Job, ctx: Context, turf: Id, existed: bool)
    requires References(job.tables)
    ensures AddressesKept(job.tables, EndGroup(job, ctx, turf, existed).tables)
  {
  }

  lemma {:induction false} GroupKeepsAddresses(job: Job, ctx: Context, g: Group)
    requires References(job.tables)
    ensures AddressesKept(job.tables, TablesOf(ImportGroup(job, ctx, g)))
  {
    if GroupNode(job.tables.nodes, g, ctx).Ok? {
      var node := GroupNode(job.tables.nodes, g, ctx).value;
      var turf := TurfOfGroup(job.tables.turfs, ctx, g.name, node);
      var begun := BeginGroup(job, ctx, g.name, node);
      RowsKeepAddresses(begun, ctx, turf, g.name, g.entries);
      var o := ImportRows(begun, ctx, turf, g.name, g.entries);
      if o.Going? {
        EndKeepsAddresses(o.job, ctx, turf, turf < |job.tables.turfs|);
      }
    }
  }

  lemma {:induction false} GroupsKeepAddresses(job: Job, ctx: Context, groups: seq<Group>)
    requires References(job.tables)
    ensures AddressesKept(job.tables, TablesOf(ImportGroups(job, ctx, groups)))
  {
    if groups != [] {
      GroupsKeepAddresses(job, ctx, groups[..|groups| - 1]);
      var o := ImportGroups(job, ctx, groups[..|groups| - 1]);
      if o.Going? {
        GroupKeepsAddresses(o.job, ctx, groups[|groups| - 1]);
      }
    }
  }

  // ---------------------------------------------------------------- duplicates under review

  /** A result under review names an address that exists. */
  ghost predicate CandidatesKnown(results: seq<BatchRow>, addresses: nat) {
    forall k :: 0 <= k < |results| && results[k].status == PendingReview ==>
      results[k].candidate.Some? && results[k].candidate.value < addresses
  }

  lemma {:induction false} RowsKeepCandidates(job: Job, ctx: Context, turf: Id, name: string, entries: seq<Entry>)
    requires CandidatesKnown(job.progress.results, |job.tables.addresses|)
    ensures var o := ImportRows(job, ctx, turf, name, entries);
            && |job.tables.addresses| <= |TablesOf(o).addresses|
            && (o.Going? ==> CandidatesKnown(o.job.progress.results, |o.job.tables.addresses|))
  {
    if entries != [] {
      RowsKeepCandidates(job, ctx, turf, name, entries[..|entries| - 1]);
      var o := ImportRows(job, ctx, turf, name, entries[..|entries| - 1]);
      if o.Going? {
        RowKeepsCandidates(o.job, ctx, turf, name, entries[|entries| - 1]);
      }
    }
  }

  lemma {:induction false} RowKeepsCandidates(job: Job, ctx: Context, turf: Id, name: string, e: Entry)
    requires CandidatesKnown(job.progress.results, |job.tables.addresses|)
    ensures var o := ImportRow(job, ctx, turf, name, e);
            && |job.tables.addresses| <= |TablesOf(o).addresses|
            && (o.Going? ==> CandidatesKnown(o.job.progress.results, |o.job.tables.addresses|))
  {
    var r := ResultOf(job.tables, ctx, turf, name, e);
    assert r.status == PendingReview ==> r.candidate.Some? && r.candidate.value < |job.tables.addresses|;
  }

  lemma {:induction false} GroupsKeepCandidates(job: Job, ctx: Context, groups: seq<Group>)
    requires CandidatesKnown(job.progress.results, |job.tables.addresses|)
    ensures var o := ImportGroups(job, ctx, groups);
            && |job.tables.addresses| <= |TablesOf(o).addresses|
            && (o.Going? ==> CandidatesKnown(o.job.progress.results, |o.job.tables.addresses|))
  {
    if groups != [] {
      GroupsKeepCandidates(job, ctx, groups[..|groups| - 1]);
      var o := ImportGroups(job, ctx, groups[..|groups| - 1]);
      var g := groups[|groups| - 1];
      if o.Going? && GroupNode(o.job.tables.nodes, g, ctx).Ok? {
        var node := GroupNode(o.job.tables.nodes, g, ctx).value;
        RowsKeepCandidates(BeginGroup(o.job, ctx, g.name, node), ctx,
                           TurfOfGroup(o.job.tables.turfs, ctx, g.name, node), g.name, g.entries);
      }
    }
  }

  // ---------------------------------------------------------------- every run of imports and reviews

  ghost predicate BatchSound(b: Batch, addresses: nat) {
    Accounted(b) && CandidatesKnown(b.rows, addresses)
  }

  ghost predicate Valid(t: Tables) {
    && References(t) && LiveUnique(t.addresses)
    && forall b :: 0 <= b < |t.batches| ==> BatchSound(t.batches[b], |t.addresses|)
  }

  lemma {:induction false} ImportKeepsValid(t: Tables, ctx: Context, rows: seq<Row>)
    requires Valid(t)
    ensures Valid(TablesOf(ImportCsv(t, ctx, rows)))
  {
    var groups := GroupRows(rows, ctx);
    GroupsKeepAddresses(Job(t, START), ctx, groups);
    GroupsKeepCandidates(Job(t, START), ctx, groups);
    GroupsKeepBatches(Job(t, START), ctx, groups);
    var o := ImportCsv(t, ctx, rows);
    if o.Going? {
      ImportKeepsBooks(t, ctx, rows, o.job);
    }
    var t' := TablesOf(o);
    forall b | 0 <= b < |t'.batches| ensures BatchSound(t'.batches[b], |t'.addresses|) {
      assert b < |t.batches| ==> t'.batches[b] == t.batches[b] && BatchSound(t.batches[b], |t.addresses|);
    }
  }

  lemma {:induction false} ReviewKeepsBatch(b: Batch, index: nat, r: BatchRow, addresses: nat, b': Batch)
    requires BatchSound(b, addresses) && index < |b.rows| && b.rows[index].status == PendingReview
    requires r.status == SkippedDuplicate || r.status == Merged
    requires b' == b.(rows := b.rows[index := r], pending := b.pending - 1,
                      skipped := b.skipped + (if r.status == SkippedDuplicate then 1 else 0),
                      merged := b.merged + (if r.status == Merged then 1 else 0))
    ensures BatchSound(b', addresses)
  {
    CountAfterUpdate(b.rows, HasStatus(Created), index, r);
    CountAfterUpdate(b.rows, HasStatus(Merged), index, r);
    CountAfterUpdate(b.rows, HasStatus(PendingReview), index, r);
    CountAfterUpdate(b.rows, HasStatus(SkippedInvalid), index, r);
    CountAfterUpdate(b.rows, HasStatus(SkippedDuplicate), index, r);
  }

  /** The duplicate a reviewer merges into always exists, so a review fails only for rows that are not under review
      and, if it is to merge, for those whose raw data has been redacted. */
  lemma {:induction false} ReviewSucceeds(t: Tables, scope: Scope, id: RowId, resolution: Resolution)
    requires Valid(t)
    ensures var r := ResolveReview(t, scope, id, resolution);
            && (r.Ok? <==> Reviewable(t, scope, id)
                           && (resolution.action == SkipReviewed || t.batches[id.batch].rows[id.index].raw.Some?))
            && (r == Err(RowDataMissing) <==> Reviewable(t, scope, id) && r.Err?)
            && r != Err(CandidateMissing)
  {
    if Reviewable(t, scope, id) {
      assert BatchSound(t.batches[id.batch], |t.addresses|);
    }
  }

  lemma {:induction false} ReviewKeepsValid(t: Tables, scope: Scope, id: RowId, resolution: Resolution)
    requires Valid(t) && ResolveReview(t, scope, id, resolution).Ok?
    ensures Valid(ResolveReview(t, scope, id, resolution).value)
  {
    var b := t.batches[id.batch];
    assert BatchSound(b, |t.addresses|);
    if resolution.action == SkipReviewed {
      SkipKeepsBatch(b, id.index, resolution, |t.addresses|);
      OneBatchKeepsValid(t, t.addresses, id.batch, SkipReview(b, id.index, resolution));
    } else {
      var a := b.rows[id.index].candidate.value;
      var merged := MergedInto(t.addresses[a], b.rows[id.index].raw.value);
      MergeKeepsBatch(b, id.index, a, resolution, |t.addresses|);
      OneBatchKeepsValid(t, t.addresses[a := merged], id.batch, MergeReview(b, id.index, a, resolution));
    }
  }

  lemma SkipKeepsBatch(b: Batch, index: nat, resolution: Resolution, addresses: nat)
    requires BatchSound(b, addresses) && index < |b.rows| && b.rows[index].status == PendingReview
    ensures BatchSound(SkipReview(b, index, resolution), addresses)
  {
    var b' := SkipReview(b, index, resolution);
    ReviewKeepsBatch(b, index, b'.rows[index], addresses, b');
  }

  lemma MergeKeepsBatch(b: Batch, index: nat, address: Id, resolution: Resolution, addresses: nat)
    requires BatchSound(b, addresses) && index < |b.rows| && b.rows[index].status == PendingReview
    ensures BatchSound(MergeReview(b, index, address, resolution), addresses)
  {
    var b' := MergeReview(b, index, address, resolution);
    ReviewKeepsBatch(b, index, b'.rows[index], addresses, b');
  }

  /** One batch rewritten, and addresses that stay where they are. */
  lemma OneBatchKeepsValid(t: Tables, addresses: seq<Address>, k: nat, b: Batch)
    requires Valid(t) && k < |t.batches| && BatchSound(b, |addresses|)
    requires |addresses| == |t.addresses|
    requires forall i :: 0 <= i < |addresses| ==> SamePlace(t.addresses[i], addresses[i])
    ensures Valid(t.(addresses := addresses, batches := t.batches[k := b]))
  {
    assert Referenced(addresses, |t.turfs|, |t.households|) by {
      forall i | 0 <= i < |addresses| ensures addresses[i].turf < |t.turfs| && addresses[i].household < |t.households| {
        assert SamePlace(t.addresses[i], addresses[i]);
      }
    }
    assert LiveUnique(addresses) by {
      forall i, j | 0 <= i < j < |addresses|
        ensures !(addresses[i].deletedAt.None? && LiveAt(addresses[i].turf, addresses[i].household)(addresses[j]))
      {
        assert SamePlace(t.addresses[i], addresses[i]) && SamePlace(t.addresses[j], addresses[j]);
      }
    }
  }

  predicate SamePlace(a: Address, b: Address) {
    a.turf == b.turf && a.household == b.household && a.deletedAt == b.deletedAt
  }

  lemma {:induction false} RedactionKeepsBatch(b: Batch, addresses: nat)
    requires BatchSound(b, addresses)
    ensures BatchSound(b.(rows := WithoutRaw(b.rows)), addresses)
  {
    var rows' := WithoutRaw(b.rows);
    CountsAlike(b.rows, rows', HasStatus(Created));
    CountsAlike(b.rows, rows', HasStatus(Merged));
    CountsAlike(b.rows, rows', HasStatus(PendingReview));
    CountsAlike(b.rows, rows', HasStatus(SkippedInvalid));
    CountsAlike(b.rows, rows', HasStatus(SkippedDuplicate));
  }

  lemma {:induction false} RedactionKeepsValid(t: Tables, chosen: set<Id>)
    requires Valid(t)
    ensures Valid(t.(batches := RedactBatches(t.batches, chosen)))
  {
    forall b | 0 <= b < |t.batches| ensures BatchSound(RedactBatches(t.batches, chosen)[b], |t.addresses|) {
      assert BatchSound(t.batches[b], |t.addresses|);
      RedactionKeepsBatch(t.batches[b], |t.addresses|);
    }
  }

  lemma {:induction false} NextKeepsValid(t: Tables, op: Op)
    requires Valid(t)
    ensures Valid(Next(t, op))
  {
    match op
    case Import(ctx, rows) => ImportKeepsValid(t, ctx, rows);
    case Review(scope, id, resolution) =>
      if ResolveReview(t, scope, id, resolution).Ok? {
        ReviewKeepsValid(t, scope, id, resolution);
      }
    case Redact(chosen) => RedactionKeepsValid(t, chosen);
  }

  /** Through every run of imports, reviews and redactions, failed ones included, a household has at most one live
      address on a turf, and each batch's counters tally its rows. */
  lemma {:induction false} RunKeepsValid(t: Tables, ops: seq<Op>)
    requires Valid(t)
    ensures Valid(Run(t, ops))
  {
    if ops != [] {
      RunKeepsValid(t, ops[..|ops| - 1]);
      NextKeepsValid(Run(t, ops[..|ops| - 1]), ops[|ops| - 1]);
    }
  }

  /** After any run, the five counters of every batch add up to its row count and none of them is negative. */
  lemma {:induction false} CountersInEveryRun(t: Tables, ops: seq<Op>, k: nat)
    requires Valid(t) && k < |Run(t, ops).batches|
    ensures var b := Run(t, ops).batches[k];
            && b.imported + b.merged + b.pending + b.invalid + b.skipped == b.rowCount == |b.rows|
            && b.imported >= 0 && b.merged >= 0 && b.pending >= 0 && b.invalid >= 0 && b.skipped >= 0
            && b.pending == Tally(b.rows, PendingReview)
  {
    RunKeepsValid(t, ops);
    assert BatchSound(Run(t, ops).batches[k], |Run(t, ops).addresses|);
    AccountedAddsUp(Run(t, ops).batches[k]);
  }

  // ---------------------------------------------------------------- which reviews retention cuts short

  /** All raw data of the batch is there, or none of it is. */
  predicate RawIs(b: Batch, there: bool) {
    forall k :: 0 <= k < |b.rows| ==> b.rows[k].raw.Some? == there
  }

  /** The batch was recorded and later redacted. */
  predicate RedactedBy(t: Tables, ops: seq<Op>, b: nat) {
    ops != [] &&
    var before, last := ops[..|ops| - 1], ops[|ops| - 1];
    RedactedBy(t, before, b) || (b < |Run(t, before).batches| && last.Redact? && b in last.chosen)
  }

  lemma {:induction false} NextKeepsRaw(t: Tables, op: Op, b: nat, there: bool)
    requires b < |t.batches| && RawIs(t.batches[b], there)
    ensures b < |Next(t, op).batches|
    ensures RawIs(Next(t, op).batches[b], there && !(op.Redact? && b in op.chosen))
  {
    match op
    case Import(ctx, rows) =>
      GroupsKeepBatches(Job(t, START), ctx, GroupRows(rows, ctx));
    case Review(scope, id, resolution) =>
    case Redact(chosen) =>
  }

  lemma {:induction false} NextRecordsRaw(t: Tables, op: Op, b: nat)
    requires |t.batches| <= b < |Next(t, op).batches|
    ensures !op.Redact? && RawIs(Next(t, op).batches[b], true)
  {
    if op.Import? {
      GroupsKeepBatches(Job(t, START), op.ctx, GroupRows(op.rows, op.ctx));
      var job := ImportCsv(t, op.ctx, op.rows).job;
      ImportKeepsBooks(t, op.ctx, op.rows, job);
      forall k | 0 <= k < |job.tables.batches[b].rows| ensures job.tables.batches[b].rows[k].raw.Some? {
        assert ResultIsRow(job.tables.batches[b].rows[k], op.rows, op.ctx);
      }
    }
  }

  /** The raw data of a batch is there exactly until the batch is redacted. */
  lemma {:induction false} RawInEveryRun(t: Tables, ops: seq<Op>, b: nat)
    requires t.batches == [] && b < |Run(t, ops).batches|
    ensures RawIs(Run(t, ops).batches[b], !RedactedBy(t, ops, b))
  {
    var before, last := ops[..|ops| - 1], ops[|ops| - 1];
    if b < |Run(t, before).batches| {
      RawInEveryRun(t, before, b);
      NextKeepsRaw(Run(t, before), last, b, !RedactedBy(t, before, b));
    } else {
      NotYetRedacted(t, before, b);
      NextRecordsRaw(Run(t, before), last, b);
    }
  }

  lemma {:induction false} NotYetRedacted(t: Tables, ops: seq<Op>, b: nat)
    requires t.batches == [] && b >= |Run(t, ops).batches|
    ensures !RedactedBy(t, ops, b)
  {
    if ops != [] {
      BatchesStay(Run(t, ops[..|ops| - 1]), ops[|ops| - 1]);
      NotYetRedacted(t, ops[..|ops| - 1], b);
    }
  }

  lemma {:induction false} BatchesStay(t: Tables, op: Op)
    ensures |t.batches| <= |Next(t, op).batches|
  {
    if op.Import? {
      GroupsKeepBatches(Job(t, START), op.ctx, GroupRows(op.rows, op.ctx));
    }
  }

  /** In every run: a pending row can always be skipped, and merged exactly until its batch is redacted. */
  lemma {:induction false} ReviewsInEveryRun(t: Tables, ops: seq<Op>, scope: Scope, id: RowId, resolution: Resolution)
    requires Valid(t) && t.batches == [] && Reviewable(Run(t, ops), scope, id)
    ensures ResolveReview(Run(t, ops), scope, id, resolution).Ok?
       <==> resolution.action == SkipReviewed || !RedactedBy(t, ops, id.batch)
  {
    RunKeepsValid(t, ops);
    RawInEveryRun(t, ops, id.batch);
    ReviewSucceeds(Run(t, ops), scope, id, resolution);
  }

  // ---------------------------------------------------------------- conservation of memberships

  function IsLive(): Address -> bool {
    (a: Address) => a.deletedAt.None?
  }

  function LiveCount(t: Tables): nat {
    CountWhere(t.addresses, IsLive())
  }

  lemma {:induction false} RowConservesMemberships(job: Job, ctx: Context, turf: Id, name: string, entry: Entry)
    ensures var o := ImportRow(job, ctx, turf, name, entry);
            o.Going? ==> LiveCount(o.job.tables) - LiveCount(job.tables) == o.job.progress.imported - job.progress.imported
  {
    if Usable(entry.row) {
      var addresses := job.tables.addresses;
      match DuplicateFor(job.tables, ctx, turf, entry.row)
      case Some(d) =>
        CountAfterUpdate(addresses, IsLive(), d, MergedInto(addresses[d], entry.row));
      case None =>
        var h := HouseholdOf(job.tables.households, ctx, entry.row);
        assert (addresses + [NewAddress(turf, h, entry.row)])[..|addresses|] == addresses;
    }
  }

  lemma {:induction false} RowsConserveMemberships(job: Job, ctx: Context, turf: Id, name: string, entries: seq<Entry>)
    ensures var o := ImportRows(job, ctx, turf, name, entries);
            o.Going? ==> LiveCount(o.job.tables) - LiveCount(job.tables) == o.job.progress.imported - job.progress.imported
  {
    if entries != [] {
      RowsConserveMemberships(job, ctx, turf, name, entries[..|entries| - 1]);
      var o := ImportRows(job, ctx, turf, name, entries[..|entries| - 1]);
      if o.Going? {
        RowConservesMemberships(o.job, ctx, turf, name, entries[|entries| - 1]);
      }
    }
  }

  lemma {:induction false} EndConservesMemberships(job: Job, ctx: Context, turf: Id, existed: bool)
    ensures var job' := EndGroup(job, ctx, turf, existed);
            LiveCount(job'.tables) - LiveCount(job.tables) == job.progress.removed - job'.progress.removed
  {
    CountAfterUpdateWhere(job.tables.addresses, LiveOutside(turf, job.progress.seen), Delete(ctx.now), IsLive());
  }

  ghost predicate Conserves(before: Job, after: Job) {
    LiveCount(after.tables) - LiveCount(before.tables)
    == (after.progress.imported - before.progress.imported) - (after.progress.removed - before.progress.removed)
  }

  lemma {:induction false} GroupConservesMemberships(job: Job, ctx: Context, g: Group, job': Job)
    requires ImportGroup(job, ctx, g) == Going(job')
    ensures Conserves(job, job')
  {
    var node := GroupNode(job.tables.nodes, g, ctx).value;
    var turf := TurfOfGroup(job.tables.turfs, ctx, g.name, node);
    var begun := BeginGroup(job, ctx, g.name, node);
    RowsConserveMemberships(begun, ctx, turf, g.name, g.entries);
    RowsKeepBatches(begun, ctx, turf, g.name, g.entries);
    EndConservesMemberships(ImportRows(begun, ctx, turf, g.name, g.entries).job, ctx, turf,
                            turf < |job.tables.turfs|);
  }

  lemma {:induction false} GroupsConserveMemberships(job: Job, ctx: Context, groups: seq<Group>, job': Job)
    requires ImportGroups(job, ctx, groups) == Going(job')
    ensures Conserves(job, job')
  {
    if groups != [] {
      var before := ImportGroups(job, ctx, groups[..|groups| - 1]).job;
      GroupsConserveMemberships(job, ctx, groups[..|groups| - 1], before);
      GroupConservesMemberships(before, ctx, groups[|groups| - 1], job');
    }
  }

  /** The live addresses after a successful import are those before, plus the imported, minus the removed. */
  lemma {:induction false} ImportConservesMemberships(t: Tables, ctx: Context, rows: seq<Row>, job: Job)
    requires ImportCsv(t, ctx, rows) == Going(job)
    ensures LiveCount(job.tables) == LiveCount(t) + job.progress.imported - job.progress.removed
  {
    var groups := GroupRows(rows, ctx);
    GroupsConserveMemberships(Job(t, START), ctx, groups, ImportGroups(Job(t, START), ctx, groups).job);
  }
}
