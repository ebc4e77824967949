/** Importing the same rows again changes nothing. */
module ImportRepeat {
  import opened Common
  import opened ImportTables
  import opened ImportProperties
  import opened ImportMembership

  // ---------------------------------------------------------------- households that stay matched

  /** A usable row names its household by VAN household id. */
  predicate Identified(row: Row) {
    Usable(row) ==> row.vanHouseholdId.Some?
  }

  /** The row has a household that it cannot complete any further. */
  predicate Matched(households: seq<Household>, ctx: Context, row: Row) {
    var m := MatchingHousehold(households, ctx, row);
    m.Some? && !Completes(row, households[m.value])
  }

  lemma MatchingSettles(households: seq<Household>, ctx: Context, row: Row)
    requires Usable(row) && Identified(row)
    ensures var after := HouseholdsAfter(households, ctx, row);
            && MatchingHousehold(after, ctx, row) == Some(HouseholdOf(households, ctx, row))
            && Matched(after, ctx, row)
  {
    var p := HouseholdMatches(ctx, row);
    match MatchingHousehold(households, ctx, row)
    case None => FindFirstAppend(households, [NewHousehold(ctx, row)], p);
    case Some(h) =>
      if Completes(row, households[h]) {
        FirstStaysFirst(households, p, h, Completed(households[h], row));
      }
  }

  lemma FirstStaysFirst<T>(rows: seq<T>, p: T -> bool, k: nat, x: T)
    requires k < |rows| && p(rows[k]) == p(x)
    ensures FindFirst(rows[k := x], p) == FindFirst(rows, p)
  {
    var rows' := rows[k := x];
    assert forall i :: 0 <= i < |rows| ==> p(rows'[i]) == p(rows[i]);
  }

  /** Another row with a VAN household id neither takes a row's household away nor undoes what it knows. */
  lemma MatchingKeepsMatched(households: seq<Household>, ctx: Context, row: Row, other: Row)
    requires Usable(row) && Identified(row) && Usable(other) && Identified(other) && Matched(households, ctx, row)
    ensures var after := HouseholdsAfter(households, ctx, other);
            MatchingHousehold(after, ctx, row) == MatchingHousehold(households, ctx, row) && Matched(after, ctx, row)
  {
    var p := HouseholdMatches(ctx, row);
    match MatchingHousehold(households, ctx, other)
    case None => FindFirstAppend(households, [NewHousehold(ctx, other)], p);
    case Some(h) =>
      if Completes(other, households[h]) {
        FirstStaysFirst(households, p, h, Completed(households[h], other));
      }
  }

  // ---------------------------------------------------------------- settled rows

  /** The row would be skipped as a duplicate. */
  predicate RowSettled(t: Tables, ctx: Context, turf: Id, row: Row) {
    Usable(row) ==>
      && Matched(t.households, ctx, row)
      && Live(t.addresses, turf, MatchingHousehold(t.households, ctx, row).value)
  }

  lemma AddressStepKeepsLive(addresses: seq<Address>, ctx: Context, turf: Id, h: Id, row: Row, x: Id, h': Id)
    requires Usable(row) && Live(addresses, x, h')
    ensures Live(AddressesAfter(addresses, ctx, turf, h, row), x, h')
  {
    assert LiveAt(x, h')(AddressesAfter(addresses, ctx, turf, h, row)[DuplicateOf(addresses, x, h').value]);
  }

  lemma RowKeepsSettled(t: Tables, ctx: Context, turf: Id, other: Row, x: Id, row: Row)
    requires Identified(row) && Identified(other) && RowSettled(t, ctx, x, row)
    ensures RowSettled(RowTables(t, ctx, turf, other), ctx, x, row)
    ensures Usable(row) ==>
      MatchingHousehold(RowTables(t, ctx, turf, other).households, ctx, row) == MatchingHousehold(t.households, ctx, row)
  {
    if Usable(row) && Usable(other) {
      MatchingKeepsMatched(t.households, ctx, row, other);
      AddressStepKeepsLive(t.addresses, ctx, turf, HouseholdOf(t.households, ctx, other), other, x,
                           MatchingHousehold(t.households, ctx, row).value);
    }
  }

  lemma RowSettles(t: Tables, ctx: Context, turf: Id, row: Row)
    requires Identified(row)
    ensures RowSettled(RowTables(t, ctx, turf, row), ctx, turf, row)
    ensures Usable(row) ==>
      MatchingHousehold(RowTables(t, ctx, turf, row).households, ctx, row) == Some(HouseholdOf(t.households, ctx, row))
  {
    if Usable(row) {
      var h := HouseholdOf(t.households, ctx, row);
      MatchingSettles(t.households, ctx, row);
      AddressStepAddsHousehold(t.addresses, ctx, turf, h, row, h);
    }
  }

  // ---------------------------------------------------------------- settled groups

  predicate AllIdentified(entries: seq<Entry>) {
    forall k :: 0 <= k < |entries| ==> Identified(entries[k].row)
  }

  /** The entry's row resolves to the household. */
  predicate Names(households: seq<Household>, ctx: Context, e: Entry, h: Id) {
    Usable(e.row) && MatchingHousehold(households, ctx, e.row) == Some(h)
  }

  predicate SomeNames(households: seq<Household>, ctx: Context, entries: seq<Entry>, h: Id) {
    exists k :: 0 <= k < |entries| && Names(households, ctx, entries[k], h)
  }

  predicate RowsSettled(t: Tables, ctx: Context, turf: Id, entries: seq<Entry>) {
    forall k :: 0 <= k < |entries| ==> RowSettled(t, ctx, turf, entries[k].row)
  }

  /** What the rows resolve to has been seen, and nothing else. */
  ghost predicate SeenIsNamed(households: seq<Household>, ctx: Context, entries: seq<Entry>, seen: set<Id>) {
    forall h :: h in seen <==> SomeNames(households, ctx, entries, h)
  }

  lemma {:induction false} RowsSettle(job: Job, ctx: Context, turf: Id, name: string, entries: seq<Entry>, job': Job)
    requires ImportRows(job, ctx, turf, name, entries) == Going(job') && AllIdentified(entries)
    requires job.progress.seen == {}
    ensures RowsSettled(job'.tables, ctx, turf, entries)
    ensures SeenIsNamed(job'.tables.households, ctx, entries, job'.progress.seen)
  {
    if entries != [] {
      var n := |entries| - 1;
      var before := ImportRows(job, ctx, turf, name, entries[..n]).job;
      RowsSettle(job, ctx, turf, name, entries[..n], before);
      OneMoreRowSettles(before, ctx, turf, name, entries[..n], entries[n], job');
      assert entries[..n] + [entries[n]] == entries;
    }
  }

  predicate SameMatch(households: seq<Household>, households': seq<Household>, ctx: Context, e: Entry) {
    Usable(e.row) ==> MatchingHousehold(households', ctx, e.row) == MatchingHousehold(households, ctx, e.row)
  }

  predicate SameMatches(households: seq<Household>, households': seq<Household>, ctx: Context, entries: seq<Entry>) {
    forall k :: 0 <= k < |entries| ==> SameMatch(households, households', ctx, entries[k])
  }

  /** Rows that are settled stay so while another row is imported, to this turf or another. */
  lemma RowsStaySettled(t: Tables, ctx: Context, turf: Id, other: Row, x: Id, entries: seq<Entry>)
    requires AllIdentified(entries) && Identified(other) && RowsSettled(t, ctx, x, entries)
    ensures RowsSettled(RowTables(t, ctx, turf, other), ctx, x, entries)
    ensures SameMatches(t.households, RowTables(t, ctx, turf, other).households, ctx, entries)
  {
    var t' := RowTables(t, ctx, turf, other);
    forall k | 0 <= k < |entries|
      ensures RowSettled(t', ctx, x, entries[k].row) && SameMatch(t.households, t'.households, ctx, entries[k])
    {
      RowKeepsSettled(t, ctx, turf, other, x, entries[k].row);
    }
  }

  lemma OneMoreRowSettles(before: Job, ctx: Context, turf: Id, name: string, entries: seq<Entry>, e: Entry, job': Job)
    requires ImportRow(before, ctx, turf, name, e) == Going(job') && Identified(e.row)
    requires AllIdentified(entries) && RowsSettled(before.tables, ctx, turf, entries)
    requires SeenIsNamed(before.tables.households, ctx, entries, before.progress.seen)
    ensures RowsSettled(job'.tables, ctx, turf, entries + [e])
    ensures SeenIsNamed(job'.tables.households, ctx, entries + [e], job'.progress.seen)
  {
    var t, t' := before.tables, RowTables(before.tables, ctx, turf, e.row);
    RowSettles(t, ctx, turf, e.row);
    RowsStaySettled(t, ctx, turf, e.row, turf, entries);
    RowsSettledAppend(t', ctx, turf, entries, e);
    NoteHousehold(before.progress, ResultOf(t, ctx, turf, name, e), t'.households, ctx, e);
    SeenStep(t.households, t'.households, ctx, entries, e, before.progress.seen, job'.progress.seen);
  }

  lemma RowsSettledAppend(t: Tables, ctx: Context, turf: Id, entries: seq<Entry>, e: Entry)
    requires RowsSettled(t, ctx, turf, entries) && RowSettled(t, ctx, turf, e.row)
    ensures RowsSettled(t, ctx, turf, entries + [e])
  {
  }

  lemma NoteHousehold(p: Progress, r: BatchRow, households: seq<Household>, ctx: Context, e: Entry)
    requires r.household == if Usable(e.row) then MatchingHousehold(households, ctx, e.row) else None
    ensures forall h :: h in Record(p, r).seen <==> h in p.seen || Names(households, ctx, e, h)
  {
  }

  lemma SeenStep(households: seq<Household>, households': seq<Household>, ctx: Context, entries: seq<Entry>, e: Entry,
                 seen: set<Id>, seen': set<Id>)
    requires SeenIsNamed(households, ctx, entries, seen) && SameMatches(households, households', ctx, entries)
    requires forall h :: h in seen' <==> h in seen || Names(households', ctx, e, h)
    ensures SeenIsNamed(households', ctx, entries + [e], seen')
  {
    var n := |entries|;
    forall h ensures h in seen' <==> SomeNames(households', ctx, entries + [e], h) {
      if h in seen {
        var k :| 0 <= k < n && Names(households, ctx, entries[k], h);
        assert SameMatch(households, households', ctx, entries[k]);
        assert Names(households', ctx, (entries + [e])[k], h);
      } else if h in seen' {
        assert Names(households', ctx, (entries + [e])[n], h);
      }
      if k :| 0 <= k < n + 1 && Names(households', ctx, (entries + [e])[k], h) {
        if k < n {
          assert SameMatch(households, households', ctx, entries[k]);
          assert Names(households, ctx, entries[k], h);
        }
      }
    }
  }

  /** The group has its turf, all its rows are settled there, and in a replacing import with a usable row the turf
      has no other households. */
  ghost predicate Settled(t: Tables, ctx: Context, g: Group, turf: Id) {
    && GroupNode(t.nodes, g, ctx).Ok?
    && ExistingTurf(t.turfs, ctx, g.name, GroupNode(t.nodes, g, ctx).value) == Some(turf)
    && RowsSettled(t, ctx, turf, g.entries)
    && (ctx.mode == ReplaceMembership ==> OnlyNamed(t, ctx, g, turf))
  }

  ghost predicate OnlyNamed(t: Tables, ctx: Context, g: Group, turf: Id) {
    (exists k :: 0 <= k < |g.entries| && Usable(g.entries[k].row)) ==>
      forall h {:trigger Live(t.addresses, turf, h)} :: Live(t.addresses, turf, h) ==>
        SomeNames(t.households, ctx, g.entries, h)
  }

  lemma {:induction false} GroupSettles(job: Job, ctx: Context, g: Group, job': Job)
    requires ImportGroup(job, ctx, g) == Going(job') && ctx.mode != CreateOnly && AllIdentified(g.entries)
    requires Resolved(job.progress.results, g.name) == {} && References(job.tables)
    ensures |job'.progress.turfs| == |job.progress.turfs| + 1
    ensures Settled(job'.tables, ctx, g, job'.progress.turfs[|job.progress.turfs|])
  {
    var node := GroupNode(job.tables.nodes, g, ctx).value;
    var turf := TurfOfGroup(job.tables.turfs, ctx, g.name, node);
    var begun := BeginGroup(job, ctx, g.name, node);
    var done := ImportRows(begun, ctx, turf, g.name, g.entries).job;
    RowsKeepBatches(begun, ctx, turf, g.name, g.entries);
    FindFirstAppend(job.tables.turfs, [NewTurf(ctx, g.name, node)], TurfMatches(ctx, g.name, node));
    RowsSettle(begun, ctx, turf, g.name, g.entries, done);
    EndKeepsRowsSettled(done, ctx, turf, turf < |job.tables.turfs|, g.entries);
    if ctx.mode == ReplaceMembership && exists k :: 0 <= k < |g.entries| && Usable(g.entries[k].row) {
      OneUsableIsSeen(done, ctx, turf, g.entries);
      forall h {:trigger Live(job'.tables.addresses, turf, h)} | Live(job'.tables.addresses, turf, h)
        ensures SomeNames(job'.tables.households, ctx, g.entries, h)
      {
        RowsAddHouseholds(begun, ctx, turf, g.name, g.entries, h, done);
        EndKeepsSeen(done, ctx, turf, turf < |job.tables.turfs|, h);
        assert turf == |job.tables.turfs| ==> !Live(job.tables.addresses, turf, h);
        assert h in done.progress.seen;
      }
    }
  }

  lemma OneUsableIsSeen(job: Job, ctx: Context, turf: Id, entries: seq<Entry>)
    requires RowsSettled(job.tables, ctx, turf, entries)
    requires SeenIsNamed(job.tables.households, ctx, entries, job.progress.seen)
    requires exists k :: 0 <= k < |entries| && Usable(entries[k].row)
    ensures job.progress.seen != {}
  {
    var k :| 0 <= k < |entries| && Usable(entries[k].row);
    assert RowSettled(job.tables, ctx, turf, entries[k].row);
    var h := MatchingHousehold(job.tables.households, ctx, entries[k].row).value;
    assert Names(job.tables.households, ctx, entries[k], h);
    assert h in job.progress.seen;
  }

  lemma EndKeepsRowsSettled(job: Job, ctx: Context, turf: Id, existed: bool, entries: seq<Entry>)
    requires RowsSettled(job.tables, ctx, turf, entries)
    requires SeenIsNamed(job.tables.households, ctx, entries, job.progress.seen)
    ensures RowsSettled(EndGroup(job, ctx, turf, existed).tables, ctx, turf, entries)
  {
    var t' := EndGroup(job, ctx, turf, existed).tables;
    forall k | 0 <= k < |entries| ensures RowSettled(t', ctx, turf, entries[k].row) {
      assert RowSettled(job.tables, ctx, turf, entries[k].row);
      if Usable(entries[k].row) {
        var h := MatchingHousehold(job.tables.households, ctx, entries[k].row).value;
        assert Names(job.tables.households, ctx, entries[k], h);
        EndKeepsSeen(job, ctx, turf, existed, h);
      }
    }
  }

  // ---------------------------------------------------------------- later groups leave settled groups settled

  lemma {:induction false} RowsKeepOthersMatched(job: Job, ctx: Context, turf: Id, name: string, others: seq<Entry>,
                                                 x: Id, entries: seq<Entry>, job': Job)
    requires ImportRows(job, ctx, turf, name, others) == Going(job') && AllIdentified(others) && AllIdentified(entries)
    requires RowsSettled(job.tables, ctx, x, entries)
    ensures RowsSettled(job'.tables, ctx, x, entries)
    ensures SameMatches(job.tables.households, job'.tables.households, ctx, entries)
  {
    if others != [] {
      var n := |others| - 1;
      var before := ImportRows(job, ctx, turf, name, others[..n]).job;
      RowsKeepOthersMatched(job, ctx, turf, name, others[..n], x, entries, before);
      RowsStaySettled(before.tables, ctx, turf, others[n].row, x, entries);
      SameMatchesTransitive(job.tables.households, before.tables.households, job'.tables.households, ctx, entries);
    }
  }

  lemma SameMatchesTransitive(a: seq<Household>, b: seq<Household>, c: seq<Household>, ctx: Context, entries: seq<Entry>)
    requires SameMatches(a, b, ctx, entries) && SameMatches(b, c, ctx, entries)
    ensures SameMatches(a, c, ctx, entries)
  {
    forall k | 0 <= k < |entries| ensures SameMatch(a, c, ctx, entries[k]) {
      assert SameMatch(a, b, ctx, entries[k]) && SameMatch(b, c, ctx, entries[k]);
    }
  }

  lemma {:induction false} GroupKeepsSettled(job: Job, ctx: Context, other: Group, g: Group, turf: Id, job': Job)
    requires ImportGroup(job, ctx, other) == Going(job') && AllIdentified(other.entries) && AllIdentified(g.entries)
    requires Resolved(job.progress.results, other.name) == {} && Settled(job.tables, ctx, g, turf)
    requires |job'.progress.turfs| == |job.progress.turfs| + 1 && turf != job'.progress.turfs[|job.progress.turfs|]
    ensures Settled(job'.tables, ctx, g, turf)
  {
    var node := GroupNode(job.tables.nodes, other, ctx).value;
    var turf' := TurfOfGroup(job.tables.turfs, ctx, other.name, node);
    var begun := BeginGroup(job, ctx, other.name, node);
    var done := ImportRows(begun, ctx, turf', other.name, other.entries).job;
    RowsKeepBatches(begun, ctx, turf', other.name, other.entries);
    FindFirstAppend(job.tables.turfs, [NewTurf(ctx, other.name, node)],
                    TurfMatches(ctx, g.name, GroupNode(job.tables.nodes, g, ctx).value));
    RowsKeepOthersMatched(begun, ctx, turf', other.name, other.entries, turf, g.entries, done);
    GroupLeavesOthers(job, ctx, other, turf, job');
    SettledMoves(job.tables, job'.tables, ctx, g, turf);
  }

  /** Settledness depends on the matches of the rows and on the addresses of the turf. */
  lemma SettledMoves(t: Tables, t': Tables, ctx: Context, g: Group, turf: Id)
    requires Settled(t, ctx, g, turf) && t'.nodes == t.nodes
    requires ExistingTurf(t'.turfs, ctx, g.name, GroupNode(t.nodes, g, ctx).value) == Some(turf)
    requires forall k :: 0 <= k < |g.entries| && Usable(g.entries[k].row) ==>
               Matched(t'.households, ctx, g.entries[k].row)
    requires SameMatches(t.households, t'.households, ctx, g.entries)
    requires SameAt(t.addresses, t'.addresses, turf)
    ensures Settled(t', ctx, g, turf)
  {
    forall k | 0 <= k < |g.entries| ensures RowSettled(t', ctx, turf, g.entries[k].row) {
      assert RowSettled(t, ctx, turf, g.entries[k].row) && SameMatch(t.households, t'.households, ctx, g.entries[k]);
      if Usable(g.entries[k].row) {
        SameAtMeansLive(t.addresses, t'.addresses, turf, MatchingHousehold(t.households, ctx, g.entries[k].row).value);
      }
    }
    if ctx.mode == ReplaceMembership && exists k :: 0 <= k < |g.entries| && Usable(g.entries[k].row) {
      forall h {:trigger Live(t'.addresses, turf, h)} | Live(t'.addresses, turf, h)
        ensures SomeNames(t'.households, ctx, g.entries, h)
      {
        SameAtMeansLive(t.addresses, t'.addresses, turf, h);
        assert SomeNames(t.households, ctx, g.entries, h);
        var k :| 0 <= k < |g.entries| && Names(t.households, ctx, g.entries[k], h);
        assert SameMatch(t.households, t'.households, ctx, g.entries[k]);
        assert Names(t'.households, ctx, g.entries[k], h);
      }
    }
  }

  /** After an import that reuses turfs, every group is settled on the turf it was imported into. */
  lemma {:induction false} GroupsSettle(job: Job, ctx: Context, groups: seq<Group>, k: nat, job': Job)
    requires ImportGroups(job, ctx, groups) == Going(job') && ctx.mode != CreateOnly
    requires job.progress.turfs == [] && job.progress.results == [] && References(job.tables)
    requires NamesDistinct(groups) && (forall g :: 0 <= g < |groups| ==> AllIdentified(groups[g].entries))
    requires k < |groups|
    ensures |job'.progress.turfs| == |groups| && Settled(job'.tables, ctx, groups[k], job'.progress.turfs[k])
  {
    var n := |groups| - 1;
    var before := ImportGroups(job, ctx, groups[..n]).job;
    GroupsUseNamedTurfs(job, ctx, groups[..n], before);
    GroupsUseNamedTurfs(job, ctx, groups, job');
    GroupUsesNamedTurf(before, ctx, groups[n], job');
    GroupsResolveOnlyOwn(job, ctx, groups[..n], groups[n].name, before);
    GroupsKeepAddresses(job, ctx, groups[..n]);
    if k == n {
      GroupSettles(before, ctx, groups[n], job');
    } else {
      GroupsSettle(job, ctx, groups[..n], k, before);
      assert job'.progress.turfs[..n][k] == before.progress.turfs[k];
      assert job'.tables.turfs[job'.progress.turfs[n]].name != job'.tables.turfs[job'.progress.turfs[k]].name;
      GroupKeepsSettled(before, ctx, groups[n], groups[k], job'.progress.turfs[k], job');
    }
  }

  // ---------------------------------------------------------------- settled groups are skipped

  /** Nothing was created, merged, removed or sent to review. */
  predicate NothingDone(p: Progress) {
    p.created == [] && p.imported == 0 && p.merged == 0 && p.removed == 0 && p.pending == 0
  }

  lemma SettledRowIsSkipped(job: Job, ctx: Context, turf: Id, name: string, e: Entry)
    requires RowSettled(job.tables, ctx, turf, e.row) && ctx.strategy == SkipDuplicate && NothingDone(job.progress)
    ensures var o := ImportRow(job, ctx, turf, name, e);
            && o.Going? && o.job.tables == job.tables && NothingDone(o.job.progress)
            && forall h :: h in o.job.progress.seen <==> h in job.progress.seen || Names(job.tables.households, ctx, e, h)
  {
    assert RowTables(job.tables, ctx, turf, e.row) == job.tables;
    NoteHousehold(job.progress, ResultOf(job.tables, ctx, turf, name, e), job.tables.households, ctx, e);
  }

  lemma {:induction false} SettledRowsAreSkipped(job: Job, ctx: Context, turf: Id, name: string, entries: seq<Entry>)
    requires RowsSettled(job.tables, ctx, turf, entries) && ctx.strategy == SkipDuplicate
    requires NothingDone(job.progress) && job.progress.seen == {}
    ensures var o := ImportRows(job, ctx, turf, name, entries);
            && o.Going? && o.job.tables == job.tables && NothingDone(o.job.progress)
            && SeenIsNamed(job.tables.households, ctx, entries, o.job.progress.seen)
  {
    if entries != [] {
      var n := |entries| - 1;
      assert RowSettled(job.tables, ctx, turf, entries[n].row);
      SettledRowsAreSkipped(job, ctx, turf, name, entries[..n]);
      var before := ImportRows(job, ctx, turf, name, entries[..n]).job;
      SettledRowIsSkipped(before, ctx, turf, name, entries[n]);
      var after := ImportRow(before, ctx, turf, name, entries[n]).job;
      SeenStep(job.tables.households, job.tables.households, ctx, entries[..n], entries[n], before.progress.seen,
               after.progress.seen);
      assert entries[..n] + [entries[n]] == entries;
    }
  }

  lemma SettledEndRemovesNothing(job: Job, ctx: Context, g: Group, turf: Id)
    requires Settled(job.tables, ctx, g, turf)
    requires SeenIsNamed(job.tables.households, ctx, g.entries, job.progress.seen)
    ensures EndGroup(job, ctx, turf, true) == job
  {
    var addresses := job.tables.addresses;
    if ctx.mode == ReplaceMembership && job.progress.seen != {} {
      var h :| h in job.progress.seen;
      var k :| 0 <= k < |g.entries| && Names(job.tables.households, ctx, g.entries[k], h);
      assert Usable(g.entries[k].row);
      forall i | 0 <= i < |addresses| ensures !LiveOutside(turf, job.progress.seen)(addresses[i]) {
        if addresses[i].turf == turf && addresses[i].deletedAt.None? {
          assert LiveAt(turf, addresses[i].household)(addresses[i]);
          assert Live(addresses, turf, addresses[i].household);
        }
      }
      assert UpdateWhere(addresses, LiveOutside(turf, job.progress.seen), Delete(ctx.now)) == addresses;
    }
  }

  lemma {:induction false} SettledGroupIsSkipped(job: Job, ctx: Context, g: Group, turf: Id)
    requires Settled(job.tables, ctx, g, turf) && ctx.strategy == SkipDuplicate && NothingDone(job.progress)
    ensures var o := ImportGroup(job, ctx, g);
            o.Going? && o.job.tables == job.tables && NothingDone(o.job.progress)
  {
    var node := GroupNode(job.tables.nodes, g, ctx).value;
    var begun := BeginGroup(job, ctx, g.name, node);
    SettledRowsAreSkipped(begun, ctx, turf, g.name, g.entries);
    var done := ImportRows(begun, ctx, turf, g.name, g.entries).job;
    SettledEndRemovesNothing(done, ctx, g, turf);
  }

  lemma {:induction false} SettledGroupsAreSkipped(job: Job, ctx: Context, groups: seq<Group>, turfs: seq<Id>)
    requires |turfs| == |groups| && ctx.strategy == SkipDuplicate && NothingDone(job.progress)
    requires forall k :: 0 <= k < |groups| ==> Settled(job.tables, ctx, groups[k], turfs[k])
    ensures var o := ImportGroups(job, ctx, groups);
            o.Going? && o.job.tables == job.tables && NothingDone(o.job.progress)
  {
    if groups != [] {
      var n := |groups| - 1;
      SettledGroupsAreSkipped(job, ctx, groups[..n], turfs[..n]);
      SettledGroupIsSkipped(ImportGroups(job, ctx, groups[..n]).job, ctx, groups[n], turfs[n]);
    }
  }

  // ---------------------------------------------------------------- another strategy, another time

  predicate SameTarget(ctx: Context, ctx': Context) {
    ctx' == ctx.(strategy := ctx'.strategy, now := ctx'.now)
  }

  lemma {:induction false} GroupingIgnoresStrategy(rows: seq<Row>, ctx: Context, ctx': Context)
    requires SameTarget(ctx, ctx')
    ensures GroupRows(rows, ctx') == GroupRows(rows, ctx)
  {
    if rows != [] {
      GroupingIgnoresStrategy(rows[..|rows| - 1], ctx, ctx');
    }
  }

  lemma MatchingIgnoresStrategy(households: seq<Household>, ctx: Context, ctx': Context, row: Row)
    requires SameTarget(ctx, ctx')
    ensures MatchingHousehold(households, ctx', row) == MatchingHousehold(households, ctx, row)
  {
    FindFirstAgrees(households, HouseholdMatches(ctx, row), HouseholdMatches(ctx', row));
  }

  lemma NodeIgnoresStrategy(nodes: seq<Node>, ctx: Context, ctx': Context, g: Group)
    requires SameTarget(ctx, ctx')
    ensures GroupNode(nodes, g, ctx') == GroupNode(nodes, g, ctx)
  {
    var geography := GroupGeography(g.entries, ctx);
    if geography.Some? {
      FindFirstAgrees(nodes, ActiveNode(ctx, geography.value), ActiveNode(ctx', geography.value));
    }
  }

  lemma SettledIgnoresStrategy(t: Tables, ctx: Context, ctx': Context, g: Group, turf: Id)
    requires SameTarget(ctx, ctx') && Settled(t, ctx, g, turf)
    ensures Settled(t, ctx', g, turf)
  {
    NodeIgnoresStrategy(t.nodes, ctx, ctx', g);
    var node := GroupNode(t.nodes, g, ctx).value;
    FindFirstAgrees(t.turfs, TurfMatches(ctx, g.name, node), TurfMatches(ctx', g.name, node));
    forall k | 0 <= k < |g.entries|
      ensures RowSettled(t, ctx', turf, g.entries[k].row)
      ensures forall h :: Names(t.households, ctx', g.entries[k], h) <==> Names(t.households, ctx, g.entries[k], h)
    {
      assert RowSettled(t, ctx, turf, g.entries[k].row);
      MatchingIgnoresStrategy(t.households, ctx, ctx', g.entries[k].row);
    }
    forall h | SomeNames(t.households, ctx, g.entries, h) ensures SomeNames(t.households, ctx', g.entries, h) {
      var k :| 0 <= k < |g.entries| && Names(t.households, ctx, g.entries[k], h);
      assert Names(t.households, ctx', g.entries[k], h);
    }
  }

  // ---------------------------------------------------------------- the theorem

  /** If every usable row carries a VAN household id, then after a successful import that reuses turfs (by whatever
      duplicate strategy), importing the rows again at any time with duplicates skipped succeeds, creates, merges and
      removes nothing, and leaves turfs, households and addresses exactly as they were. */
  lemma {:induction false} ImportingAgainChangesNothing(t: Tables, ctx: Context, rows: seq<Row>, job: Job, again: Context)
    requires ImportCsv(t, ctx, rows) == Going(job) && ctx.mode != CreateOnly && References(t)
    requires forall k :: 0 <= k < |rows| ==> Identified(rows[k])
    requires SameTarget(ctx, again) && again.strategy == SkipDuplicate
    ensures var o := ImportCsv(job.tables, again, rows);
            && o.Going? && NothingDone(o.job.progress)
            && o.job.tables == job.tables.(batches := o.job.tables.batches)
  {
    var groups := GroupRows(rows, ctx);
    GroupsAreByName(rows, ctx);
    forall g | 0 <= g < |groups| ensures AllIdentified(groups[g].entries) {
      assert GroupIsRows(groups[g], rows, ctx);
      forall k | 0 <= k < |groups[g].entries| ensures Identified(groups[g].entries[k].row) {
        assert EntryIsRow(groups[g].entries[k], groups[g].name, rows, ctx);
      }
    }
    var first := ImportGroups(Job(t, START), ctx, groups).job;
    var turfs := first.progress.turfs;
    GroupsUseNamedTurfs(Job(t, START), ctx, groups, first);
    forall k | 0 <= k < |groups| ensures Settled(job.tables, again, groups[k], turfs[k]) {
      GroupsSettle(Job(t, START), ctx, groups, k, first);
      SettledMoves(first.tables, job.tables, ctx, groups[k], turfs[k]);
      SettledIgnoresStrategy(job.tables, ctx, again, groups[k], turfs[k]);
    }
    GroupingIgnoresStrategy(rows, ctx, again);
    SettledGroupsAreSkipped(Job(job.tables, START), again, groups, turfs);
  }
}
