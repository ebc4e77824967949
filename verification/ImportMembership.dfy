/** Which households an import leaves on which turf. */
module ImportMembership {
  import opened Common
  import opened ImportTables
  import opened ImportProperties

  /** The household has a live address on the turf. */
  predicate Live(addresses: seq<Address>, turf: Id, household: Id) {
    DuplicateOf(addresses, turf, household).Some?
  }

  /** The households that the rows of a turf name resolved to. */
  function Resolved(results: seq<BatchRow>, name: string): set<Id> {
    if results == [] then {}
    else
      var last := results[|results| - 1];
      Resolved(results[..|results| - 1], name)
      + if last.turfName == name && last.household.Some? then {last.household.value} else {}
  }

  lemma ResolvedOneMore(results: seq<BatchRow>, r: BatchRow, name: string)
    ensures Resolved(results + [r], name)
         == Resolved(results, name) + if r.turfName == name && r.household.Some? then {r.household.value} else {}
  {
    assert (results + [r])[..|results|] == results;
  }

  // ---------------------------------------------------------------- turfs that stay as they are

  /** The addresses of a turf are the same in both tables. */
  ghost predicate SameAt(before: seq<Address>, after: seq<Address>, turf: Id) {
    && |before| <= |after|
    && (forall i {:trigger after[i]} {:trigger before[i]} :: 0 <= i < |before| ==>
          after[i].turf == before[i].turf && (before[i].turf == turf ==> after[i] == before[i]))
    && (forall i {:trigger after[i]} :: |before| <= i < |after| ==> after[i].turf != turf)
  }

  lemma SameAtMeansLive(before: seq<Address>, after: seq<Address>, turf: Id, h: Id)
    requires SameAt(before, after, turf)
    ensures Live(after, turf, h) <==> Live(before, turf, h)
  {
    if Live(before, turf, h) {
      var i := DuplicateOf(before, turf, h).value;
      assert LiveAt(turf, h)(after[i]);
    }
    if Live(after, turf, h) {
      var i := DuplicateOf(after, turf, h).value;
      assert LiveAt(turf, h)(before[i]);
    }
  }

  lemma SameAtTransitive(a: seq<Address>, b: seq<Address>, c: seq<Address>, turf: Id)
    requires SameAt(a, b, turf) && SameAt(b, c, turf)
    ensures SameAt(a, c, turf)
  {
    forall i | 0 <= i < |a| ensures c[i].turf == a[i].turf && (a[i].turf == turf ==> c[i] == a[i]) {
      assert b[i].turf == a[i].turf;
    }
  }

  lemma {:induction false} RowsLeaveOthers(job: Job, ctx: Context, turf: Id, name: string, entries: seq<Entry>, x: Id,
                                           job': Job)
    requires ImportRows(job, ctx, turf, name, entries) == Going(job') && x != turf
    ensures SameAt(job.tables.addresses, job'.tables.addresses, x)
  {
    if entries != [] {
      var n := |entries| - 1;
      var before := ImportRows(job, ctx, turf, name, entries[..n]).job;
      RowsLeaveOthers(job, ctx, turf, name, entries[..n], x, before);
      RowLeavesOthers(before, ctx, turf, name, entries[n], x, job');
      SameAtTransitive(job.tables.addresses, before.tables.addresses, job'.tables.addresses, x);
    }
  }

  lemma {:induction false} RowLeavesOthers(job: Job, ctx: Context, turf: Id, name: string, e: Entry, x: Id, job': Job)
    requires ImportRow(job, ctx, turf, name, e) == Going(job') && x != turf
    ensures SameAt(job.tables.addresses, job'.tables.addresses, x)
  {
  }

  lemma EndLeavesOthers(job: Job, ctx: Context, turf: Id, existed: bool, x: Id)
    requires x != turf || job.progress.seen == {}
    ensures SameAt(job.tables.addresses, EndGroup(job, ctx, turf, existed).tables.addresses, x)
  {
  }

  // ---------------------------------------------------------------- the turf of a group

  lemma {:induction false} AddressStepAddsHousehold(addresses: seq<Address>, ctx: Context, turf: Id, h: Id, row: Row, x: Id)
    requires Usable(row)
    ensures Live(AddressesAfter(addresses, ctx, turf, h, row), turf, x) <==> Live(addresses, turf, x) || x == h
  {
    var after := AddressesAfter(addresses, ctx, turf, h, row);
    if Live(addresses, turf, x) {
      assert LiveAt(turf, x)(after[DuplicateOf(addresses, turf, x).value]);
    } else if x == h {
      assert LiveAt(turf, x)(after[|addresses|]);
    } else {
      assert forall i :: 0 <= i < |addresses| ==> !LiveAt(turf, x)(addresses[i]);
    }
  }

  /** The household that a usable row resolves to. */
  function HouseholdOfRow(households: seq<Household>, ctx: Context, row: Row): set<Id> {
    if Usable(row) then {HouseholdOf(households, ctx, row)} else {}
  }

  /** While a group is imported, its turf gains exactly the households its rows resolve to. */
  lemma {:induction false} RowsAddHouseholds(job: Job, ctx: Context, turf: Id, name: string, entries: seq<Entry>, x: Id,
                                             job': Job)
    requires ImportRows(job, ctx, turf, name, entries) == Going(job')
    requires job.progress.seen == {} && Resolved(job.progress.results, name) == {}
    ensures job'.progress.seen == Resolved(job'.progress.results, name)
    ensures Live(job'.tables.addresses, turf, x) <==> Live(job.tables.addresses, turf, x) || x in job'.progress.seen
    ensures job'.progress.seen == {} ==> job'.tables.addresses == job.tables.addresses
  {
    if entries != [] {
      var n := |entries| - 1;
      var before := ImportRows(job, ctx, turf, name, entries[..n]).job;
      RowsAddHouseholds(job, ctx, turf, name, entries[..n], x, before);
      RowAddsHousehold(before, ctx, turf, name, entries[n], x, job');
    }
  }

  lemma {:induction false} RowAddsHousehold(job: Job, ctx: Context, turf: Id, name: string, e: Entry, x: Id, job': Job)
    requires ImportRow(job, ctx, turf, name, e) == Going(job')
    requires job.progress.seen == Resolved(job.progress.results, name)
    ensures var gained := HouseholdOfRow(job.tables.households, ctx, e.row);
            && job'.progress.seen == job.progress.seen + gained == Resolved(job'.progress.results, name)
            && (Live(job'.tables.addresses, turf, x) <==> Live(job.tables.addresses, turf, x) || x in gained)
            && (gained == {} ==> job'.tables == job.tables)
  {
    assert Usable(e.row) ==> HouseholdOf(job.tables.households, ctx, e.row) in HouseholdOfRow(job.tables.households, ctx, e.row);
    ResolvedOneMore(job.progress.results, ResultOf(job.tables, ctx, turf, name, e), name);
    ResultNamesHousehold(job.tables, ctx, turf, name, e);
    RowTablesAddHousehold(job.tables, ctx, turf, e.row, x);
  }

  lemma {:induction false} ResultNamesHousehold(t: Tables, ctx: Context, turf: Id, name: string, e: Entry)
    ensures var r := ResultOf(t, ctx, turf, name, e);
            && r.turfName == name
            && (if r.household.Some? then {r.household.value} else {}) == HouseholdOfRow(t.households, ctx, e.row)
  {
  }

  lemma {:induction false} RowTablesAddHousehold(t: Tables, ctx: Context, turf: Id, row: Row, x: Id)
    ensures Live(RowTables(t, ctx, turf, row).addresses, turf, x)
       <==> Live(t.addresses, turf, x) || (Usable(row) && x == HouseholdOf(t.households, ctx, row))
  {
    if Usable(row) {
      AddressStepAddsHousehold(t.addresses, ctx, turf, HouseholdOf(t.households, ctx, row), row, x);
    }
  }

  lemma EndKeepsSeen(job: Job, ctx: Context, turf: Id, existed: bool, x: Id)
    ensures Live(EndGroup(job, ctx, turf, existed).tables.addresses, turf, x)
       <==> Live(job.tables.addresses, turf, x)
            && (ctx.mode == ReplaceMembership && existed && job.progress.seen != {} ==> x in job.progress.seen)
  {
    var after := EndGroup(job, ctx, turf, existed).tables.addresses;
    if Live(job.tables.addresses, turf, x) {
      var i := DuplicateOf(job.tables.addresses, turf, x).value;
      assert LiveAt(turf, x)(job.tables.addresses[i]);
    }
    if Live(after, turf, x) {
      var i := DuplicateOf(after, turf, x).value;
      assert LiveAt(turf, x)(after[i]);
    }
  }

  /** The households of the group's turf afterwards: those its rows resolved to and, unless the import replaces them,
      those it had. */
  ghost predicate HasMembers(before: seq<Address>, after: seq<Address>, mode: Mode, turf: Id, resolved: set<Id>, h: Id) {
    Live(after, turf, h) <==>
      h in resolved || (Live(before, turf, h) && (mode == ReplaceMembership ==> resolved == {}))
  }

  lemma {:induction false} GroupSetsMembers(job: Job, ctx: Context, g: Group, h: Id, job': Job)
    requires ImportGroup(job, ctx, g) == Going(job')
    requires Resolved(job.progress.results, g.name) == {} && References(job.tables)
    ensures |job'.progress.turfs| == |job.progress.turfs| + 1
    ensures HasMembers(job.tables.addresses, job'.tables.addresses, ctx.mode,
                       job'.progress.turfs[|job.progress.turfs|], Resolved(job'.progress.results, g.name), h)
  {
    var node := GroupNode(job.tables.nodes, g, ctx).value;
    var turf := TurfOfGroup(job.tables.turfs, ctx, g.name, node);
    var begun := BeginGroup(job, ctx, g.name, node);
    var rowsDone := ImportRows(begun, ctx, turf, g.name, g.entries).job;
    RowsKeepBatches(begun, ctx, turf, g.name, g.entries);
    RowsAddHouseholds(begun, ctx, turf, g.name, g.entries, h, rowsDone);
    EndKeepsSeen(rowsDone, ctx, turf, turf < |job.tables.turfs|, h);
    assert turf == |job.tables.turfs| ==> !Live(job.tables.addresses, turf, h);
  }

  lemma {:induction false} GroupLeavesOthers(job: Job, ctx: Context, g: Group, x: Id, job': Job)
    requires ImportGroup(job, ctx, g) == Going(job')
    requires Resolved(job.progress.results, g.name) == {}
    requires |job'.progress.turfs| == |job.progress.turfs| + 1
    requires x != job'.progress.turfs[|job.progress.turfs|] || Resolved(job'.progress.results, g.name) == {}
    ensures SameAt(job.tables.addresses, job'.tables.addresses, x)
  {
    var node := GroupNode(job.tables.nodes, g, ctx).value;
    var turf := TurfOfGroup(job.tables.turfs, ctx, g.name, node);
    var begun := BeginGroup(job, ctx, g.name, node);
    var rowsDone := ImportRows(begun, ctx, turf, g.name, g.entries).job;
    RowsKeepBatches(begun, ctx, turf, g.name, g.entries);
    RowsAddHouseholds(begun, ctx, turf, g.name, g.entries, x, rowsDone);
    if x != turf {
      RowsLeaveOthers(begun, ctx, turf, g.name, g.entries, x, rowsDone);
    }
    EndLeavesOthers(rowsDone, ctx, turf, turf < |job.tables.turfs|, x);
    SameAtTransitive(job.tables.addresses, rowsDone.tables.addresses, job'.tables.addresses, x);
  }

  // ---------------------------------------------------------------- groups have different turfs

  lemma {:induction false} RowsResolveOnlyOwn(job: Job, ctx: Context, turf: Id, name: string, entries: seq<Entry>,
                                              other: string, job': Job)
    requires ImportRows(job, ctx, turf, name, entries) == Going(job')
    ensures Resolved(job.progress.results, other) <= Resolved(job'.progress.results, other)
    ensures other != name ==> Resolved(job'.progress.results, other) == Resolved(job.progress.results, other)
  {
    if entries != [] {
      var before := ImportRows(job, ctx, turf, name, entries[..|entries| - 1]).job;
      RowsResolveOnlyOwn(job, ctx, turf, name, entries[..|entries| - 1], other, before);
      ResolvedOneMore(before.progress.results, ResultOf(before.tables, ctx, turf, name, entries[|entries| - 1]), other);
    }
  }

  lemma GroupResolvesOnlyOwn(job: Job, ctx: Context, g: Group, other: string, job': Job)
    requires ImportGroup(job, ctx, g) == Going(job')
    ensures Resolved(job.progress.results, other) <= Resolved(job'.progress.results, other)
    ensures other != g.name ==> Resolved(job'.progress.results, other) == Resolved(job.progress.results, other)
  {
    var node := GroupNode(job.tables.nodes, g, ctx).value;
    var turf := TurfOfGroup(job.tables.turfs, ctx, g.name, node);
    var begun := BeginGroup(job, ctx, g.name, node);
    RowsResolveOnlyOwn(begun, ctx, turf, g.name, g.entries, other, ImportRows(begun, ctx, turf, g.name, g.entries).job);
  }

  lemma {:induction false} GroupsResolveOnlyOwn(job: Job, ctx: Context, groups: seq<Group>, other: string, job': Job)
    requires ImportGroups(job, ctx, groups) == Going(job')
    requires forall g :: 0 <= g < |groups| ==> groups[g].name != other
    ensures Resolved(job'.progress.results, other) == Resolved(job.progress.results, other)
  {
    if groups != [] {
      var before := ImportGroups(job, ctx, groups[..|groups| - 1]).job;
      GroupsResolveOnlyOwn(job, ctx, groups[..|groups| - 1], other, before);
      GroupResolvesOnlyOwn(before, ctx, groups[|groups| - 1], other, job');
    }
  }

  lemma NamesStayDistinct(groups: seq<Group>, n: nat)
    requires NamesDistinct(groups) && n < |groups|
    ensures NamesDistinct(groups[..n])
    ensures forall k :: 0 <= k < n ==> groups[..n][k] == groups[k] && groups[k].name != groups[n].name
  {
  }

  ghost predicate Extends<T(!new)>(rows: seq<T>, rows': seq<T>) {
    && |rows| <= |rows'|
    && forall i {:trigger rows[i]} {:trigger rows'[i]} :: 0 <= i < |rows| ==> rows'[i] == rows[i]
  }

  /** Turfs stay in place, and the one used for a group bears its name. */
  lemma {:induction false} GroupUsesNamedTurf(job: Job, ctx: Context, g: Group, job': Job)
    requires ImportGroup(job, ctx, g) == Going(job')
    ensures Extends(job.tables.turfs, job'.tables.turfs)
    ensures |job'.progress.turfs| == |job.progress.turfs| + 1 && Extends(job.progress.turfs, job'.progress.turfs)
    ensures var turf := job'.progress.turfs[|job.progress.turfs|];
            turf < |job'.tables.turfs| && job'.tables.turfs[turf].name == g.name
  {
    var node := GroupNode(job.tables.nodes, g, ctx).value;
    var turf := TurfOfGroup(job.tables.turfs, ctx, g.name, node);
    RowsKeepBatches(BeginGroup(job, ctx, g.name, node), ctx, turf, g.name, g.entries);
  }

  ghost predicate TurfsNamed(job: Job, groups: seq<Group>) {
    && |job.progress.turfs| == |groups|
    && forall k :: 0 <= k < |groups| ==>
         job.progress.turfs[k] < |job.tables.turfs| && job.tables.turfs[job.progress.turfs[k]].name == groups[k].name
  }

  lemma {:induction false} GroupsUseNamedTurfs(job: Job, ctx: Context, groups: seq<Group>, job': Job)
    requires ImportGroups(job, ctx, groups) == Going(job') && job.progress.turfs == []
    ensures TurfsNamed(job', groups)
  {
    if groups != [] {
      var before := ImportGroups(job, ctx, groups[..|groups| - 1]).job;
      GroupsUseNamedTurfs(job, ctx, groups[..|groups| - 1], before);
      GroupUsesNamedTurf(before, ctx, groups[|groups| - 1], job');
      forall k | 0 <= k < |groups|
        ensures job'.progress.turfs[k] < |job'.tables.turfs|
             && job'.tables.turfs[job'.progress.turfs[k]].name == groups[k].name
      {
        if k < |groups| - 1 {
          assert groups[..|groups| - 1][k] == groups[k] && job'.progress.turfs[k] == before.progress.turfs[k];
          assert job'.tables.turfs[job'.progress.turfs[k]] == before.tables.turfs[before.progress.turfs[k]];
        }
      }
    }
  }

  // ---------------------------------------------------------------- the theorems

  /** A turf that no group with a usable row was imported into keeps its addresses. */
  lemma {:induction false} GroupsLeaveOthers(job: Job, ctx: Context, groups: seq<Group>, x: Id, job': Job)
    requires ImportGroups(job, ctx, groups) == Going(job') && job.progress.turfs == []
    requires job.progress.results == [] && NamesDistinct(groups) && |job'.progress.turfs| == |groups|
    requires forall k :: 0 <= k < |groups| && job'.progress.turfs[k] == x ==>
               Resolved(job'.progress.results, groups[k].name) == {}
    ensures SameAt(job.tables.addresses, job'.tables.addresses, x)
  {
    if groups != [] {
      var n := |groups| - 1;
      var before := ImportGroups(job, ctx, groups[..n]).job;
      GroupsUseNamedTurfs(job, ctx, groups[..n], before);
      GroupsResolveOnlyOwn(job, ctx, groups[..n], groups[n].name, before);
      GroupUsesNamedTurf(before, ctx, groups[n], job');
      GroupLeavesOthers(before, ctx, groups[n], x, job');
      forall k | 0 <= k < n && before.progress.turfs[k] == x
        ensures Resolved(before.progress.results, groups[k].name) == {}
      {
        assert job'.progress.turfs[k] == x;
        GroupResolvesOnlyOwn(before, ctx, groups[n], groups[k].name, job');
      }
      NamesStayDistinct(groups, n);
      GroupsLeaveOthers(job, ctx, groups[..n], x, before);
      SameAtTransitive(job.tables.addresses, before.tables.addresses, job'.tables.addresses, x);
    }
  }

  lemma {:induction false} GroupsSetMembers(job: Job, ctx: Context, groups: seq<Group>, k: nat, h: Id, job': Job)
    requires ImportGroups(job, ctx, groups) == Going(job') && job.progress.turfs == [] && job.progress.results == []
    requires NamesDistinct(groups) && References(job.tables) && k < |groups|
    ensures |job'.progress.turfs| == |groups|
    ensures HasMembers(job.tables.addresses, job'.tables.addresses, ctx.mode, job'.progress.turfs[k],
                       Resolved(job'.progress.results, groups[k].name), h)
  {
    var n := |groups| - 1;
    var before := ImportGroups(job, ctx, groups[..n]).job;
    NamesStayDistinct(groups, n);
    if k == n {
      LastGroupSetsMembers(job, ctx, groups[..n], groups[n], h, before, job');
    } else {
      GroupsSetMembers(job, ctx, groups[..n], k, h, before);
      LaterGroupKeepsMembers(job, ctx, groups[..n], groups[n], k, h, before, job');
    }
  }

  lemma {:induction false} LastGroupSetsMembers(job: Job, ctx: Context, earlier: seq<Group>, g: Group, h: Id,
                                                before: Job, job': Job)
    requires job.progress.results == [] && job.progress.turfs == [] && References(job.tables)
    requires ImportGroups(job, ctx, earlier) == Going(before) && ImportGroup(before, ctx, g) == Going(job')
    requires NamesDistinct(earlier) && forall i :: 0 <= i < |earlier| ==> earlier[i].name != g.name
    ensures |job'.progress.turfs| == |earlier| + 1
    ensures HasMembers(job.tables.addresses, job'.tables.addresses, ctx.mode, job'.progress.turfs[|earlier|],
                       Resolved(job'.progress.results, g.name), h)
  {
    GroupsUseNamedTurfs(job, ctx, earlier, before);
    GroupUsesNamedTurf(before, ctx, g, job');
    GroupsResolveOnlyOwn(job, ctx, earlier, g.name, before);
    GroupsKeepAddresses(job, ctx, earlier);
    GroupSetsMembers(before, ctx, g, h, job');
    var turf := job'.progress.turfs[|earlier|];
    OtherTurfs(before, earlier, job', g.name, turf);
    GroupsLeaveOthers(job, ctx, earlier, turf, before);
    SameAtMeansLive(job.tables.addresses, before.tables.addresses, turf, h);
  }

  lemma {:induction false} LaterGroupKeepsMembers(job: Job, ctx: Context, earlier: seq<Group>, g: Group, k: nat, h: Id,
                                                  before: Job, job': Job)
    requires job.progress.results == [] && job.progress.turfs == [] && k < |earlier|
    requires ImportGroups(job, ctx, earlier) == Going(before) && ImportGroup(before, ctx, g) == Going(job')
    requires forall i :: 0 <= i < |earlier| ==> earlier[i].name != g.name
    requires |before.progress.turfs| == |earlier|
    requires HasMembers(job.tables.addresses, before.tables.addresses, ctx.mode, before.progress.turfs[k],
                        Resolved(before.progress.results, earlier[k].name), h)
    ensures |job'.progress.turfs| == |earlier| + 1
    ensures HasMembers(job.tables.addresses, job'.tables.addresses, ctx.mode, job'.progress.turfs[k],
                       Resolved(job'.progress.results, earlier[k].name), h)
  {
    var turf := before.progress.turfs[k];
    GroupsUseNamedTurfs(job, ctx, earlier, before);
    GroupUsesNamedTurf(before, ctx, g, job');
    GroupsResolveOnlyOwn(job, ctx, earlier, g.name, before);
    GroupResolvesOnlyOwn(before, ctx, g, earlier[k].name, job');
    assert job'.progress.turfs[k] == turf && job'.tables.turfs[turf] == before.tables.turfs[turf];
    GroupLeavesOthers(before, ctx, g, turf, job');
    SameAtMeansLive(before.tables.addresses, job'.tables.addresses, turf, h);
  }

  lemma OtherTurfs(before: Job, groups: seq<Group>, after: Job, name: string, turf: Id)
    requires TurfsNamed(before, groups) && forall k :: 0 <= k < |groups| ==> groups[k].name != name
    requires Extends(before.tables.turfs, after.tables.turfs) && turf < |after.tables.turfs|
    requires after.tables.turfs[turf].name == name
    ensures forall k :: 0 <= k < |groups| ==> before.progress.turfs[k] != turf
  {
    forall k | 0 <= k < |groups| ensures before.progress.turfs[k] != turf {
      assert after.tables.turfs[before.progress.turfs[k]] == before.tables.turfs[before.progress.turfs[k]];
    }
  }

  /** Import in any mode: the turf of each group ends up with the households its rows resolved to and, unless it is
      replaced, those it had before. So a replacing import leaves the turf of a group with a usable row with exactly
      the households of the group. */
  lemma {:induction false} ImportSetsMembers(t: Tables, ctx: Context, rows: seq<Row>, job: Job, k: nat, h: Id)
    requires ImportCsv(t, ctx, rows) == Going(job) && References(t) && k < |GroupRows(rows, ctx)|
    ensures |job.progress.turfs| == |GroupRows(rows, ctx)|
    ensures var turf := job.progress.turfs[k];
            var resolved := Resolved(job.progress.results, GroupRows(rows, ctx)[k].name);
            && turf < |job.tables.turfs| && job.tables.turfs[turf].name == GroupRows(rows, ctx)[k].name
            && HasMembers(t.addresses, job.tables.addresses, ctx.mode, turf, resolved, h)
            && (ctx.mode == ReplaceMembership && resolved != {} ==>
                  (Live(job.tables.addresses, turf, h) <==> h in resolved))
  {
    GroupsAreByName(rows, ctx);
    var groups := GroupRows(rows, ctx);
    var done := ImportGroups(Job(t, START), ctx, groups).job;
    GroupsUseNamedTurfs(Job(t, START), ctx, groups, done);
    GroupsSetMembers(Job(t, START), ctx, groups, k, h, done);
  }

  /** Every turf that no usable row was imported into keeps exactly the addresses it had. */
  lemma {:induction false} ImportLeavesOtherTurfs(t: Tables, ctx: Context, rows: seq<Row>, job: Job, x: Id)
    requires ImportCsv(t, ctx, rows) == Going(job) && References(t)
    requires |job.progress.turfs| == |GroupRows(rows, ctx)|
    requires forall k :: 0 <= k < |GroupRows(rows, ctx)| && job.progress.turfs[k] == x ==>
               Resolved(job.progress.results, GroupRows(rows, ctx)[k].name) == {}
    ensures SameAt(t.addresses, job.tables.addresses, x)
  {
    GroupsAreByName(rows, ctx);
    GroupsLeaveOthers(Job(t, START), ctx, GroupRows(rows, ctx), x,
                      ImportGroups(Job(t, START), ctx, GroupRows(rows, ctx)).job);
  }
}
