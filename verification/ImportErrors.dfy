/** When an import succeeds, decided from the tables before it. */
module ImportErrors {
  import opened Common
  import opened ImportTables
  import opened ImportProperties
  import opened ImportMembership

  // ---------------------------------------------------------------- households, whatever happens to the addresses

  /** The households after rows were matched, in order, against them. */
  function HouseholdsThrough(households: seq<Household>, ctx: Context, entries: seq<Entry>): seq<Household> {
    if entries == [] then households
    else
      var n := |entries| - 1;
      var before := HouseholdsThrough(households, ctx, entries[..n]);
      if Usable(entries[n].row) then HouseholdsAfter(before, ctx, entries[n].row) else before
  }

  function HouseholdsThroughGroups(households: seq<Household>, ctx: Context, groups: seq<Group>): seq<Household> {
    if groups == [] then households
    else
      var n := |groups| - 1;
      HouseholdsThrough(HouseholdsThroughGroups(households, ctx, groups[..n]), ctx, groups[n].entries)
  }

  /** The households that the usable ones of the rows resolve to. */
  function ResolvedBy(households: seq<Household>, ctx: Context, entries: seq<Entry>): set<Id> {
    if entries == [] then {}
    else
      var n := |entries| - 1;
      ResolvedBy(households, ctx, entries[..n])
      + HouseholdOfRow(HouseholdsThrough(households, ctx, entries[..n]), ctx, entries[n].row)
  }

  // ---------------------------------------------------------------- duplicates

  /** The households with a live address on the turf. */
  function Members(addresses: seq<Address>, turf: Id): set<Id> {
    set a | a in addresses && a.turf == turf && a.deletedAt.None? :: a.household
  }

  lemma MembersAreLive(addresses: seq<Address>, turf: Id, h: Id)
    ensures h in Members(addresses, turf) <==> Live(addresses, turf, h)
  {
    if h in Members(addresses, turf) {
      var a :| a in addresses && a.turf == turf && a.deletedAt.None? && a.household == h;
      assert LiveAt(turf, h)(a);
    }
  }

  /** A usable row resolves to a household that is among the members, or that an earlier row resolved to. */
  predicate EntriesClash(members: set<Id>, households: seq<Household>, ctx: Context, entries: seq<Entry>) {
    entries != [] &&
    var n := |entries| - 1;
    || EntriesClash(members, households, ctx, entries[..n])
    || !(HouseholdOfRow(HouseholdsThrough(households, ctx, entries[..n]), ctx, entries[n].row)
         !! members + ResolvedBy(households, ctx, entries[..n]))
  }

  /** The members of the turf that the group will be imported into, as the tables stand. */
  function MembersOfGroup(t: Tables, ctx: Context, g: Group, node: Option<Id>): set<Id> {
    match ExistingTurf(t.turfs, ctx, g.name, node)
    case Some(turf) => Members(t.addresses, turf)
    case None => {}
  }

  /** In some group a row resolves to a household that its turf has already, or gets from an earlier row. */
  predicate GroupsClash(t: Tables, ctx: Context, groups: seq<Group>) {
    groups != [] &&
    var n := |groups| - 1;
    var node := GroupNode(t.nodes, groups[n], ctx);
    || GroupsClash(t, ctx, groups[..n])
    || (node.Ok? && EntriesClash(MembersOfGroup(t, ctx, groups[n], node.value),
                                 HouseholdsThroughGroups(t.households, ctx, groups[..n]), ctx, groups[n].entries))
  }

  // ---------------------------------------------------------------- rows

  lemma {:induction false} RowGoesOn(job: Job, ctx: Context, turf: Id, name: string, e: Entry)
    ensures var o, hs := ImportRow(job, ctx, turf, name, e), job.tables.households;
            var gained, members := HouseholdOfRow(hs, ctx, e.row), Members(job.tables.addresses, turf);
            && (o.Going? <==> ctx.strategy != RaiseError || gained !! members)
            && (o.Going? ==> Members(o.job.tables.addresses, turf) == members + gained)
            && (o.Going? ==> o.job.tables.households
                             == if Usable(e.row) then HouseholdsAfter(hs, ctx, e.row) else hs)
  {
    if Usable(e.row) {
      var h := HouseholdOf(job.tables.households, ctx, e.row);
      MembersAreLive(job.tables.addresses, turf, h);
      var after := AddressesAfter(job.tables.addresses, ctx, turf, h, e.row);
      assert forall x :: x in HouseholdOfRow(job.tables.households, ctx, e.row) <==> x == h;
      assert Members(after, turf) == Members(job.tables.addresses, turf) + {h} by {
        forall x ensures x in Members(after, turf) <==> x in Members(job.tables.addresses, turf) || x == h {
          MembersAreLive(after, turf, x);
          MembersAreLive(job.tables.addresses, turf, x);
          AddressStepAddsHousehold(job.tables.addresses, ctx, turf, h, e.row, x);
        }
      }
    }
  }

  lemma {:induction false} RowsGoOn(job: Job, ctx: Context, turf: Id, name: string, entries: seq<Entry>)
    ensures var o, hs := ImportRows(job, ctx, turf, name, entries), job.tables.households;
            var members := Members(job.tables.addresses, turf);
            && (o.Going? <==> ctx.strategy != RaiseError || !EntriesClash(members, hs, ctx, entries))
            && (o.Going? ==> Members(o.job.tables.addresses, turf) == members + ResolvedBy(hs, ctx, entries))
            && (o.Going? ==> o.job.tables.households == HouseholdsThrough(hs, ctx, entries))
  {
    if entries != [] {
      var n := |entries| - 1;
      RowsGoOn(job, ctx, turf, name, entries[..n]);
      var o := ImportRows(job, ctx, turf, name, entries[..n]);
      if o.Going? {
        RowGoesOn(o.job, ctx, turf, name, entries[n]);
      }
    }
  }

  // ---------------------------------------------------------------- groups find the turfs they would have found at first

  lemma {:induction false} GroupsAddOnlyNamed(job: Job, ctx: Context, groups: seq<Group>, name: string, job': Job)
    requires ImportGroups(job, ctx, groups) == Going(job')
    requires forall k :: 0 <= k < |groups| ==> groups[k].name != name
    ensures Extends(job.tables.turfs, job'.tables.turfs)
    ensures forall i :: |job.tables.turfs| <= i < |job'.tables.turfs| ==> job'.tables.turfs[i].name != name
  {
    if groups != [] {
      var n := |groups| - 1;
      var before := ImportGroups(job, ctx, groups[..n]).job;
      assert forall k :: 0 <= k < n ==> groups[..n][k] == groups[k];
      GroupsAddOnlyNamed(job, ctx, groups[..n], name, before);
      GroupAddsOnlyNamed(before, ctx, groups[n], job');
    }
  }

  lemma {:induction false} GroupAddsOnlyNamed(job: Job, ctx: Context, g: Group, job': Job)
    requires ImportGroup(job, ctx, g) == Going(job')
    ensures Extends(job.tables.turfs, job'.tables.turfs)
    ensures forall i :: |job.tables.turfs| <= i < |job'.tables.turfs| ==> job'.tables.turfs[i].name == g.name
  {
    var node := GroupNode(job.tables.nodes, g, ctx).value;
    var turf := TurfOfGroup(job.tables.turfs, ctx, g.name, node);
    RowsKeepBatches(BeginGroup(job, ctx, g.name, node), ctx, turf, g.name, g.entries);
  }

  lemma FindsSameTurf(turfs: seq<Turf>, turfs': seq<Turf>, ctx: Context, name: string, node: Option<Id>)
    requires Extends(turfs, turfs')
    requires forall i :: |turfs| <= i < |turfs'| ==> turfs'[i].name != name
    ensures ExistingTurf(turfs', ctx, name, node) == ExistingTurf(turfs, ctx, name, node)
  {
    var p := TurfMatches(ctx, name, node);
    var found, found' := FindFirst(turfs, p), FindFirst(turfs', p);
    if found.Some? {
      assert p(turfs'[found.value]);
    }
    if found'.Some? {
      assert found'.value < |turfs| && p(turfs[found'.value]);
    }
  }

  lemma SameAtMeansMembers(before: seq<Address>, after: seq<Address>, turf: Id)
    requires SameAt(before, after, turf)
    ensures Members(after, turf) == Members(before, turf)
  {
    forall h ensures h in Members(after, turf) <==> h in Members(before, turf) {
      MembersAreLive(before, turf, h);
      MembersAreLive(after, turf, h);
      SameAtMeansLive(before, after, turf, h);
    }
  }

  /** When its turn comes, a group meets the turf and the members that the tables had at the start. */
  lemma {:induction false} GroupMeetsMembers(job: Job, ctx: Context, groups: seq<Group>, node: Option<Id>, before: Job)
    requires groups != [] && NamesDistinct(groups) && References(job.tables)
    requires job.progress.turfs == [] && job.progress.results == []
    requires ImportGroups(job, ctx, groups[..|groups| - 1]) == Going(before)
    ensures var g := groups[|groups| - 1];
            Members(before.tables.addresses, TurfOfGroup(before.tables.turfs, ctx, g.name, node))
            == MembersOfGroup(job.tables, ctx, g, node)
  {
    var n := |groups| - 1;
    var g := groups[n];
    NamesStayDistinct(groups, n);
    GroupsAddOnlyNamed(job, ctx, groups[..n], g.name, before);
    FindsSameTurf(job.tables.turfs, before.tables.turfs, ctx, g.name, node);
    match ExistingTurf(job.tables.turfs, ctx, g.name, node)
    case Some(turf) =>
      GroupsUseNamedTurfs(job, ctx, groups[..n], before);
      OtherTurfs(before, groups[..n], before, g.name, turf);
      GroupsLeaveOthers(job, ctx, groups[..n], turf, before);
      SameAtMeansMembers(job.tables.addresses, before.tables.addresses, turf);
    case None =>
      GroupsKeepAddresses(job, ctx, groups[..n]);
      forall a | a in before.tables.addresses ensures a.turf != |before.tables.turfs| {
        var i :| 0 <= i < |before.tables.addresses| && before.tables.addresses[i] == a;
      }
  }

  lemma {:induction false} GroupGoesOn(job: Job, ctx: Context, g: Group, node: Option<Id>)
    requires GroupNode(job.tables.nodes, g, ctx) == Ok(node)
    ensures var o, hs := ImportGroup(job, ctx, g), job.tables.households;
            var members := Members(job.tables.addresses, TurfOfGroup(job.tables.turfs, ctx, g.name, node));
            && (o.Going? <==> ctx.strategy != RaiseError || !EntriesClash(members, hs, ctx, g.entries))
            && (o.Going? ==> o.job.tables.households == HouseholdsThrough(hs, ctx, g.entries))
  {
    RowsGoOn(BeginGroup(job, ctx, g.name, node), ctx, TurfOfGroup(job.tables.turfs, ctx, g.name, node), g.name, g.entries);
  }

  lemma {:induction false} GroupsGoOn(job: Job, ctx: Context, groups: seq<Group>)
    requires NamesDistinct(groups) && References(job.tables)
    requires job.progress.turfs == [] && job.progress.results == []
    ensures var o := ImportGroups(job, ctx, groups);
            && (o.Going? <==> Placeable(job.tables.nodes, groups, ctx)
                              && (ctx.strategy != RaiseError || !GroupsClash(job.tables, ctx, groups)))
            && (o.Going? ==>
                  o.job.tables.households == HouseholdsThroughGroups(job.tables.households, ctx, groups))
  {
    if groups != [] {
      var n := |groups| - 1;
      NamesStayDistinct(groups, n);
      GroupsGoOn(job, ctx, groups[..n]);
      PlaceableOneMore(job.tables.nodes, groups, ctx);
      var o, node := ImportGroups(job, ctx, groups[..n]), GroupNode(job.tables.nodes, groups[n], ctx);
      if o.Going? {
        GroupsKeepBatches(job, ctx, groups[..n]);
        if node.Ok? {
          LastGroupGoesOn(job, ctx, groups, node.value, o.job);
        }
      }
    }
  }

  lemma {:induction false} LastGroupGoesOn(job: Job, ctx: Context, groups: seq<Group>, node: Option<Id>, before: Job)
    requires groups != [] && NamesDistinct(groups) && References(job.tables)
    requires job.progress.turfs == [] && job.progress.results == []
    requires ImportGroups(job, ctx, groups[..|groups| - 1]) == Going(before)
    requires before.tables.households == HouseholdsThroughGroups(job.tables.households, ctx, groups[..|groups| - 1])
    requires GroupNode(job.tables.nodes, groups[|groups| - 1], ctx) == Ok(node)
    ensures var g, o, hs := groups[|groups| - 1], ImportGroups(job, ctx, groups), before.tables.households;
            && (o.Going? <==> ctx.strategy != RaiseError
                              || !EntriesClash(MembersOfGroup(job.tables, ctx, g, node), hs, ctx, g.entries))
            && (o.Going? ==> o.job.tables.households == HouseholdsThrough(hs, ctx, g.entries))
  {
    var n := |groups| - 1;
    GroupsKeepBatches(job, ctx, groups[..n]);
    GroupMeetsMembers(job, ctx, groups, node, before);
    GroupGoesOn(before, ctx, groups[n], node);
  }

  lemma PlaceableOneMore(nodes: seq<Node>, groups: seq<Group>, ctx: Context)
    requires groups != []
    ensures var n := |groups| - 1;
            Placeable(nodes, groups, ctx) <==> Placeable(nodes, groups[..n], ctx) && GroupNode(nodes, groups[n], ctx).Ok?
  {
    var n := |groups| - 1;
    assert forall k :: 0 <= k < n ==> groups[..n][k] == groups[k];
    if Placeable(nodes, groups[..n], ctx) && GroupNode(nodes, groups[n], ctx).Ok? {
      forall k | 0 <= k < |groups| ensures GroupNode(nodes, groups[k], ctx).Ok? {
        assert k < n ==> GroupNode(nodes, groups[..n][k], ctx).Ok?;
      }
    }
  }

  /** An import succeeds exactly if it has rows, every turf can be placed and, where duplicates are errors, no usable
      row resolves to a household that its turf has or gets from an earlier row. No row is refused for what it lacks. */
  lemma {:induction false} ImportSucceeds(t: Tables, ctx: Context, rows: seq<Row>)
    requires References(t)
    ensures var groups := GroupRows(rows, ctx);
            ImportCsv(t, ctx, rows).Going? <==>
              && rows != [] && Placeable(t.nodes, groups, ctx)
              && (ctx.strategy != RaiseError || !GroupsClash(t, ctx, groups))
  {
    GroupsAreByName(rows, ctx);
    GroupsGoOn(Job(t, START), ctx, GroupRows(rows, ctx));
  }
}
