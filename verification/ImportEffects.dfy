/** What an import and a review write, field by field, and how many rows meet which fate. */
module ImportEffects {
  import opened Common
  import opened ImportTables
  import opened ImportProperties
  import opened ImportMembership
  import opened ImportErrors

  /** The text given, or else the one there was. */
  predicate Takes<T(==)>(after: Option<T>, given: Option<T>, before: Option<T>) {
    match given
    case Some(value) => after == Some(value)
    case None => after == before
  }

  // ---------------------------------------------------------------- households

  /** The row has the texts that an address needs. */
  predicate Complete(row: Row) {
    row.line1.Some? && row.city.Some? && row.state.Some?
  }

  /** The household is of the organisation and not deleted, and the strongest identifier of the row is its own. */
  predicate Same(h: Household, ctx: Context, row: Row) {
    && h.organization == ctx.organization && !h.deleted
    && (row.vanHouseholdId.Some? ==> h.vanHouseholdId == row.vanHouseholdId)
    && (row.vanHouseholdId.None? && row.vanPersonId.Some? ==> h.vanPersonId == row.vanPersonId)
    && (row.vanHouseholdId.None? && row.vanPersonId.None? ==> h.key == row.key)
  }

  /** The first such household. */
  ghost predicate FirstSame(households: seq<Household>, ctx: Context, row: Row, h: Id) {
    h < |households| && Same(households[h], ctx, row) && forall k :: 0 <= k < h ==> !Same(households[k], ctx, row)
  }

  /** A row belongs to the first household that its strongest identifier names: the VAN household, or else the VAN person,
      or else the address; where there is none, to a new one. */
  lemma {:induction false} HouseholdIsFirstSame(households: seq<Household>, ctx: Context, row: Row)
    ensures var h := HouseholdOf(households, ctx, row);
            FirstSame(households, ctx, row, h)
            || (h == |households| && forall k :: 0 <= k < |households| ==> !Same(households[k], ctx, row))
  {
    assert forall k :: 0 <= k < |households| ==> (HouseholdMatches(ctx, row)(households[k]) <==> Same(households[k], ctx, row));
  }

  /** The row has coordinates or identifiers that the household lacks. */
  predicate KnowsMore(row: Row, h: Household) {
    || (row.latitude.Some? && h.details.latitude.None?) || (row.longitude.Some? && h.details.longitude.None?)
    || (row.vanHouseholdId.Some? && h.vanHouseholdId.None?) || (row.vanPersonId.Some? && h.vanPersonId.None?)
  }

  /** It takes what the row has of second line, unit, coordinates and identifiers, and its address as the key. */
  predicate Filled(h: Household, row: Row, h': Household) {
    && h'.organization == h.organization && h'.deleted == h.deleted && h'.key == row.key
    && h'.details.line1 == h.details.line1 && h'.details.city == h.details.city && h'.details.state == h.details.state
    && h'.details.zip == h.details.zip
    && Takes(h'.details.line2, row.line2, h.details.line2) && Takes(h'.details.unit, row.unit, h.details.unit)
    && Takes(h'.details.latitude, row.latitude, h.details.latitude)
    && Takes(h'.details.longitude, row.longitude, h.details.longitude)
    && Takes(h'.vanHouseholdId, row.vanHouseholdId, h.vanHouseholdId)
    && Takes(h'.vanPersonId, row.vanPersonId, h.vanPersonId)
  }

  predicate HasDetails(d: Details, row: Row) {
    && Some(d.line1) == row.line1 && d.line2 == row.line2 && d.unit == row.unit && Some(d.city) == row.city
    && Some(d.state) == row.state && d.zip == row.zip && d.latitude == row.latitude && d.longitude == row.longitude
  }

  /** Matching changes no household but the row's, which is filled where the row knows more, or added as the row
      describes it. */
  lemma {:induction false} HouseholdWrites(households: seq<Household>, ctx: Context, row: Row)
    requires Complete(row)
    ensures var h, after := HouseholdOf(households, ctx, row), HouseholdsAfter(households, ctx, row);
            && h < |after|
            && after == (if h == |households| then households + [after[h]] else households[h := after[h]])
            && if h == |households| then
                 && after[h].organization == ctx.organization && HasDetails(after[h].details, row)
                 && after[h].key == row.key && !after[h].deleted
                 && after[h].vanHouseholdId == row.vanHouseholdId && after[h].vanPersonId == row.vanPersonId
               else if KnowsMore(row, households[h]) then Filled(households[h], row, after[h])
               else after[h] == households[h]
  {
  }

  // ---------------------------------------------------------------- addresses

  /** An address takes the texts that the row has, and its address as the key if the row has a whole one. */
  predicate TextsTaken(a: Address, row: Row, a': Address) {
    && a'.turf == a.turf && a'.household == a.household && a'.deletedAt == a.deletedAt
    && Takes(Some(a'.details.line1), row.line1, Some(a.details.line1))
    && Takes(Some(a'.details.city), row.city, Some(a.details.city))
    && Takes(Some(a'.details.state), row.state, Some(a.details.state))
    && Takes(a'.details.line2, row.line2, a.details.line2) && Takes(a'.details.unit, row.unit, a.details.unit)
    && Takes(a'.details.zip, row.zip, a.details.zip)
    && Takes(a'.details.latitude, row.latitude, a.details.latitude)
    && Takes(a'.details.longitude, row.longitude, a.details.longitude)
    && a'.key == (if Complete(row) then row.key else a.key)
    && (if row.vanHouseholdId.Some? then a'.vanId == row.vanHouseholdId else Takes(a'.vanId, row.vanPersonId, a.vanId))
  }

  /** A new address of a household on a turf. */
  predicate IsNewAddress(a: Address, turf: Id, household: Id, row: Row) {
    && a.turf == turf && a.household == household && HasDetails(a.details, row) && a.key == row.key
    && a.vanId == (if row.vanHouseholdId.Some? then row.vanHouseholdId else row.vanPersonId) && a.deletedAt.None?
  }

  /** The first live address of the household on the turf. */
  ghost predicate FirstLive(addresses: seq<Address>, turf: Id, h: Id, d: Id) {
    && d < |addresses| && addresses[d].turf == turf && addresses[d].household == h && addresses[d].deletedAt.None?
    && forall k :: 0 <= k < d ==>
         !(addresses[k].turf == turf && addresses[k].household == h && addresses[k].deletedAt.None?)
  }

  // ---------------------------------------------------------------- one row

  function One(status: RowStatus, expected: RowStatus): nat {
    if status == expected then 1 else 0
  }

  /** The result is noted under its counter, and its household among those of the group. */
  predicate Noted(p: Progress, p': Progress, status: RowStatus, address: Option<Id>, candidate: Option<Id>,
                  household: Option<Id>, name: string, e: Entry) {
    && p'.results == p.results + [BatchRow(e.rowIndex, name, status, Some(e.row), address, candidate, household, None)]
    && p'.imported == p.imported + One(status, Created) && p'.merged == p.merged + One(status, Merged)
    && p'.pending == p.pending + One(status, PendingReview) && p'.invalid == p.invalid + One(status, SkippedInvalid)
    && p'.skipped == p.skipped + One(status, SkippedDuplicate) && p'.removed == p.removed
    && p'.seen == (match household case Some(h) => p.seen + {h} case None => p.seen)
    && p'.created == p.created && p'.turfs == p.turfs && p'.nodes == p.nodes
  }

  /** A row without the texts of an address is noted as invalid and nothing else happens. */
  lemma {:induction false} InvalidRow(job: Job, ctx: Context, turf: Id, name: string, e: Entry)
    requires !Complete(e.row)
    ensures var o := ImportRow(job, ctx, turf, name, e);
            && o.Going? && o.job.tables == job.tables
            && Noted(job.progress, o.job.progress, SkippedInvalid, None, None, None, name, e)
  {
  }

  /** A row whose household has no live address on the turf gets one. */
  lemma {:induction false} NewRow(job: Job, ctx: Context, turf: Id, name: string, e: Entry)
    requires Complete(e.row)
    requires HouseholdOf(job.tables.households, ctx, e.row) !in Members(job.tables.addresses, turf)
    ensures var o, t, h := ImportRow(job, ctx, turf, name, e), job.tables, HouseholdOf(job.tables.households, ctx, e.row);
            && o.Going? && |o.job.tables.addresses| == |t.addresses| + 1
            && IsNewAddress(o.job.tables.addresses[|t.addresses|], turf, h, e.row)
            && o.job.tables == t.(households := HouseholdsAfter(t.households, ctx, e.row),
                                  addresses := t.addresses + [o.job.tables.addresses[|t.addresses|]])
            && Noted(job.progress, o.job.progress, Created, Some(|t.addresses|), None, Some(h), name, e)
  {
    MembersAreLive(job.tables.addresses, turf, HouseholdOf(job.tables.households, ctx, e.row));
  }

  /** A row whose household has one meets the strategy: it is skipped, stops the import, is merged into that address, or
      waits for review with that address as the candidate. */
  lemma {:induction false} DuplicateRow(job: Job, ctx: Context, turf: Id, name: string, e: Entry) returns (d: Id)
    requires Complete(e.row)
    requires HouseholdOf(job.tables.households, ctx, e.row) in Members(job.tables.addresses, turf)
    ensures FirstLive(job.tables.addresses, turf, HouseholdOf(job.tables.households, ctx, e.row), d)
    ensures var o, h := ImportRow(job, ctx, turf, name, e), HouseholdOf(job.tables.households, ctx, e.row);
            var matched := job.tables.(households := HouseholdsAfter(job.tables.households, ctx, e.row));
            match ctx.strategy
            case RaiseError => o == Stopped(matched, DuplicateAddress)
            case SkipDuplicate =>
              && o.Going? && o.job.tables == matched
              && Noted(job.progress, o.job.progress, SkippedDuplicate, None, Some(d), Some(h), name, e)
            case ReviewDuplicate =>
              && o.Going? && o.job.tables == matched
              && Noted(job.progress, o.job.progress, PendingReview, None, Some(d), Some(h), name, e)
            case MergeDuplicate =>
              && o.Going? && |o.job.tables.addresses| == |matched.addresses|
              && TextsTaken(matched.addresses[d], e.row, o.job.tables.addresses[d])
              && o.job.tables == matched.(addresses := matched.addresses[d := o.job.tables.addresses[d]])
              && Noted(job.progress, o.job.progress, Merged, Some(d), Some(d), Some(h), name, e)
  {
    var h := HouseholdOf(job.tables.households, ctx, e.row);
    MembersAreLive(job.tables.addresses, turf, h);
    d := DuplicateOf(job.tables.addresses, turf, h).value;
    assert forall k :: 0 <= k < d ==> !LiveAt(turf, h)(job.tables.addresses[k]);
  }

  // ---------------------------------------------------------------- how many rows meet which fate

  /** The rows whose household is a member or was named by an earlier row. */
  function Duplicates(members: set<Id>, households: seq<Household>, ctx: Context, entries: seq<Entry>): nat {
    if entries == [] then 0
    else
      var n := |entries| - 1;
      Duplicates(members, households, ctx, entries[..n])
      + if HouseholdOfRow(HouseholdsThrough(households, ctx, entries[..n]), ctx, entries[n].row)
           !! members + ResolvedBy(households, ctx, entries[..n]) then 0 else 1
  }

  /** Those of all groups, as the tables stand before the import. */
  function DuplicatesIn(t: Tables, ctx: Context, groups: seq<Group>): nat
    requires Placeable(t.nodes, groups, ctx)
  {
    if groups == [] then 0
    else
      var n := |groups| - 1;
      PlaceableOneMore(t.nodes, groups, ctx);
      DuplicatesIn(t, ctx, groups[..n])
      + Duplicates(MembersOfGroup(t, ctx, groups[n], GroupNode(t.nodes, groups[n], ctx).value),
                   HouseholdsThroughGroups(t.households, ctx, groups[..n]), ctx, groups[n].entries)
  }

  function IsIncomplete(): Entry -> bool {
    (e: Entry) => !Complete(e.row)
  }

  function IncompleteIn(groups: seq<Group>): nat {
    if groups == [] then 0
    else IncompleteIn(groups[..|groups| - 1]) + CountWhere(groups[|groups| - 1].entries, IsIncomplete())
  }

  /** Each duplicate is counted as the strategy says, each row without an address as invalid, and every other row as
      imported. */
  predicate Counted(ctx: Context, p: Progress, p': Progress, rows: nat, incomplete: nat, duplicates: nat) {
    && p'.invalid == p.invalid + incomplete && p'.imported + incomplete + duplicates == p.imported + rows
    && p'.skipped == p.skipped + (if ctx.strategy == SkipDuplicate then duplicates else 0)
    && p'.merged == p.merged + (if ctx.strategy == MergeDuplicate then duplicates else 0)
    && p'.pending == p.pending + (if ctx.strategy == ReviewDuplicate then duplicates else 0)
    && (ctx.strategy == RaiseError ==> duplicates == 0)
  }

  lemma {:induction false} RowCounts(job: Job, ctx: Context, turf: Id, name: string, e: Entry, job': Job)
    requires ImportRow(job, ctx, turf, name, e) == Going(job')
    ensures var gained := HouseholdOfRow(job.tables.households, ctx, e.row);
            Counted(ctx, job.progress, job'.progress, 1, if Complete(e.row) then 0 else 1,
                    if gained !! Members(job.tables.addresses, turf) then 0 else 1)
  {
    if !Complete(e.row) {
      InvalidRow(job, ctx, turf, name, e);
    } else {
      var h := HouseholdOf(job.tables.households, ctx, e.row);
      assert h in HouseholdOfRow(job.tables.households, ctx, e.row);
      if h in Members(job.tables.addresses, turf) {
        var d := DuplicateRow(job, ctx, turf, name, e);
      } else {
        assert HouseholdOfRow(job.tables.households, ctx, e.row) == {h};
        NewRow(job, ctx, turf, name, e);
      }
    }
  }

  lemma {:induction false} RowsCount(job: Job, ctx: Context, turf: Id, name: string, entries: seq<Entry>, job': Job)
    requires ImportRows(job, ctx, turf, name, entries) == Going(job')
    ensures Counted(ctx, job.progress, job'.progress, |entries|, CountWhere(entries, IsIncomplete()),
                    Duplicates(Members(job.tables.addresses, turf), job.tables.households, ctx, entries))
  {
    if entries != [] {
      var n := |entries| - 1;
      var before := ImportRows(job, ctx, turf, name, entries[..n]).job;
      RowsCount(job, ctx, turf, name, entries[..n], before);
      RowsGoOn(job, ctx, turf, name, entries[..n]);
      RowCounts(before, ctx, turf, name, entries[n], job');
    }
  }

  lemma {:induction false} GroupCounts(job: Job, ctx: Context, g: Group, node: Option<Id>, job': Job)
    requires GroupNode(job.tables.nodes, g, ctx) == Ok(node) && ImportGroup(job, ctx, g) == Going(job')
    ensures var members := Members(job.tables.addresses, TurfOfGroup(job.tables.turfs, ctx, g.name, node));
            Counted(ctx, job.progress, job'.progress, |g.entries|, CountWhere(g.entries, IsIncomplete()),
                    Duplicates(members, job.tables.households, ctx, g.entries))
  {
    var turf := TurfOfGroup(job.tables.turfs, ctx, g.name, node);
    var begun := BeginGroup(job, ctx, g.name, node);
    RowsCount(begun, ctx, turf, g.name, g.entries, ImportRows(begun, ctx, turf, g.name, g.entries).job);
  }

  lemma {:induction false} GroupsCount(job: Job, ctx: Context, groups: seq<Group>, job': Job)
    requires ImportGroups(job, ctx, groups) == Going(job') && NamesDistinct(groups) && References(job.tables)
    requires job.progress.turfs == [] && job.progress.results == []
    ensures Placeable(job.tables.nodes, groups, ctx)
    ensures Counted(ctx, job.progress, job'.progress, Size(groups), IncompleteIn(groups),
                    DuplicatesIn(job.tables, ctx, groups))
  {
    GroupsGoOn(job, ctx, groups);
    if groups != [] {
      var n := |groups| - 1;
      var before := ImportGroups(job, ctx, groups[..n]).job;
      NamesStayDistinct(groups, n);
      GroupsCount(job, ctx, groups[..n], before);
      GroupsGoOn(job, ctx, groups[..n]);
      GroupsKeepBatches(job, ctx, groups[..n]);
      var node := GroupNode(job.tables.nodes, groups[n], ctx).value;
      GroupMeetsMembers(job, ctx, groups, node, before);
      GroupCounts(before, ctx, groups[n], node, job');
    }
  }

  function RowIsIncomplete(): Row -> bool {
    (row: Row) => !Complete(row)
  }

  lemma {:induction false} IncompleteInOneGroup(groups: seq<Group>, g: nat, e: Entry)
    requires g < |groups|
    ensures IncompleteIn(groups[g := groups[g].(entries := groups[g].entries + [e])])
         == IncompleteIn(groups) + if Complete(e.row) then 0 else 1
  {
    var entries := groups[g].entries + [e];
    var groups' := groups[g := groups[g].(entries := entries)];
    if g == |groups| - 1 {
      assert groups'[..g] == groups[..g] && entries[..|entries| - 1] == groups[g].entries;
    } else {
      IncompleteInOneGroup(groups[..|groups| - 1], g, e);
      assert groups'[..|groups| - 1] == groups[..|groups| - 1][g := groups[g].(entries := entries)];
    }
  }

  lemma {:induction false} IncompleteRowsAreGrouped(rows: seq<Row>, ctx: Context)
    ensures IncompleteIn(GroupRows(rows, ctx)) == CountWhere(rows, RowIsIncomplete())
  {
    if rows != [] {
      var shorter, last := rows[..|rows| - 1], rows[|rows| - 1];
      IncompleteRowsAreGrouped(shorter, ctx);
      IncompleteAdded(GroupRows(shorter, ctx), TurfNameOf(last, ctx), Entry(last, |rows|));
    }
  }

  lemma {:induction false} IncompleteAdded(groups: seq<Group>, name: string, e: Entry)
    ensures IncompleteIn(AddToGroups(groups, name, e)) == IncompleteIn(groups) + if Complete(e.row) then 0 else 1
  {
    match FindFirst(groups, Named(name))
    case None =>
      var groups' := groups + [Group(name, [e])];
      assert groups'[..|groups|] == groups && [e][..0] == [];
    case Some(g) =>
      IncompleteInOneGroup(groups, g, e);
  }

  /** The counters of a successful import are determined before it: rows without an address are invalid; of the others
      those whose household is already on the turf, or named by an earlier row of the group, are skipped, merged or put
      under review as the strategy says; and the rest are imported. */
  lemma {:induction false} CountersAreDetermined(t: Tables, ctx: Context, rows: seq<Row>, job: Job)
    requires ImportCsv(t, ctx, rows) == Going(job) && References(t)
    ensures Placeable(t.nodes, GroupRows(rows, ctx), ctx)
    ensures Counted(ctx, START, job.progress, |rows|, CountWhere(rows, RowIsIncomplete()),
                    DuplicatesIn(t, ctx, GroupRows(rows, ctx)))
    ensures |job.tables.batches| > 0
    ensures var b := job.tables.batches[|job.tables.batches| - 1];
            && b.invalid == CountWhere(rows, RowIsIncomplete())
            && b.pending == if ctx.strategy == ReviewDuplicate then DuplicatesIn(t, ctx, GroupRows(rows, ctx)) else 0
  {
    GroupsAreByName(rows, ctx);
    GroupsCount(Job(t, START), ctx, GroupRows(rows, ctx), ImportGroups(Job(t, START), ctx, GroupRows(rows, ctx)).job);
    GroupingPartitions(rows, ctx, 0);
    IncompleteRowsAreGrouped(rows, ctx);
  }

  // ---------------------------------------------------------------- groups

  /** A row goes to the turf it names, or else to the fallback of the import, or else to "Imported Turf". */
  lemma {:induction false} TurfNameMeans(row: Row, ctx: Context)
    ensures TurfNameOf(row, ctx)
         == match row.turfName
            case Some(name) => name
            case None => match ctx.turfName case Some(name) => name case None => "Imported Turf"
  {
  }

  predicate InOrder(entries: seq<Entry>) {
    forall i, j :: 0 <= i < j < |entries| ==> entries[i].rowIndex < entries[j].rowIndex
  }

  /** Entries ascend within each group and end before a row, and groups are in the order of their first entries. */
  ghost predicate Ordered(groups: seq<Group>, next: nat) {
    && (forall g :: 0 <= g < |groups| ==>
          groups[g].entries != [] && InOrder(groups[g].entries)
          && groups[g].entries[|groups[g].entries| - 1].rowIndex < next)
    && forall g, g' {:trigger groups[g], groups[g']} :: 0 <= g < g' < |groups| ==>
         groups[g].entries[0].rowIndex < groups[g'].entries[0].rowIndex
  }

  /** Rows keep their order within a group, and groups are in the order of their first rows. */
  lemma {:induction false} GroupsAreInOrder(rows: seq<Row>, ctx: Context)
    ensures Ordered(GroupRows(rows, ctx), |rows| + 1)
  {
    if rows != [] {
      var n := |rows| - 1;
      GroupsAreInOrder(rows[..n], ctx);
      AddingKeepsOrder(GroupRows(rows[..n], ctx), TurfNameOf(rows[n], ctx), Entry(rows[n], |rows|));
    }
  }

  lemma {:induction false} AddingKeepsOrder(groups: seq<Group>, name: string, e: Entry)
    requires Ordered(groups, e.rowIndex)
    ensures Ordered(AddToGroups(groups, name, e), e.rowIndex + 1)
  {
    match FindFirst(groups, Named(name))
    case None =>
      forall g | 0 <= g < |groups| ensures groups[g].entries[0].rowIndex < e.rowIndex {
        FirstIsFirst(groups[g].entries);
      }
    case Some(g) =>
      AppendingKeepsOrder(groups[g].entries, e);
  }

  lemma FirstIsFirst(entries: seq<Entry>)
    requires entries != [] && InOrder(entries)
    ensures entries[0].rowIndex <= entries[|entries| - 1].rowIndex
  {
    assert |entries| > 1 ==> entries[0].rowIndex < entries[|entries| - 1].rowIndex;
  }

  lemma AppendingKeepsOrder(entries: seq<Entry>, e: Entry)
    requires entries != [] && InOrder(entries) && entries[|entries| - 1].rowIndex < e.rowIndex
    ensures InOrder(entries + [e])
  {
    forall i | 0 <= i < |entries| ensures entries[i].rowIndex < e.rowIndex {
      assert i < |entries| - 1 ==> entries[i].rowIndex < entries[|entries| - 1].rowIndex;
    }
  }

  /** The geography that a group is for: the one its rows name, or else the fallback. */
  ghost predicate NamesGeography(g: Group, ctx: Context, externalId: string) {
    || (exists k :: 0 <= k < |g.entries| && g.entries[k].row.geography == Some(externalId))
    || ((forall k :: 0 <= k < |g.entries| ==> g.entries[k].row.geography.None?) && ctx.geography == Some(externalId))
  }

  predicate Places(n: Node, ctx: Context, externalId: string) {
    n.organization == ctx.organization && n.externalId == Some(externalId) && n.active
  }

  /** A group is placed at the first active node of the organisation with the external id it names, or nowhere if it
      names none; naming two, or one that no active node has, is an error. */
  lemma {:induction false} GroupNodeMeans(nodes: seq<Node>, g: Group, ctx: Context)
    ensures match GroupNode(nodes, g, ctx)
            case Ok(None) => forall externalId :: !NamesGeography(g, ctx, externalId)
            case Ok(Some(n)) =>
              && n < |nodes| && nodes[n].externalId.Some? && Places(nodes[n], ctx, nodes[n].externalId.value)
              && (forall k :: 0 <= k < n ==> !Places(nodes[k], ctx, nodes[n].externalId.value))
              && (forall externalId :: NamesGeography(g, ctx, externalId) <==> nodes[n].externalId == Some(externalId))
            case Err(MultipleGeographies) =>
              exists i, j :: 0 <= i < j < |g.entries| && g.entries[i].row.geography.Some?
                && g.entries[j].row.geography.Some? && g.entries[i].row.geography != g.entries[j].row.geography
            case Err(UnknownGeography) =>
              exists externalId :: NamesGeography(g, ctx, externalId)
                && forall k :: 0 <= k < |nodes| ==> !Places(nodes[k], ctx, externalId)
            case Err(_) => false
  {
    if !MixesGeographies(g.entries) {
      var first := FindFirst(g.entries, HasGeography());
      assert forall k :: 0 <= k < |g.entries| && g.entries[k].row.geography.Some? ==> HasGeography()(g.entries[k]);
      match GroupGeography(g.entries, ctx)
      case None =>
      case Some(externalId) =>
        assert NamesGeography(g, ctx, externalId);
        assert forall k :: 0 <= k < |nodes| ==> (ActiveNode(ctx, externalId)(nodes[k]) <==> Places(nodes[k], ctx, externalId));
    }
  }

  /** A turf of the name that the import may use: of the organisation and the campaign, not deleted, and of the team, the
      region and the node where those are given. */
  predicate Suits(turf: Turf, ctx: Context, name: string, node: Option<Id>) {
    && turf.name == name && turf.organization == ctx.organization && turf.campaign == ctx.campaign && !turf.deleted
    && (ctx.team.Some? ==> turf.team == ctx.team) && (ctx.region.Some? ==> turf.region == ctx.region)
    && (node.Some? ==> turf.geography == node)
  }

  ghost predicate FirstSuiting(turfs: seq<Turf>, ctx: Context, name: string, node: Option<Id>, t: Id) {
    t < |turfs| && Suits(turfs[t], ctx, name, node) && forall k :: 0 <= k < t ==> !Suits(turfs[k], ctx, name, node)
  }

  /** A group uses the first turf that suits, except where turfs are always created; otherwise it gets a new one as the
      import describes it. Its households are collected from none. */
  lemma {:induction false} GroupBegins(job: Job, ctx: Context, name: string, node: Option<Id>)
    ensures var begun, t := BeginGroup(job, ctx, name, node), TurfOfGroup(job.tables.turfs, ctx, name, node);
            && begun.progress.turfs == job.progress.turfs + [t] && begun.progress.seen == {}
            && (forall n :: n in begun.progress.nodes <==> n in job.progress.nodes || node == Some(n))
            && (Distinct(job.progress.nodes) ==> Distinct(begun.progress.nodes))
            && begun.progress == job.progress.(created := begun.progress.created, turfs := begun.progress.turfs,
                                               nodes := begun.progress.nodes, seen := {})
            && if t < |job.tables.turfs| then
                 && ctx.mode != CreateOnly && FirstSuiting(job.tables.turfs, ctx, name, node, t)
                 && begun.tables == job.tables && begun.progress.created == job.progress.created
               else
                 && (ctx.mode == CreateOnly || forall k :: 0 <= k < t ==> !Suits(job.tables.turfs[k], ctx, name, node))
                 && begun.tables == job.tables.(turfs := job.tables.turfs + [Turf(name, ctx.organization, ctx.campaign,
                                                                                  ctx.team, ctx.region, node, false)])
                 && t == |job.tables.turfs| && begun.progress.created == job.progress.created + [t]
  {
    assert forall k :: 0 <= k < |job.tables.turfs| ==>
      (TurfMatches(ctx, name, node)(job.tables.turfs[k]) <==> Suits(job.tables.turfs[k], ctx, name, node));
  }

  /** After its rows, a group that replaces the membership of an existing turf takes off it every live address of a
      household that none of them named, unless they named none at all. */
  lemma {:induction false} GroupEnds(job: Job, ctx: Context, turf: Id, existed: bool)
    ensures var ended, addresses := EndGroup(job, ctx, turf, existed), job.tables.addresses;
            && |ended.tables.addresses| == |addresses|
            && ended.tables == job.tables.(addresses := ended.tables.addresses)
            && ended.progress == job.progress.(removed := ended.progress.removed)
            && forall k :: 0 <= k < |addresses| ==>
                 ended.tables.addresses[k]
                 == if ctx.mode == ReplaceMembership && existed && job.progress.seen != {}
                       && addresses[k].turf == turf && addresses[k].deletedAt.None?
                       && addresses[k].household !in job.progress.seen
                    then addresses[k].(deletedAt := Some(ctx.now)) else addresses[k]
  {
  }

  // ---------------------------------------------------------------- batches and errors

  /** A successful import records where it belongs, its counters, and the node that its groups were placed at if that was
      a single one. */
  lemma {:induction false} BatchWritten(t: Tables, ctx: Context, rows: seq<Row>, job: Job)
    requires ImportCsv(t, ctx, rows) == Going(job)
    ensures job.tables.batches != []
    ensures var b, p := job.tables.batches[|job.tables.batches| - 1], job.progress;
            b == Batch(ctx.organization, ctx.campaign, ctx.team, ctx.region,
                       if |p.nodes| == 1 then Some(p.nodes[0]) else None, |rows|, p.imported, p.merged, p.removed,
                       p.pending, p.invalid, p.skipped, p.results)
  {
  }

  /** Some group is placed at this node. */
  ghost predicate PlacedAt(nodes: seq<Node>, groups: seq<Group>, ctx: Context, n: Id) {
    exists g :: 0 <= g < |groups| && GroupNode(nodes, groups[g], ctx) == Ok(Some(n))
  }

  predicate Distinct(ids: seq<Id>) {
    forall i, j :: 0 <= i < j < |ids| ==> ids[i] != ids[j]
  }

  lemma {:induction false} NodesAreGathered(job: Job, ctx: Context, groups: seq<Group>, job': Job, n: Id)
    requires ImportGroups(job, ctx, groups) == Going(job') && job.progress.nodes == []
    ensures Distinct(job'.progress.nodes)
    ensures n in job'.progress.nodes <==> PlacedAt(job.tables.nodes, groups, ctx, n)
  {
    if groups != [] {
      var last := |groups| - 1;
      var before := ImportGroups(job, ctx, groups[..last]).job;
      NodesAreGathered(job, ctx, groups[..last], before, n);
      GroupsKeepBatches(job, ctx, groups[..last]);
      GroupGathers(before, ctx, groups[last], job', n);
      PlacedOneMore(job.tables.nodes, groups, ctx, n);
    }
  }

  lemma PlacedOneMore(nodes: seq<Node>, groups: seq<Group>, ctx: Context, n: Id)
    requires groups != []
    ensures var last := |groups| - 1;
            PlacedAt(nodes, groups, ctx, n)
            <==> PlacedAt(nodes, groups[..last], ctx, n) || GroupNode(nodes, groups[last], ctx) == Ok(Some(n))
  {
    assert forall g :: 0 <= g < |groups| - 1 ==> groups[..|groups| - 1][g] == groups[g];
  }

  lemma {:induction false} GroupGathers(job: Job, ctx: Context, g: Group, job': Job, n: Id)
    requires ImportGroup(job, ctx, g) == Going(job') && Distinct(job.progress.nodes)
    ensures Distinct(job'.progress.nodes)
    ensures n in job'.progress.nodes <==> n in job.progress.nodes || GroupNode(job.tables.nodes, g, ctx) == Ok(Some(n))
  {
    var node := GroupNode(job.tables.nodes, g, ctx).value;
    GroupBegins(job, ctx, g.name, node);
    var turf := TurfOfGroup(job.tables.turfs, ctx, g.name, node);
    RowsGatherNothing(BeginGroup(job, ctx, g.name, node), ctx, turf, g.name, g.entries);
  }

  lemma {:induction false} RowsGatherNothing(job: Job, ctx: Context, turf: Id, name: string, entries: seq<Entry>)
    ensures var o := ImportRows(job, ctx, turf, name, entries);
            o.Going? ==> o.job.progress.nodes == job.progress.nodes
  {
    if entries != [] {
      RowsGatherNothing(job, ctx, turf, name, entries[..|entries| - 1]);
    }
  }

  /** All groups that are placed are placed at this node. */
  ghost predicate OnlyPlace(nodes: seq<Node>, groups: seq<Group>, ctx: Context, n: Id) {
    PlacedAt(nodes, groups, ctx, n) && forall x :: PlacedAt(nodes, groups, ctx, x) ==> x == n
  }

  lemma {:induction false} GatheredDecide(job: Job, ctx: Context, groups: seq<Group>, job': Job, n: Id)
    requires ImportGroups(job, ctx, groups) == Going(job') && job.progress.nodes == []
    ensures job'.progress.nodes == [n] <==> OnlyPlace(job.tables.nodes, groups, ctx, n)
  {
    var ids, nodes := job'.progress.nodes, job.tables.nodes;
    NodesAreGathered(job, ctx, groups, job', n);
    if ids == [n] {
      forall x: Id | PlacedAt(nodes, groups, ctx, x) ensures x == n {
        NodesAreGathered(job, ctx, groups, job', x);
      }
    } else if n in ids {
      var x := if ids[0] == n then ids[1] else ids[0];
      assert x in ids && x != n;
      NodesAreGathered(job, ctx, groups, job', x);
    }
  }

  lemma {:induction false} BatchHasTheNode(t: Tables, ctx: Context, rows: seq<Row>, job: Job, n: Id)
    requires ImportCsv(t, ctx, rows) == Going(job)
    ensures job.tables.batches != [] && ImportGroups(Job(t, START), ctx, GroupRows(rows, ctx)).Going?
    ensures ImportGroups(Job(t, START), ctx, GroupRows(rows, ctx)).job.progress == job.progress
    ensures job.tables.batches[|job.tables.batches| - 1].geography == Some(n) <==> job.progress.nodes == [n]
  {
  }

  /** The batch bears a node if and only if all groups that are placed are placed at that one. */
  lemma {:induction false} BatchIsPlaced(t: Tables, ctx: Context, rows: seq<Row>, job: Job, n: Id)
    requires ImportCsv(t, ctx, rows) == Going(job)
    ensures job.tables.batches != []
    ensures job.tables.batches[|job.tables.batches| - 1].geography == Some(n)
       <==> OnlyPlace(t.nodes, GroupRows(rows, ctx), ctx, n)
  {
    BatchHasTheNode(t, ctx, rows, job, n);
    var groups := GroupRows(rows, ctx);
    GatheredDecide(Job(t, START), ctx, groups, ImportGroups(Job(t, START), ctx, groups).job, n);
  }

  /** Some group cannot be placed, for this reason. */
  ghost predicate CannotPlace(nodes: seq<Node>, groups: seq<Group>, ctx: Context, error: ImportError) {
    exists g :: 0 <= g < |groups| && GroupNode(nodes, groups[g], ctx) == Err(error)
  }

  /** An import that stops says why. */
  lemma {:induction false} ImportErrorsTell(t: Tables, ctx: Context, rows: seq<Row>)
    ensures var o, groups := ImportCsv(t, ctx, rows), GroupRows(rows, ctx);
            o.Stopped? ==>
              match o.error
              case NoRows => rows == []
              case MultipleGeographies => CannotPlace(t.nodes, groups, ctx, MultipleGeographies)
              case UnknownGeography => CannotPlace(t.nodes, groups, ctx, UnknownGeography)
              case DuplicateAddress => ctx.strategy == RaiseError
              case _ => false
  {
    GroupErrorsTell(Job(t, START), ctx, GroupRows(rows, ctx));
  }

  lemma {:induction false} RowErrorsTell(job: Job, ctx: Context, turf: Id, name: string, entries: seq<Entry>)
    ensures var o := ImportRows(job, ctx, turf, name, entries);
            o.Stopped? ==> o.error == DuplicateAddress && ctx.strategy == RaiseError
  {
    if entries != [] {
      RowErrorsTell(job, ctx, turf, name, entries[..|entries| - 1]);
    }
  }

  lemma {:induction false} GroupErrorsTell(job: Job, ctx: Context, groups: seq<Group>)
    ensures var o := ImportGroups(job, ctx, groups);
            o.Stopped? ==>
              || (o.error == DuplicateAddress && ctx.strategy == RaiseError)
              || (o.error == MultipleGeographies && CannotPlace(job.tables.nodes, groups, ctx, MultipleGeographies))
              || (o.error == UnknownGeography && CannotPlace(job.tables.nodes, groups, ctx, UnknownGeography))
  {
    if groups != [] {
      var n := |groups| - 1;
      GroupErrorsTell(job, ctx, groups[..n]);
      GroupsKeepBatches(job, ctx, groups[..n]);
      assert forall g :: 0 <= g < n ==> groups[..n][g] == groups[g];
      var before := ImportGroups(job, ctx, groups[..n]);
      if before.Going? {
        var node := GroupNode(job.tables.nodes, groups[n], ctx);
        GroupNodeMeans(job.tables.nodes, groups[n], ctx);
        if node.Ok? {
          RowErrorsTell(BeginGroup(before.job, ctx, groups[n].name, node.value), ctx,
                        TurfOfGroup(before.job.tables.turfs, ctx, groups[n].name, node.value), groups[n].name,
                        groups[n].entries);
        }
      }
    }
  }

  // ---------------------------------------------------------------- reviews

  /** The row waits for review, in a batch of the caller's organisation and, where the caller has them, of the campaign,
      the team and the region. */
  predicate UnderReview(t: Tables, scope: Scope, id: RowId) {
    && id.batch < |t.batches| && id.index < |t.batches[id.batch].rows|
    && t.batches[id.batch].rows[id.index].status == PendingReview
    && var b := t.batches[id.batch];
       && b.organization == scope.organization && (scope.campaign.Some? ==> b.campaign == scope.campaign)
       && (scope.team.Some? ==> b.team == scope.team) && (scope.region.Some? ==> b.region == scope.region)
  }

  /** A review is accepted exactly for such a row and, to merge, while the row's data is there. It settles the row as the
      reviewer decided and moves one unit between the counters of its batch; merging takes the row's texts into the
      candidate. */
  lemma {:induction false} ReviewWrites(t: Tables, scope: Scope, id: RowId, resolution: Resolution)
    requires Valid(t)
    ensures var r := ResolveReview(t, scope, id, resolution);
            && (r.Ok? <==> UnderReview(t, scope, id)
                           && (resolution.action == MergeReviewed ==> t.batches[id.batch].rows[id.index].raw.Some?))
            && (r.Err? ==> r.error == if UnderReview(t, scope, id) then RowDataMissing else ReviewNotFound)
            && (r.Ok? ==>
                  var b := t.batches[id.batch];
                  var row := b.rows[id.index];
                  && |r.value.addresses| == |t.addresses| && id.batch < |r.value.batches|
                  && r.value == t.(addresses := r.value.addresses, batches := t.batches[id.batch := r.value.batches[id.batch]])
                  && match resolution.action
                     case SkipReviewed =>
                       && r.value.addresses == t.addresses
                       && r.value.batches[id.batch]
                          == b.(rows := b.rows[id.index := row.(status := SkippedDuplicate, resolution := Some(resolution))],
                                pending := b.pending - 1, skipped := b.skipped + 1)
                     case MergeReviewed =>
                       && row.candidate.Some? && row.candidate.value < |t.addresses|
                       && TextsTaken(t.addresses[row.candidate.value], row.raw.value, r.value.addresses[row.candidate.value])
                       && r.value.addresses
                          == t.addresses[row.candidate.value := r.value.addresses[row.candidate.value]]
                       && r.value.batches[id.batch]
                          == b.(rows := b.rows[id.index := row.(status := Merged, address := row.candidate,
                                                                resolution := Some(resolution))],
                                pending := b.pending - 1, merged := b.merged + 1))
  {
    if UnderReview(t, scope, id) {
      assert BatchSound(t.batches[id.batch], |t.addresses|);
    }
  }

  /** A redaction takes the raw data of every row of the chosen batches, and nothing else. */
  lemma {:induction false} RedactionWrites(t: Tables, chosen: set<Id>)
    ensures var t' := Next(t, Redact(chosen));
            && t' == t.(batches := t'.batches) && |t'.batches| == |t.batches|
            && forall b :: 0 <= b < |t.batches| ==>
                 if b in chosen then
                   && |t'.batches[b].rows| == |t.batches[b].rows|
                   && t'.batches[b] == t.batches[b].(rows := t'.batches[b].rows)
                   && forall k :: 0 <= k < |t.batches[b].rows| ==>
                        t'.batches[b].rows[k] == t.batches[b].rows[k].(raw := None)
                 else t'.batches[b] == t.batches[b]
  {
  }
}
