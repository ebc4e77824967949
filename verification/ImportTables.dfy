/** The tables that CSV imports reconcile, and the imports and duplicate reviews as functions of their values.

    A row stands for what the column mapping resolves it to. Ids of append-only tables are row positions. */
module ImportTables {
  import opened Common

  datatype Mode = CreateOnly | Upsert | ReplaceMembership

  datatype Strategy = SkipDuplicate | RaiseError | MergeDuplicate | ReviewDuplicate

  datatype RowStatus = Created | Merged | SkippedInvalid | SkippedDuplicate | PendingReview

  datatype Action = MergeReviewed | SkipReviewed

  datatype ImportError =
    | NoRows
    | MultipleGeographies
    | UnknownGeography
    | DuplicateAddress
    | ReviewNotFound
    | CandidateMissing
    | RowDataMissing

  /** A CSV row; `key` is its normalised address. */
  datatype Row = Row(
    turfName: Option<string>, geography: Option<string>,
    line1: Option<string>, line2: Option<string>, unit: Option<string>, city: Option<string>, state: Option<string>,
    zip: Option<string>, latitude: Option<real>, longitude: Option<real>, key: string,
    vanHouseholdId: Option<string>, vanPersonId: Option<string>)

  datatype Entry = Entry(row: Row, rowIndex: nat)

  datatype Group = Group(name: string, entries: seq<Entry>)

  datatype Node = Node(organization: Id, externalId: Option<string>, active: bool)

  datatype Turf = Turf(
    name: string, organization: Id, campaign: Option<Id>, team: Option<Id>, region: Option<string>,
    geography: Option<Id>, deleted: bool)

  datatype Details = Details(
    line1: string, line2: Option<string>, unit: Option<string>, city: string, state: string, zip: Option<string>,
    latitude: Option<real>, longitude: Option<real>)

  datatype Household = Household(
    organization: Id, details: Details, key: string, vanHouseholdId: Option<string>, vanPersonId: Option<string>,
    deleted: bool)

  datatype Address = Address(
    turf: Id, household: Id, details: Details, key: string, vanId: Option<string>, deletedAt: Option<int>)

  datatype Resolution = Resolution(action: Action, actor: Id, at: int, reason: Option<string>)

  /** The result of a row. Its raw data is gone once retention has redacted the batch. */
  datatype BatchRow = BatchRow(
    rowIndex: nat, turfName: string, status: RowStatus, raw: Option<Row>, address: Option<Id>, candidate: Option<Id>,
    household: Option<Id>, resolution: Option<Resolution>)

  /** One recorded import. The counters are plain integers, as in the database. */
  datatype Batch = Batch(
    organization: Id, campaign: Option<Id>, team: Option<Id>, region: Option<string>, geography: Option<Id>,
    rowCount: int, imported: int, merged: int, removed: int, pending: int, invalid: int, skipped: int,
    rows: seq<BatchRow>)

  datatype Tables = Tables(
    nodes: seq<Node>, turfs: seq<Turf>, households: seq<Household>, addresses: seq<Address>, batches: seq<Batch>)

  /** An import request after its profile, policy and team were looked up. */
  datatype Context = Context(
    organization: Id, campaign: Option<Id>, team: Option<Id>, region: Option<string>, turfName: Option<string>,
    geography: Option<string>, mode: Mode, strategy: Strategy, now: int)

  /** The variables of a running import. `seen` are the households of the group at hand. */
  datatype Progress = Progress(
    created: seq<Id>, turfs: seq<Id>, nodes: seq<Id>, imported: nat, merged: nat, removed: nat, pending: nat,
    invalid: nat, skipped: nat, results: seq<BatchRow>, seen: set<Id>)

  datatype Job = Job(tables: Tables, progress: Progress)

  /** A failed import keeps what it has written: it runs outside any transaction. */
  datatype Outcome = Going(job: Job) | Stopped(left: Tables, error: ImportError)

  datatype Report = Report(batch: Id, progress: Progress)

  datatype Scope = Scope(organization: Id, campaign: Option<Id>, team: Option<Id>, region: Option<string>)

  datatype RowId = RowId(batch: nat, index: nat)

  function TablesOf(o: Outcome): Tables {
    match o
    case Going(job) => job.tables
    case Stopped(left, _) => left
  }

  function OrElse<T>(first: Option<T>, second: Option<T>): Option<T> {
    if first.Some? then first else second
  }

  function GetOr<T>(o: Option<T>, default_: T): T {
    if o.Some? then o.value else default_
  }

  // ---------------------------------------------------------------- grouping

  /** A row without a turf name takes the fallback of the import as it stands, also an empty one. */
  function TurfNameOf(row: Row, ctx: Context): string {
    GetOr(OrElse(row.turfName, ctx.turfName), "Imported Turf")
  }

  function Named(name: string): Group -> bool {
    (g: Group) => g.name == name
  }

  function AddToGroups(groups: seq<Group>, name: string, entry: Entry): seq<Group> {
    match FindFirst(groups, Named(name))
    case None => groups + [Group(name, [entry])]
    case Some(g) => groups[g := groups[g].(entries := groups[g].entries + [entry])]
  }

  /** Rows by turf name, in the order of first appearance; rows are numbered from one. */
  function GroupRows(rows: seq<Row>, ctx: Context): seq<Group> {
    if rows == [] then []
    else
      var last := rows[|rows| - 1];
      AddToGroups(GroupRows(rows[..|rows| - 1], ctx), TurfNameOf(last, ctx), Entry(last, |rows|))
  }

  // ---------------------------------------------------------------- turfs

  function HasGeography(): Entry -> bool {
    (e: Entry) => e.row.geography.Some?
  }

  predicate MixesGeographies(entries: seq<Entry>) {
    exists i, j | 0 <= i < j < |entries| ::
      entries[i].row.geography.Some? && entries[j].row.geography.Some?
      && entries[i].row.geography != entries[j].row.geography
  }

  function GroupGeography(entries: seq<Entry>, ctx: Context): Option<string> {
    match FindFirst(entries, HasGeography())
    case Some(i) => entries[i].row.geography
    case None => ctx.geography
  }

  function ActiveNode(ctx: Context, externalId: string): Node -> bool {
    (n: Node) => n.organization == ctx.organization && n.externalId == Some(externalId) && n.active
  }

  function GroupNode(nodes: seq<Node>, g: Group, ctx: Context): Result<Option<Id>, ImportError> {
    if MixesGeographies(g.entries) then Err(MultipleGeographies)
    else
      match GroupGeography(g.entries, ctx)
      case None => Ok(None)
      case Some(externalId) =>
        match FindFirst(nodes, ActiveNode(ctx, externalId))
        case None => Err(UnknownGeography)
        case Some(n) => Ok(Some(n))
  }

  function TurfMatches(ctx: Context, name: string, node: Option<Id>): Turf -> bool {
    (t: Turf) =>
      && t.name == name && t.organization == ctx.organization && t.campaign == ctx.campaign && !t.deleted
      && (ctx.team.Some? ==> t.team == ctx.team)
      && (ctx.region.Some? ==> t.region == ctx.region)
      && (node.Some? ==> t.geography == node)
  }

  function ExistingTurf(turfs: seq<Turf>, ctx: Context, name: string, node: Option<Id>): Option<Id> {
    if ctx.mode == CreateOnly then None else FindFirst(turfs, TurfMatches(ctx, name, node))
  }

  function NewTurf(ctx: Context, name: string, node: Option<Id>): Turf {
    Turf(name, ctx.organization, ctx.campaign, ctx.team, ctx.region, node, false)
  }

  function AddNode(nodes: seq<Id>, node: Option<Id>): seq<Id> {
    if node.Some? && node.value !in nodes then nodes + [node.value] else nodes
  }

  // ---------------------------------------------------------------- households

  predicate Usable(row: Row) {
    row.line1.Some? && row.city.Some? && row.state.Some?
  }

  function DetailsOf(row: Row): Details
    requires Usable(row)
  {
    Details(row.line1.value, row.line2, row.unit, row.city.value, row.state.value, row.zip, row.latitude, row.longitude)
  }

  /** The strongest identifier the row carries decides: VAN household, VAN person, then normalised address. */
  function HouseholdMatches(ctx: Context, row: Row): Household -> bool {
    (h: Household) =>
      && h.organization == ctx.organization && !h.deleted
      && if row.vanHouseholdId.Some? then h.vanHouseholdId == row.vanHouseholdId
         else if row.vanPersonId.Some? then h.vanPersonId == row.vanPersonId
         else h.key == row.key
  }

  function MatchingHousehold(households: seq<Household>, ctx: Context, row: Row): Option<Id> {
    FindFirst(households, HouseholdMatches(ctx, row))
  }

  /** The row knows something that the household lacks. */
  predicate Completes(row: Row, h: Household) {
    || (row.latitude.Some? && h.details.latitude.None?)
    || (row.longitude.Some? && h.details.longitude.None?)
    || (row.vanHouseholdId.Some? && h.vanHouseholdId.None?)
    || (row.vanPersonId.Some? && h.vanPersonId.None?)
  }

  function Completed(h: Household, row: Row): Household {
    h.(details := h.details.(line2 := OrElse(row.line2, h.details.line2),
                             unit := OrElse(row.unit, h.details.unit),
                             latitude := OrElse(row.latitude, h.details.latitude),
                             longitude := OrElse(row.longitude, h.details.longitude)),
       key := row.key,
       vanHouseholdId := OrElse(row.vanHouseholdId, h.vanHouseholdId),
       vanPersonId := OrElse(row.vanPersonId, h.vanPersonId))
  }

  function NewHousehold(ctx: Context, row: Row): Household
    requires Usable(row)
  {
    Household(ctx.organization, DetailsOf(row), row.key, row.vanHouseholdId, row.vanPersonId, false)
  }

  /** The households after a row was matched or recorded. */
  function HouseholdsAfter(households: seq<Household>, ctx: Context, row: Row): seq<Household>
    requires Usable(row)
  {
    match MatchingHousehold(households, ctx, row)
    case None => households + [NewHousehold(ctx, row)]
    case Some(h) => if Completes(row, households[h]) then households[h := Completed(households[h], row)] else households
  }

  function HouseholdOf(households: seq<Household>, ctx: Context, row: Row): (h: Id) {
    match MatchingHousehold(households, ctx, row)
    case None => |households|
    case Some(h) => h
  }

  // ---------------------------------------------------------------- addresses

  function LiveAt(turf: Id, household: Id): Address -> bool {
    (a: Address) => a.turf == turf && a.household == household && a.deletedAt.None?
  }

  function LiveOutside(turf: Id, households: set<Id>): Address -> bool {
    (a: Address) => a.turf == turf && a.deletedAt.None? && a.household !in households
  }

  function DuplicateOf(addresses: seq<Address>, turf: Id, household: Id): Option<Id> {
    FindFirst(addresses, LiveAt(turf, household))
  }

  function NewAddress(turf: Id, household: Id, row: Row): Address
    requires Usable(row)
  {
    Address(turf, household, DetailsOf(row), row.key, OrElse(row.vanHouseholdId, row.vanPersonId), None)
  }

  /** The texts of the row replace those of the address, where it has any. */
  function MergedInto(a: Address, row: Row): Address {
    var d := a.details;
    a.(details := Details(GetOr(row.line1, d.line1), OrElse(row.line2, d.line2), OrElse(row.unit, d.unit),
                          GetOr(row.city, d.city), GetOr(row.state, d.state), OrElse(row.zip, d.zip),
                          OrElse(row.latitude, d.latitude), OrElse(row.longitude, d.longitude)),
       key := if Usable(row) then row.key else a.key,
       vanId := OrElse(row.vanHouseholdId, OrElse(row.vanPersonId, a.vanId)))
  }

  function Delete(now: int): Address -> Address {
    (a: Address) => a.(deletedAt := Some(now))
  }

  // ---------------------------------------------------------------- importing

  function DuplicateFor(t: Tables, ctx: Context, turf: Id, row: Row): Option<Id> {
    DuplicateOf(t.addresses, turf, HouseholdOf(t.households, ctx, row))
  }

  function AddressesAfter(addresses: seq<Address>, ctx: Context, turf: Id, household: Id, row: Row): seq<Address>
    requires Usable(row)
  {
    match DuplicateOf(addresses, turf, household)
    case None => addresses + [NewAddress(turf, household, row)]
    case Some(d) => if ctx.strategy == MergeDuplicate then addresses[d := MergedInto(addresses[d], row)] else addresses
  }

  /** The tables after a row, also when its duplicate stops the import: its household is matched first. */
  function RowTables(t: Tables, ctx: Context, turf: Id, row: Row): Tables {
    if !Usable(row) then t
    else
      t.(households := HouseholdsAfter(t.households, ctx, row),
         addresses := AddressesAfter(t.addresses, ctx, turf, HouseholdOf(t.households, ctx, row), row))
  }

  /** What the import notes about a row that does not stop it. */
  function ResultOf(t: Tables, ctx: Context, turf: Id, name: string, entry: Entry): BatchRow {
    var row := entry.row;
    if !Usable(row) then BatchRow(entry.rowIndex, name, SkippedInvalid, Some(row), None, None, None, None)
    else
      var h := Some(HouseholdOf(t.households, ctx, row));
      match DuplicateFor(t, ctx, turf, row)
      case None => BatchRow(entry.rowIndex, name, Created, Some(row), Some(|t.addresses|), None, h, None)
      case Some(d) =>
        match ctx.strategy
        case ReviewDuplicate => BatchRow(entry.rowIndex, name, PendingReview, Some(row), None, Some(d), h, None)
        case MergeDuplicate => BatchRow(entry.rowIndex, name, Merged, Some(row), Some(d), Some(d), h, None)
        case _ => BatchRow(entry.rowIndex, name, SkippedDuplicate, Some(row), None, Some(d), h, None)
  }

  /** A result noted: its counter, its household, and the result itself. */
  function Record(p: Progress, r: BatchRow): Progress {
    p.(imported := p.imported + if r.status == Created then 1 else 0,
       merged := p.merged + if r.status == Merged then 1 else 0,
       pending := p.pending + if r.status == PendingReview then 1 else 0,
       invalid := p.invalid + if r.status == SkippedInvalid then 1 else 0,
       skipped := p.skipped + if r.status == SkippedDuplicate then 1 else 0,
       results := p.results + [r],
       seen := p.seen + if r.household.Some? then {r.household.value} else {})
  }

  predicate Raises(t: Tables, ctx: Context, turf: Id, row: Row) {
    Usable(row) && ctx.strategy == RaiseError && DuplicateFor(t, ctx, turf, row).Some?
  }

  function ImportRow(job: Job, ctx: Context, turf: Id, name: string, entry: Entry): Outcome {
    var t := job.tables;
    if Raises(t, ctx, turf, entry.row) then Stopped(RowTables(t, ctx, turf, entry.row), DuplicateAddress)
    else Going(Job(RowTables(t, ctx, turf, entry.row), Record(job.progress, ResultOf(t, ctx, turf, name, entry))))
  }

  function ImportRows(job: Job, ctx: Context, turf: Id, name: string, entries: seq<Entry>): Outcome {
    if entries == [] then Going(job)
    else
      match ImportRows(job, ctx, turf, name, entries[..|entries| - 1])
      case Going(job') => ImportRow(job', ctx, turf, name, entries[|entries| - 1])
      case Stopped(left, error) => Stopped(left, error)
  }

  /** The turf of a group found or created, and the group's households reset. */
  function BeginGroup(job: Job, ctx: Context, name: string, node: Option<Id>): Job {
    var t, p := job.tables, job.progress;
    match ExistingTurf(t.turfs, ctx, name, node)
    case Some(turf) => Job(t, p.(turfs := p.turfs + [turf], nodes := AddNode(p.nodes, node), seen := {}))
    case None =>
      Job(t.(turfs := t.turfs + [NewTurf(ctx, name, node)]),
          p.(created := p.created + [|t.turfs|], turfs := p.turfs + [|t.turfs|], nodes := AddNode(p.nodes, node),
             seen := {}))
  }

  function TurfOfGroup(turfs: seq<Turf>, ctx: Context, name: string, node: Option<Id>): Id {
    match ExistingTurf(turfs, ctx, name, node)
    case Some(turf) => turf
    case None => |turfs|
  }

  /** In replace mode, what an existing turf holds beyond the group's households is removed. */
  function EndGroup(job: Job, ctx: Context, turf: Id, existed: bool): Job {
    var t, p := job.tables, job.progress;
    if ctx.mode == ReplaceMembership && existed && p.seen != {} then
      var outside := LiveOutside(turf, p.seen);
      Job(t.(addresses := UpdateWhere(t.addresses, outside, Delete(ctx.now))),
          p.(removed := p.removed + CountWhere(t.addresses, outside)))
    else job
  }

  function ImportGroup(job: Job, ctx: Context, g: Group): Outcome {
    match GroupNode(job.tables.nodes, g, ctx)
    case Err(error) => Stopped(job.tables, error)
    case Ok(node) =>
      var turf := TurfOfGroup(job.tables.turfs, ctx, g.name, node);
      match ImportRows(BeginGroup(job, ctx, g.name, node), ctx, turf, g.name, g.entries)
      case Stopped(left, error) => Stopped(left, error)
      case Going(job') => Going(EndGroup(job', ctx, turf, turf < |job.tables.turfs|))
  }

  function ImportGroups(job: Job, ctx: Context, groups: seq<Group>): Outcome {
    if groups == [] then Going(job)
    else
      match ImportGroups(job, ctx, groups[..|groups| - 1])
      case Going(job') => ImportGroup(job', ctx, groups[|groups| - 1])
      case Stopped(left, error) => Stopped(left, error)
  }

  const START := Progress([], [], [], 0, 0, 0, 0, 0, 0, [], {})

  function NewBatch(ctx: Context, rowCount: nat, p: Progress): Batch {
    Batch(ctx.organization, ctx.campaign, ctx.team, ctx.region, if |p.nodes| == 1 then Some(p.nodes[0]) else None,
          rowCount, p.imported, p.merged, p.removed, p.pending, p.invalid, p.skipped, p.results)
  }

  /** The whole import: the groups in order, then the batch that records it. */
  function ImportCsv(t: Tables, ctx: Context, rows: seq<Row>): Outcome {
    if rows == [] then Stopped(t, NoRows)
    else
      match ImportGroups(Job(t, START), ctx, GroupRows(rows, ctx))
      case Stopped(left, error) => Stopped(left, error)
      case Going(job) =>
        Going(Job(job.tables.(batches := job.tables.batches + [NewBatch(ctx, |rows|, job.progress)]), job.progress))
  }

  // ---------------------------------------------------------------- reviews

  predicate InScope(b: Batch, scope: Scope) {
    && b.organization == scope.organization
    && (scope.campaign.Some? ==> b.campaign == scope.campaign)
    && (scope.team.Some? ==> b.team == scope.team)
    && (scope.region.Some? ==> b.region == scope.region)
  }

  predicate Reviewable(t: Tables, scope: Scope, id: RowId) {
    && id.batch < |t.batches| && id.index < |t.batches[id.batch].rows|
    && t.batches[id.batch].rows[id.index].status == PendingReview
    && InScope(t.batches[id.batch], scope)
  }

  function SkipReview(b: Batch, index: nat, resolution: Resolution): Batch
    requires index < |b.rows|
  {
    b.(rows := b.rows[index := b.rows[index].(status := SkippedDuplicate, resolution := Some(resolution))],
       pending := b.pending - 1, skipped := b.skipped + 1)
  }

  function MergeReview(b: Batch, index: nat, address: Id, resolution: Resolution): Batch
    requires index < |b.rows|
  {
    b.(rows := b.rows[index := b.rows[index].(status := Merged, address := Some(address),
                                              resolution := Some(resolution))],
       pending := b.pending - 1, merged := b.merged + 1)
  }

  function ResolveReview(t: Tables, scope: Scope, id: RowId, resolution: Resolution): Result<Tables, ImportError> {
    if !Reviewable(t, scope, id) then Err(ReviewNotFound)
    else
      var b := t.batches[id.batch];
      var row := b.rows[id.index];
      if resolution.action == SkipReviewed then
        Ok(t.(batches := t.batches[id.batch := SkipReview(b, id.index, resolution)]))
      else if row.candidate.None? || row.candidate.value >= |t.addresses| then Err(CandidateMissing)
      else if row.raw.None? then Err(RowDataMissing)
      else
        var a := row.candidate.value;
        Ok(t.(addresses := t.addresses[a := MergedInto(t.addresses[a], row.raw.value)],
              batches := t.batches[id.batch := MergeReview(b, id.index, a, resolution)]))
  }

  // ---------------------------------------------------------------- redaction by retention

  function WithoutRaw(rows: seq<BatchRow>): (r: seq<BatchRow>)
    ensures |r| == |rows| && forall i :: 0 <= i < |rows| ==> r[i] == rows[i].(raw := None)
  {
    seq(|rows|, i requires 0 <= i < |rows| => rows[i].(raw := None))
  }

  /** The raw data of every row of the chosen batches is erased, whatever the row waits for. */
  function RedactBatches(batches: seq<Batch>, chosen: set<Id>): (r: seq<Batch>)
    ensures |r| == |batches|
    ensures forall b :: 0 <= b < |batches| ==>
              r[b] == if b in chosen then batches[b].(rows := WithoutRaw(batches[b].rows)) else batches[b]
  {
    seq(|batches|, b requires 0 <= b < |batches| =>
      if b in chosen then batches[b].(rows := WithoutRaw(batches[b].rows)) else batches[b])
  }

  // ---------------------------------------------------------------- runs

  datatype Op =
    | Import(ctx: Context, rows: seq<Row>)
    | Review(scope: Scope, id: RowId, resolution: Resolution)
    | Redact(chosen: set<Id>)

  /** The tables after a call, whether it succeeds or fails. */
  function Next(t: Tables, op: Op): Tables {
    match op
    case Import(ctx, rows) => TablesOf(ImportCsv(t, ctx, rows))
    case Review(scope, id, resolution) =>
      var r := ResolveReview(t, scope, id, resolution);
      if r.Ok? then r.value else t
    case Redact(chosen) => t.(batches := RedactBatches(t.batches, chosen))
  }

  function Run(t: Tables, ops: seq<Op>): Tables {
    if ops == [] then t else Next(Run(t, ops[..|ops| - 1]), ops[|ops| - 1])
  }
}
