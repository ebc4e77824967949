/** The import service: its loops over groups and rows update the tables one statement at a time. */
module ImportService {
  import opened Common
  import opened ImportTables
  import opened ImportProperties

  class ImportsService {
    var nodes: seq<Node>
    var turfs: seq<Turf>
    var households: seq<Household>
    var addresses: seq<Address>
    var batches: seq<Batch>

    ghost function State(): Tables
      reads this
    {
      Tables(nodes, turfs, households, addresses, batches)
    }

    constructor (tables: Tables)
      ensures State() == tables
    {
      nodes, turfs, households := tables.nodes, tables.turfs, tables.households;
      addresses, batches := tables.addresses, tables.batches;
    }

    method EnsureHousehold(ctx: Context, row: Row) returns (household: Id)
      requires Usable(row)
      modifies this`households
      ensures households == HouseholdsAfter(old(households), ctx, row)
      ensures household == HouseholdOf(old(households), ctx, row)
    {
      var existing := MatchingHousehold(households, ctx, row);
      if existing.Some? {
        household := existing.value;
        if Completes(row, households[household]) {
          households := households[household := Completed(households[household], row)];
        }
      } else {
        household := |households|;
        households := households + [NewHousehold(ctx, row)];
      }
    }

    /** One row of a group: household, duplicate check, and the strategy for duplicates. */
    method ImportOne(progress: Progress, ctx: Context, turf: Id, name: string, entry: Entry)
      returns (r: Result<Progress, ImportError>)
      modifies this`households, this`addresses
      ensures ImportRow(Job(old(State()), progress), ctx, turf, name, entry) == OutcomeOf(State(), r)
    {
      var row, index := entry.row, entry.rowIndex;
      var p := progress;
      if row.line1.None? || row.city.None? || row.state.None? {
        assert p.seen + {} == p.seen;
        return Ok(p.(invalid := p.invalid + 1,
                     results := p.results + [BatchRow(index, name, SkippedInvalid, Some(row), None, None, None, None)]));
      }
      var household := EnsureHousehold(ctx, row);
      var duplicate := DuplicateOf(addresses, turf, household);
      p := p.(seen := p.seen + {household});
      if duplicate.Some? {
        var d := duplicate.value;
        if ctx.strategy == RaiseError {
          return Err(DuplicateAddress);
        }
        if ctx.strategy == ReviewDuplicate {
          return Ok(p.(pending := p.pending + 1,
                       results := p.results + [BatchRow(index, name, PendingReview, Some(row), None, Some(d), Some(household),
                                                        None)]));
        }
        if ctx.strategy == MergeDuplicate {
          addresses := addresses[d := MergedInto(addresses[d], row)];
          return Ok(p.(merged := p.merged + 1,
                       results := p.results + [BatchRow(index, name, Merged, Some(row), Some(d), Some(d), Some(household),
                                                        None)]));
        }
        return Ok(p.(skipped := p.skipped + 1,
                     results := p.results + [BatchRow(index, name, SkippedDuplicate, Some(row), None, Some(d), Some(household),
                                                      None)]));
      }
      var created := |addresses|;
      addresses := addresses + [NewAddress(turf, household, row)];
      r := Ok(p.(imported := p.imported + 1,
                 results := p.results + [BatchRow(index, name, Created, Some(row), Some(created), None, Some(household), None)]));
    }

    method ImportEntries(progress: Progress, ctx: Context, turf: Id, name: string, entries: seq<Entry>)
      returns (r: Result<Progress, ImportError>)
      modifies this`households, this`addresses
      ensures ImportRows(Job(old(State()), progress), ctx, turf, name, entries) == OutcomeOf(State(), r)
    {
      ghost var start := Job(State(), progress);
      var p := progress;
      for i := 0 to |entries|
        invariant ImportRows(start, ctx, turf, name, entries[..i]) == Going(Job(State(), p))
      {
        assert entries[..i + 1][..i] == entries[..i];
        r := ImportOne(p, ctx, turf, name, entries[i]);
        if r.Err? {
          StoppedRowsStayStopped(start, ctx, turf, name, entries, i + 1);
          return;
        }
        p := r.value;
      }
      assert entries[..|entries|] == entries;
      r := Ok(p);
    }

    /** The turf of a group: an existing one, or a new one. */
    method BeginTurf(progress: Progress, ctx: Context, name: string, node: Option<Id>)
      returns (p: Progress, turf: Id, existed: bool)
      modifies this`turfs
      ensures Job(State(), p) == BeginGroup(Job(old(State()), progress), ctx, name, node)
      ensures turf == TurfOfGroup(old(turfs), ctx, name, node) && existed == (turf < |old(turfs)|)
    {
      var existing := ExistingTurf(turfs, ctx, name, node);
      p := progress.(nodes := AddNode(progress.nodes, node), seen := {});
      if existing.Some? {
        turf := existing.value;
      } else {
        turf := |turfs|;
        turfs := turfs + [NewTurf(ctx, name, node)];
        p := p.(created := p.created + [turf]);
      }
      p := p.(turfs := p.turfs + [turf]);
      existed := existing.Some?;
    }

    method ImportOneGroup(progress: Progress, ctx: Context, g: Group) returns (r: Result<Progress, ImportError>)
      modifies this`turfs, this`households, this`addresses
      ensures ImportGroup(Job(old(State()), progress), ctx, g) == OutcomeOf(State(), r)
    {
      var node := GroupNode(nodes, g, ctx);
      if node.Err? {
        return Err(node.error);
      }
      var p, turf, existed := BeginTurf(progress, ctx, g.name, node.value);
      r := ImportEntries(p, ctx, turf, g.name, g.entries);
      if r.Err? {
        return;
      }
      p := r.value;
      if ctx.mode == ReplaceMembership && existed && p.seen != {} {
        var outside := LiveOutside(turf, p.seen);
        p := p.(removed := p.removed + CountWhere(addresses, outside));
        addresses := UpdateWhere(addresses, outside, Delete(ctx.now));
      }
      r := Ok(p);
    }

    static method GroupByTurf(rows: seq<Row>, ctx: Context) returns (groups: seq<Group>)
      ensures groups == GroupRows(rows, ctx)
    {
      groups := [];
      for i := 0 to |rows|
        invariant groups == GroupRows(rows[..i], ctx)
      {
        assert rows[..i + 1][..i] == rows[..i];
        var name, entry := TurfNameOf(rows[i], ctx), Entry(rows[i], i + 1);
        var known := FindFirst(groups, Named(name));
        if known.None? {
          groups := groups + [Group(name, [entry])];
        } else {
          var g := groups[known.value];
          groups := groups[known.value := g.(entries := g.entries + [entry])];
        }
      }
      assert rows[..|rows|] == rows;
    }

    /** The whole import; on an error, what was written stays. */
    method Import(ctx: Context, rows: seq<Row>) returns (r: Result<Report, ImportError>)
      modifies this`turfs, this`households, this`addresses, this`batches
      ensures ImportCsv(old(State()), ctx, rows) == match r
                                                    case Ok(report) => Going(Job(State(), report.progress))
                                                    case Err(error) => Stopped(State(), error)
      ensures r.Ok? ==> r.value.batch == |old(batches)|
    {
      if rows == [] {
        return Err(NoRows);
      }
      var groups := GroupByTurf(rows, ctx);
      ghost var before := State();
      var imported := ImportAll(START, ctx, groups);
      GroupsDone(before, ctx, rows, State(), imported);
      match imported
      case Err(error) => return Err(error);
      case Ok(progress) =>
        batches := batches + [NewBatch(ctx, |rows|, progress)];
        r := Ok(Report(|batches| - 1, progress));
    }

    method ImportAll(progress: Progress, ctx: Context, groups: seq<Group>) returns (r: Result<Progress, ImportError>)
      modifies this`turfs, this`households, this`addresses
      ensures ImportGroups(Job(old(State()), progress), ctx, groups) == OutcomeOf(State(), r)
    {
      ghost var start := Job(State(), progress);
      var p := progress;
      for i := 0 to |groups|
        invariant ImportGroups(start, ctx, groups[..i]) == Going(Job(State(), p))
      {
        assert groups[..i + 1][..i] == groups[..i];
        r := ImportOneGroup(p, ctx, groups[i]);
        if r.Err? {
          StoppedGroupsStayStopped(start, ctx, groups, i + 1);
          return;
        }
        p := r.value;
      }
      assert groups[..|groups|] == groups;
      r := Ok(p);
    }

    method ResolveImportReview(scope: Scope, id: RowId, resolution: Resolution) returns (r: Result<RowStatus, ImportError>)
      modifies this`addresses, this`batches
      ensures match ResolveReview(old(State()), scope, id, resolution)
              case Ok(t') =>
                State() == t' && r == Ok(if resolution.action == SkipReviewed then SkippedDuplicate else Merged)
              case Err(error) => State() == old(State()) && r == Err(error)
    {
      if !Reviewable(Tables(nodes, turfs, households, addresses, batches), scope, id) {
        return Err(ReviewNotFound);
      }
      var b := batches[id.batch];
      var row := b.rows[id.index];
      if resolution.action == SkipReviewed {
        row := row.(status := SkippedDuplicate, resolution := Some(resolution));
        batches := batches[id.batch := b.(rows := b.rows[id.index := row])];
        b := batches[id.batch];
        batches := batches[id.batch := b.(pending := b.pending - 1, skipped := b.skipped + 1)];
        return Ok(SkippedDuplicate);
      }
      if row.candidate.None? || row.candidate.value >= |addresses| {
        return Err(CandidateMissing);
      }
      if row.raw.None? {
        return Err(RowDataMissing);
      }
      var a := row.candidate.value;
      addresses := addresses[a := MergedInto(addresses[a], row.raw.value)];
      row := row.(status := Merged, address := Some(a), resolution := Some(resolution));
      batches := batches[id.batch := b.(rows := b.rows[id.index := row])];
      b := batches[id.batch];
      batches := batches[id.batch := b.(pending := b.pending - 1, merged := b.merged + 1)];
      r := Ok(Merged);
    }
  }

  /** What a step of the service leaves and answers, as an outcome. */
  function OutcomeOf(left: Tables, r: Result<Progress, ImportError>): Outcome {
    match r
    case Ok(progress) => Going(Job(left, progress))
    case Err(error) => Stopped(left, error)
  }

  /** What is left to do once the groups were imported. */
  lemma {:induction false} GroupsDone(t: Tables, ctx: Context, rows: seq<Row>, left: Tables,
                                      imported: Result<Progress, ImportError>)
    requires rows != [] && ImportGroups(Job(t, START), ctx, GroupRows(rows, ctx)) == OutcomeOf(left, imported)
    ensures match imported
            case Err(error) => ImportCsv(t, ctx, rows) == Stopped(left, error)
            case Ok(p) =>
              && left.batches == t.batches
              && ImportCsv(t, ctx, rows) == Going(Job(left.(batches := t.batches + [NewBatch(ctx, |rows|, p)]), p))
  {
    GroupsKeepBatches(Job(t, START), ctx, GroupRows(rows, ctx));
  }

  lemma {:induction false} StoppedRowsStayStopped(job: Job, ctx: Context, turf: Id, name: string, entries: seq<Entry>,
                                                  i: nat)
    requires i <= |entries| && ImportRows(job, ctx, turf, name, entries[..i]).Stopped?
    ensures ImportRows(job, ctx, turf, name, entries) == ImportRows(job, ctx, turf, name, entries[..i])
  {
    if i == |entries| {
      assert entries[..i] == entries;
    } else {
      assert entries[..|entries| - 1][..i] == entries[..i];
      StoppedRowsStayStopped(job, ctx, turf, name, entries[..|entries| - 1], i);
    }
  }

  lemma {:induction false} StoppedGroupsStayStopped(job: Job, ctx: Context, groups: seq<Group>, i: nat)
    requires i <= |groups| && ImportGroups(job, ctx, groups[..i]).Stopped?
    ensures ImportGroups(job, ctx, groups) == ImportGroups(job, ctx, groups[..i])
  {
    if i == |groups| {
      assert groups[..i] == groups;
    } else {
      assert groups[..|groups| - 1][..i] == groups[..i];
      StoppedGroupsStayStopped(job, ctx, groups[..|groups| - 1], i);
    }
  }
}
