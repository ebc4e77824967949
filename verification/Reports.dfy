/** The counting loops of the reports, and the session minutes of a date range. A visit stands for what the report
    reads of it: its buckets (day, outcome, time of day, day of week) are texts that the database and the time zone
    policy give. */
module Reports {
  import opened Common

  datatype GpsStatus = Verified | Flagged | Missing | LowAccuracy

  datatype SyncStatus = Pending | Syncing | Synced | Failed | Conflict

  datatype Visit = Visit(
    canvasser: Id, address: Id, session: Option<Id>, contactMade: bool, gps: GpsStatus, sync: SyncStatus,
    overridden: bool, final: bool, revisit: bool, day: string, outcome: string, timeOfDay: string, dayOfWeek: string)

  // ---------------------------------------------------------------- insertion-ordered tables

  /** A map that remembers the order in which its keys were added. */
  datatype Table<K(==), V> = Table(keys: seq<K>, at: map<K, V>) {
    predicate Valid() {
      && (forall i :: 0 <= i < |keys| ==> keys[i] in at)
      && (forall k :: k in at ==> k in keys)
      && (forall i, j :: 0 <= i < j < |keys| ==> keys[i] != keys[j])
    }

    function Get(k: K, default_: V): V {
      if k in at then at[k] else default_
    }

    function Set(k: K, v: V): (t: Table<K, V>)
      ensures Valid() ==> t.Valid()
    {
      Table(if k in at then keys else keys + [k], at[k := v])
    }
  }

  function Sum<K>(keys: seq<K>, f: K -> nat): nat {
    if keys == [] then 0 else Sum(keys[..|keys| - 1], f) + f(keys[|keys| - 1])
  }

  function Keyed<K(==)>(key: Visit -> K, k: K): Visit -> bool {
    (v: Visit) => key(v) == k
  }

  /** The visits with a key. */
  function VisitsOf<K(==)>(visits: seq<Visit>, key: Visit -> K, k: K): seq<Visit> {
    Filter(visits, Keyed(key, k))
  }

  /** The entry of a key is the summary of the visits with that key; a key without visits has none. */
  ghost predicate EntryIsSummary<K, V>(t: Table<K, V>, visits: seq<Visit>, key: Visit -> K,
                                           summary: seq<Visit> -> V, k: K) {
    var vs := VisitsOf(visits, key, k);
    if vs == [] then k !in t.at else k in t.at && t.at[k] == summary(vs)
  }

  ghost predicate Grouped<K(!new), V>(t: Table<K, V>, visits: seq<Visit>, key: Visit -> K, summary: seq<Visit> -> V) {
    && t.Valid()
    && forall k :: EntryIsSummary(t, visits, key, summary, k)
  }

  lemma GroupOneMore<K(!new), V>(t: Table<K, V>, visits: seq<Visit>, v: Visit, key: Visit -> K,
                                 summary: seq<Visit> -> V, entry: V)
    requires Grouped(t, visits, key, summary) && entry == summary(VisitsOf(visits, key, key(v)) + [v])
    ensures Grouped(t.Set(key(v), entry), visits + [v], key, summary)
  {
    var t' := t.Set(key(v), entry);
    forall k ensures EntryIsSummary(t', visits + [v], key, summary, k) {
      assert EntryIsSummary(t, visits, key, summary, k);
      FilterOneMore(visits, v, Keyed(key, k));
      if k != key(v) {
        assert VisitsOf(visits + [v], key, k) == VisitsOf(visits, key, k);
      }
    }
  }

  lemma GetIsSummary<K(!new), V>(t: Table<K, V>, visits: seq<Visit>, key: Visit -> K, summary: seq<Visit> -> V, k: K,
                                 none: V)
    requires Grouped(t, visits, key, summary) && none == summary([])
    ensures t.Get(k, none) == summary(VisitsOf(visits, key, k))
  {
    assert EntryIsSummary(t, visits, key, summary, k);
  }

  lemma {:induction false} SumAgrees<K>(keys: seq<K>, f: K -> nat, g: K -> nat)
    requires forall i :: 0 <= i < |keys| ==> f(keys[i]) == g(keys[i])
    ensures Sum(keys, f) == Sum(keys, g)
  {
    if keys != [] {
      SumAgrees(keys[..|keys| - 1], f, g);
    }
  }

  /** Raising one of distinct keys by one raises the sum by one. */
  lemma {:induction false} SumWithOneRaised<K>(keys: seq<K>, f: K -> nat, g: K -> nat, at: nat)
    requires at < |keys| && (forall i, j :: 0 <= i < j < |keys| ==> keys[i] != keys[j])
    requires forall i :: 0 <= i < |keys| ==> g(keys[i]) == f(keys[i]) + if i == at then 1 else 0
    ensures Sum(keys, g) == Sum(keys, f) + 1
  {
    var n := |keys| - 1;
    if at < n {
      SumWithOneRaised(keys[..n], f, g, at);
    } else {
      SumAgrees(keys[..n], f, g);
    }
  }

  lemma {:induction false} SumOfNothing<K>(keys: seq<K>, f: K -> nat)
    requires forall i :: 0 <= i < |keys| ==> f(keys[i]) == 0
    ensures Sum(keys, f) == 0
  {
    if keys != [] {
      SumOfNothing(keys[..|keys| - 1], f);
    }
  }

  function CountOf<K(==)>(visits: seq<Visit>, key: Visit -> K): K -> nat {
    (k: K) => |VisitsOf(visits, key, k)|
  }

  /** Distinct keys that cover the visits. */
  ghost predicate Covers<K(!new)>(keys: seq<K>, visits: seq<Visit>, key: Visit -> K) {
    && (forall i, j :: 0 <= i < j < |keys| ==> keys[i] != keys[j])
    && (forall i :: 0 <= i < |visits| ==> key(visits[i]) in keys)
  }

  lemma {:induction false} CountsCover<K(!new)>(visits: seq<Visit>, key: Visit -> K, keys: seq<K>)
    requires Covers(keys, visits, key)
    ensures Sum(keys, CountOf(visits, key)) == |visits|
  {
    if visits == [] {
      SumOfNothing(keys, CountOf(visits, key));
    } else {
      var n := |visits| - 1;
      CountsCover(visits[..n], key, keys);
      assert key(visits[n]) in keys;
      var at :| 0 <= at < |keys| && keys[at] == key(visits[n]);
      SumWithOneRaised(keys, CountOf(visits[..n], key), CountOf(visits, key), at);
    }
  }

  lemma TableCovers<K(!new), V>(t: Table<K, V>, visits: seq<Visit>, key: Visit -> K, summary: seq<Visit> -> V)
    requires Grouped(t, visits, key, summary)
    ensures Covers(t.keys, visits, key)
  {
    forall i | 0 <= i < |visits| ensures key(visits[i]) in t.keys {
      FilterKeeps(visits, Keyed(key, key(visits[i])), visits[i]);
      assert EntryIsSummary(t, visits, key, summary, key(visits[i]));
    }
  }

  /** Sum over the entries of a table. */
  function SumEntries<K(==), V>(keys: seq<K>, at: map<K, V>, size: V -> nat): nat
    requires forall i :: 0 <= i < |keys| ==> keys[i] in at
  {
    if keys == [] then 0 else SumEntries(keys[..|keys| - 1], at, size) + size(at[keys[|keys| - 1]])
  }

  lemma {:induction false} EntriesAreCounts<K(!new), V>(keys: seq<K>, at: map<K, V>, size: V -> nat, f: K -> nat)
    requires forall i :: 0 <= i < |keys| ==> keys[i] in at && size(at[keys[i]]) == f(keys[i])
    ensures SumEntries(keys, at, size) == Sum(keys, f)
  {
    if keys != [] {
      EntriesAreCounts(keys[..|keys| - 1], at, size, f);
    }
  }

  /** Whatever the visits are grouped by, the visits counted in the entries add up to the visits. */
  lemma {:induction false} GroupsAddUp<K(!new), V>(t: Table<K, V>, visits: seq<Visit>, key: Visit -> K,
                                                   summary: seq<Visit> -> V, size: V -> nat)
    requires Grouped(t, visits, key, summary) && forall vs :: size(summary(vs)) == |vs|
    ensures SumEntries(t.keys, t.at, size) == |visits|
  {
    TableCovers(t, visits, key, summary);
    CountsCover(visits, key, t.keys);
    forall i | 0 <= i < |t.keys| ensures size(t.at[t.keys[i]]) == CountOf(visits, key)(t.keys[i]) {
      assert EntryIsSummary(t, visits, key, summary, t.keys[i]);
    }
    EntriesAreCounts(t.keys, t.at, size, CountOf(visits, key));
  }

  // ---------------------------------------------------------------- overview

  datatype GpsCounts = GpsCounts(verified: nat, flagged: nat, missing: nat, lowAccuracy: nat)

  datatype SyncCounts = SyncCounts(pending: nat, syncing: nat, synced: nat, failed: nat, conflicts: nat)

  datatype VisitCounts = VisitCounts(
    contacts: nat, overrides: nat, final: nat, attempts: nat, revisits: nat, addresses: set<Id>)

  datatype Overview = Overview(gps: GpsCounts, sync: SyncCounts, counts: VisitCounts)

  function ByGps(s: GpsStatus): Visit -> bool {
    (v: Visit) => v.gps == s
  }

  function BySync(s: SyncStatus): Visit -> bool {
    (v: Visit) => v.sync == s
  }

  function IsFinal(): Visit -> bool {
    (v: Visit) => v.final
  }

  function IsAttempt(): Visit -> bool {
    (v: Visit) => !v.final
  }

  function IsContact(): Visit -> bool {
    (v: Visit) => v.contactMade
  }

  function IsRevisit(): Visit -> bool {
    (v: Visit) => v.revisit
  }

  function IsOverridden(): Visit -> bool {
    (v: Visit) => v.overridden
  }

  function AddressesOf(visits: seq<Visit>): set<Id> {
    if visits == [] then {} else AddressesOf(visits[..|visits| - 1]) + {visits[|visits| - 1].address}
  }

  ghost predicate GpsCounted(g: GpsCounts, visits: seq<Visit>) {
    && g.verified == CountWhere(visits, ByGps(Verified)) && g.flagged == CountWhere(visits, ByGps(Flagged))
    && g.missing == CountWhere(visits, ByGps(Missing)) && g.lowAccuracy == CountWhere(visits, ByGps(LowAccuracy))
  }

  ghost predicate SyncCounted(s: SyncCounts, visits: seq<Visit>) {
    && s.pending == CountWhere(visits, BySync(Pending)) && s.syncing == CountWhere(visits, BySync(Syncing))
    && s.synced == CountWhere(visits, BySync(Synced)) && s.failed == CountWhere(visits, BySync(Failed))
    && s.conflicts == CountWhere(visits, BySync(Conflict))
  }

  ghost predicate VisitsCounted(c: VisitCounts, visits: seq<Visit>) {
    && c.contacts == CountWhere(visits, IsContact()) && c.overrides == CountWhere(visits, IsOverridden())
    && c.final == CountWhere(visits, IsFinal()) && c.attempts == CountWhere(visits, IsAttempt())
    && c.revisits == CountWhere(visits, IsRevisit()) && c.addresses == AddressesOf(visits)
  }

  ghost predicate Counted(o: Overview, visits: seq<Visit>) {
    GpsCounted(o.gps, visits) && SyncCounted(o.sync, visits) && VisitsCounted(o.counts, visits)
  }

  method CountGps(g: GpsCounts, v: Visit, ghost visits: seq<Visit>) returns (r: GpsCounts)
    requires GpsCounted(g, visits)
    ensures GpsCounted(r, visits + [v])
  {
    assert (visits + [v])[..|visits|] == visits;
    match v.gps {
      case Verified => r := g.(verified := g.verified + 1);
      case Flagged => r := g.(flagged := g.flagged + 1);
      case Missing => r := g.(missing := g.missing + 1);
      case LowAccuracy => r := g.(lowAccuracy := g.lowAccuracy + 1);
    }
  }

  method CountSync(s: SyncCounts, v: Visit, ghost visits: seq<Visit>) returns (r: SyncCounts)
    requires SyncCounted(s, visits)
    ensures SyncCounted(r, visits + [v])
  {
    assert (visits + [v])[..|visits|] == visits;
    match v.sync {
      case Pending => r := s.(pending := s.pending + 1);
      case Syncing => r := s.(syncing := s.syncing + 1);
      case Synced => r := s.(synced := s.synced + 1);
      case Failed => r := s.(failed := s.failed + 1);
      case Conflict => r := s.(conflicts := s.conflicts + 1);
    }
  }

  method CountVisit(c: VisitCounts, v: Visit, ghost visits: seq<Visit>) returns (r: VisitCounts)
    requires VisitsCounted(c, visits)
    ensures VisitsCounted(r, visits + [v])
  {
    assert (visits + [v])[..|visits|] == visits;
    r := c.(addresses := c.addresses + {v.address});
    if v.contactMade {
      r := r.(contacts := r.contacts + 1);
    }
    if v.overridden {
      r := r.(overrides := r.overrides + 1);
    }
    if v.final {
      r := r.(final := r.final + 1);
    } else {
      r := r.(attempts := r.attempts + 1);
    }
    if v.revisit {
      r := r.(revisits := r.revisits + 1);
    }
  }

  /** The overview loop: the counters, and the preview per canvasser. */
  method GetOverview(visits: seq<Visit>) returns (o: Overview, preview: Table<Id, Bucket>)
    ensures Counted(o, visits)
    ensures Grouped(preview, visits, CanvasserOf(), BucketSummary())
  {
    var gps, sync := GpsCounts(0, 0, 0, 0), SyncCounts(0, 0, 0, 0, 0);
    var counts := VisitCounts(0, 0, 0, 0, 0, {});
    preview := Table([], map[]);
    for i := 0 to |visits|
      invariant GpsCounted(gps, visits[..i])
      invariant SyncCounted(sync, visits[..i])
      invariant VisitsCounted(counts, visits[..i])
      invariant Grouped(preview, visits[..i], CanvasserOf(), BucketSummary())
    {
      var v := visits[i];
      TakeOneMore(visits, i);
      counts := CountVisit(counts, v, visits[..i]);
      gps := CountGps(gps, v, visits[..i]);
      sync := CountSync(sync, v, visits[..i]);
      preview := CountInBucket(preview, v, visits[..i]);
    }
    assert visits[..|visits|] == visits;
    o := Overview(gps, sync, counts);
  }

  method CountInBucket(t: Table<Id, Bucket>, v: Visit, ghost visits: seq<Visit>) returns (r: Table<Id, Bucket>)
    requires Grouped(t, visits, CanvasserOf(), BucketSummary())
    ensures Grouped(r, visits + [v], CanvasserOf(), BucketSummary())
  {
    var current := t.Get(v.canvasser, Bucket(0, 0, {}));
    current := current.(visits := current.visits + 1, addresses := current.addresses + {v.address});
    if v.contactMade {
      current := current.(contacts := current.contacts + 1);
    }
    BucketOneMore(t, visits, v, CanvasserOf(), v.canvasser);
    r := t.Set(v.canvasser, current);
  }

  /** Every visit is in exactly one GPS counter, one sync counter and one disposition counter, and the report calls
      itself synced exactly if every visit is. */
  lemma {:induction false} OverviewAddsUp(o: Overview, visits: seq<Visit>)
    requires Counted(o, visits)
    ensures o.gps.verified + o.gps.flagged + o.gps.missing + o.gps.lowAccuracy == |visits|
    ensures o.sync.pending + o.sync.syncing + o.sync.synced + o.sync.failed + o.sync.conflicts == |visits|
    ensures o.counts.final + o.counts.attempts == |visits|
    ensures o.sync.pending + o.sync.syncing + o.sync.failed + o.sync.conflicts == 0
       <==> forall i :: 0 <= i < |visits| ==> visits[i].sync == Synced
  {
    GpsAddsUp(visits);
    SyncAddsUp(visits);
    DispositionsAddUp(visits);
    assert forall i :: 0 <= i < |visits| ==> BySync(visits[i].sync)(visits[i]);
  }

  lemma {:induction false} GpsAddsUp(visits: seq<Visit>)
    ensures CountWhere(visits, ByGps(Verified)) + CountWhere(visits, ByGps(Flagged)) + CountWhere(visits, ByGps(Missing))
          + CountWhere(visits, ByGps(LowAccuracy)) == |visits|
  {
    if visits != [] {
      GpsAddsUp(visits[..|visits| - 1]);
    }
  }

  lemma {:induction false} SyncAddsUp(visits: seq<Visit>)
    ensures CountWhere(visits, BySync(Pending)) + CountWhere(visits, BySync(Syncing)) + CountWhere(visits, BySync(Synced))
          + CountWhere(visits, BySync(Failed)) + CountWhere(visits, BySync(Conflict)) == |visits|
  {
    if visits != [] {
      SyncAddsUp(visits[..|visits| - 1]);
    }
  }

  lemma {:induction false} DispositionsAddUp(visits: seq<Visit>)
    ensures CountWhere(visits, IsFinal()) + CountWhere(visits, IsAttempt()) == |visits|
  {
    if visits != [] {
      DispositionsAddUp(visits[..|visits| - 1]);
    }
  }

  // ---------------------------------------------------------------- trends

  datatype Bucket = Bucket(visits: nat, contacts: nat, addresses: set<Id>)

  datatype Trends = Trends(
    byDay: Table<string, Bucket>, byOutcome: Table<string, nat>, byTimeOfDay: Table<string, nat>,
    byDayOfWeek: Table<string, nat>, final: nat, attempts: nat, revisits: nat)

  function DayOf(): Visit -> string {
    (v: Visit) => v.day
  }

  function OutcomeOf(): Visit -> string {
    (v: Visit) => v.outcome
  }

  function TimeOfDayOf(): Visit -> string {
    (v: Visit) => v.timeOfDay
  }

  function DayOfWeekOf(): Visit -> string {
    (v: Visit) => v.dayOfWeek
  }

  function BucketSummary(): seq<Visit> -> Bucket {
    (vs: seq<Visit>) => Bucket(|vs|, CountWhere(vs, IsContact()), AddressesOf(vs))
  }

  function Total(): seq<Visit> -> nat {
    (vs: seq<Visit>) => |vs|
  }

  ghost predicate TotalsCounted(t: Trends, visits: seq<Visit>) {
    && Grouped(t.byOutcome, visits, OutcomeOf(), Total())
    && Grouped(t.byTimeOfDay, visits, TimeOfDayOf(), Total())
    && Grouped(t.byDayOfWeek, visits, DayOfWeekOf(), Total())
  }

  ghost predicate DaysCounted(t: Trends, visits: seq<Visit>) {
    Grouped(t.byDay, visits, DayOf(), BucketSummary())
  }

  ghost predicate DispositionsCounted(t: Trends, visits: seq<Visit>) {
    && t.final == CountWhere(visits, IsFinal()) && t.attempts == CountWhere(visits, IsAttempt())
    && t.revisits == CountWhere(visits, IsRevisit())
  }

  function Bumped(t: Table<string, nat>, k: string): Table<string, nat> {
    t.Set(k, t.Get(k, 0) + 1)
  }

  /** A table of plain totals after one more visit. */
  lemma TotalOneMore(t: Table<string, nat>, visits: seq<Visit>, v: Visit, key: Visit -> string, k: string)
    requires Grouped(t, visits, key, Total()) && k == key(v)
    ensures Grouped(Bumped(t, k), visits + [v], key, Total())
  {
    GetIsSummary(t, visits, key, Total(), k, 0);
    GroupOneMore(t, visits, v, key, Total(), t.Get(k, 0) + 1);
  }

  function Grown(b: Bucket, v: Visit): Bucket {
    Bucket(b.visits + 1, b.contacts + (if v.contactMade then 1 else 0), b.addresses + {v.address})
  }

  /** A table of buckets after one more visit. */
  lemma BucketOneMore<K(!new)>(t: Table<K, Bucket>, visits: seq<Visit>, v: Visit, key: Visit -> K, k: K)
    requires Grouped(t, visits, key, BucketSummary()) && k == key(v)
    ensures Grouped(t.Set(k, Grown(t.Get(k, Bucket(0, 0, {})), v)), visits + [v], key, BucketSummary())
  {
    var vs := VisitsOf(visits, key, k);
    GetIsSummary(t, visits, key, BucketSummary(), k, Bucket(0, 0, {}));
    assert (vs + [v])[..|vs|] == vs;
    GroupOneMore(t, visits, v, key, BucketSummary(), Grown(t.Get(k, Bucket(0, 0, {})), v));
  }

  /** The tables and counters after one more visit. */
  ghost predicate TrendsRaised(t: Trends, v: Visit, t': Trends) {
    && t'.byDay == t.byDay.Set(v.day, Grown(t.byDay.Get(v.day, Bucket(0, 0, {})), v))
    && t'.byOutcome == Bumped(t.byOutcome, v.outcome) && t'.byTimeOfDay == Bumped(t.byTimeOfDay, v.timeOfDay)
    && t'.byDayOfWeek == Bumped(t.byDayOfWeek, v.dayOfWeek)
    && t'.final == t.final + (if v.final then 1 else 0) && t'.attempts == t.attempts + (if v.final then 0 else 1)
    && t'.revisits == t.revisits + (if v.revisit then 1 else 0)
  }

  lemma DaysOneMore(t: Trends, visits: seq<Visit>, v: Visit, t': Trends)
    requires DaysCounted(t, visits) && TrendsRaised(t, v, t')
    ensures DaysCounted(t', visits + [v])
  {
    BucketOneMore(t.byDay, visits, v, DayOf(), v.day);
  }

  lemma TotalsOneMore(t: Trends, visits: seq<Visit>, v: Visit, t': Trends)
    requires TotalsCounted(t, visits) && TrendsRaised(t, v, t')
    ensures TotalsCounted(t', visits + [v])
  {
    TotalOneMore(t.byOutcome, visits, v, OutcomeOf(), v.outcome);
    TotalOneMore(t.byTimeOfDay, visits, v, TimeOfDayOf(), v.timeOfDay);
    TotalOneMore(t.byDayOfWeek, visits, v, DayOfWeekOf(), v.dayOfWeek);
  }

  lemma DispositionsOneMore(t: Trends, visits: seq<Visit>, v: Visit, t': Trends)
    requires DispositionsCounted(t, visits) && TrendsRaised(t, v, t')
    ensures DispositionsCounted(t', visits + [v])
  {
    assert (visits + [v])[..|visits|] == visits;
  }

  /** The body of the trend loop. */
  method CountInTrends(t: Trends, v: Visit) returns (t': Trends)
    ensures TrendsRaised(t, v, t')
  {
    var byDay, byOutcome, byTimeOfDay, byDayOfWeek := t.byDay, t.byOutcome, t.byTimeOfDay, t.byDayOfWeek;
    var final, attempts, revisits := t.final, t.attempts, t.revisits;
    var dayBucket := byDay.Get(v.day, Bucket(0, 0, {}));
    var contacts := dayBucket.contacts;
    if v.contactMade {
      contacts := contacts + 1;
    }
    byDay := byDay.Set(v.day, Bucket(dayBucket.visits + 1, contacts, dayBucket.addresses + {v.address}));
    byOutcome := byOutcome.Set(v.outcome, byOutcome.Get(v.outcome, 0) + 1);
    byTimeOfDay := byTimeOfDay.Set(v.timeOfDay, byTimeOfDay.Get(v.timeOfDay, 0) + 1);
    byDayOfWeek := byDayOfWeek.Set(v.dayOfWeek, byDayOfWeek.Get(v.dayOfWeek, 0) + 1);
    if v.final {
      final := final + 1;
    } else {
      attempts := attempts + 1;
    }
    if v.revisit {
      revisits := revisits + 1;
    }
    t' := Trends(byDay, byOutcome, byTimeOfDay, byDayOfWeek, final, attempts, revisits);
  }

  /** The trend loop. */
  method GetTrendSummary(visits: seq<Visit>) returns (t: Trends)
    ensures DaysCounted(t, visits) && TotalsCounted(t, visits) && DispositionsCounted(t, visits)
  {
    t := Trends(Table([], map[]), Table([], map[]), Table([], map[]), Table([], map[]), 0, 0, 0);
    for i := 0 to |visits|
      invariant DaysCounted(t, visits[..i])
      invariant TotalsCounted(t, visits[..i])
      invariant DispositionsCounted(t, visits[..i])
    {
      var t' := CountInTrends(t, visits[i]);
      TakeOneMore(visits, i);
      DaysOneMore(t, visits[..i], visits[i], t');
      TotalsOneMore(t, visits[..i], visits[i], t');
      DispositionsOneMore(t, visits[..i], visits[i], t');
      t := t';
    }
    assert visits[..|visits|] == visits;
  }

  function DayVisits(): Bucket -> nat {
    (b: Bucket) => b.visits
  }

  function Itself(): nat -> nat {
    (n: nat) => n
  }

  /** The days, the outcomes, the times of day and the days of the week each account for every visit once. */
  lemma {:induction false} TrendsAddUp(t: Trends, visits: seq<Visit>)
    requires DaysCounted(t, visits) && TotalsCounted(t, visits) && DispositionsCounted(t, visits)
    ensures t.byDay.Valid() && SumEntries(t.byDay.keys, t.byDay.at, DayVisits()) == |visits|
    ensures t.byOutcome.Valid() && SumEntries(t.byOutcome.keys, t.byOutcome.at, Itself()) == |visits|
    ensures t.byTimeOfDay.Valid() && SumEntries(t.byTimeOfDay.keys, t.byTimeOfDay.at, Itself()) == |visits|
    ensures t.byDayOfWeek.Valid() && SumEntries(t.byDayOfWeek.keys, t.byDayOfWeek.at, Itself()) == |visits|
    ensures t.final + t.attempts == |visits|
  {
    GroupsAddUp(t.byDay, visits, DayOf(), BucketSummary(), DayVisits());
    GroupsAddUp(t.byOutcome, visits, OutcomeOf(), Total(), Itself());
    GroupsAddUp(t.byTimeOfDay, visits, TimeOfDayOf(), Total(), Itself());
    GroupsAddUp(t.byDayOfWeek, visits, DayOfWeekOf(), Total(), Itself());
    DispositionsAddUp(visits);
  }

  // ---------------------------------------------------------------- session minutes

  /** Times are in milliseconds. */
  datatype Session = Session(id: Id, canvasser: Id, start: int, end: Option<int>)

  datatype Range = Range(first: Option<int>, last: Option<int>)

  const MS_PER_MINUTE := 60000.0

  /** The part of a session within a range; a session without an end lasts until now. */
  function Clipped(s: Session, range: Range, now: int): (ms: nat) {
    var end := if s.end.Some? then s.end.value else now;
    var clippedStart := if range.first.Some? && range.first.value > s.start then range.first.value else s.start;
    var clippedEnd := if range.last.Some? && range.last.value < end then range.last.value else end;
    if clippedEnd <= clippedStart then 0 else clippedEnd - clippedStart
  }

  function Minutes(s: Session, range: Range, now: int): real {
    Clipped(s, range, now) as real / MS_PER_MINUTE
  }

  function MinutesOf(sessions: seq<Session>, range: Range, now: int): real {
    if sessions == [] then 0.0
    else MinutesOf(sessions[..|sessions| - 1], range, now) + Minutes(sessions[|sessions| - 1], range, now)
  }

  /** A session counts, in minutes of sixty thousand milliseconds, for the time that it and the range have in common. */
  lemma {:induction false} MinutesAreShared(s: Session, range: Range, now: int, from: int, to: int)
    requires from == if range.first.Some? && s.start <= range.first.value then range.first.value else s.start
    requires var end := if s.end.Some? then s.end.value else now;
             to == if range.last.Some? && range.last.value <= end then range.last.value else end
    ensures Minutes(s, range, now) * 60000.0 == (if from <= to then to - from else 0) as real
  {
  }

  /** Cutting a range at an instant of it cuts the minutes of the sessions. */
  lemma {:induction false} MinutesSplitAtInstant(sessions: seq<Session>, range: Range, at: int, now: int)
    requires (range.first.Some? ==> range.first.value <= at) && (range.last.Some? ==> at <= range.last.value)
    ensures MinutesOf(sessions, Range(range.first, Some(at)), now) + MinutesOf(sessions, Range(Some(at), range.last), now)
         == MinutesOf(sessions, range, now)
  {
    if sessions != [] {
      MinutesSplitAtInstant(sessions[..|sessions| - 1], range, at, now);
      var s := sessions[|sessions| - 1];
      assert Clipped(s, Range(range.first, Some(at)), now) + Clipped(s, Range(Some(at), range.last), now)
          == Clipped(s, range, now);
    }
  }

  /** The session runs through the whole millisecond from an instant. */
  function Spans(at: int, now: int): Session -> bool {
    (s: Session) => s.start <= at && at + 1 <= if s.end.Some? then s.end.value else now
  }

  /** Days end a millisecond before the next one starts, so reports of consecutive day ranges together miss exactly
      one millisecond of every session that runs through the boundary, and nothing else. */
  lemma {:induction false} MinutesSplitAtMidnight(sessions: seq<Session>, range: Range, dayEnd: int, now: int)
    requires (range.first.Some? ==> range.first.value <= dayEnd) && (range.last.Some? ==> dayEnd < range.last.value)
    ensures MinutesOf(sessions, Range(range.first, Some(dayEnd)), now)
          + MinutesOf(sessions, Range(Some(dayEnd + 1), range.last), now)
         == MinutesOf(sessions, range, now) - CountWhere(sessions, Spans(dayEnd, now)) as real / MS_PER_MINUTE
  {
    if sessions != [] {
      MinutesSplitAtMidnight(sessions[..|sessions| - 1], range, dayEnd, now);
      var s := sessions[|sessions| - 1];
      assert Clipped(s, Range(range.first, Some(dayEnd)), now) + Clipped(s, Range(Some(dayEnd + 1), range.last), now)
          == Clipped(s, range, now) - if Spans(dayEnd, now)(s) then 1 else 0;
    }
  }

  /** The sessions that a report loads for a range. */
  function Loaded(range: Range): Session -> bool {
    (s: Session) =>
      && (range.last.Some? ==> s.start <= range.last.value)
      && (range.first.Some? ==> s.end.None? || s.end.value >= range.first.value)
  }

  /** They are those that have an instant in common with it. */
  lemma {:induction false} LoadedSharesAnInstant(s: Session, range: Range)
    requires s.end.Some? ==> s.start <= s.end.value
    requires range.first.Some? && range.last.Some? ==> range.first.value <= range.last.value
    ensures Loaded(range)(s) <==> exists t :: InBoth(s, range, t)
  {
    if Loaded(range)(s) {
      assert InBoth(s, range, if range.first.Some? && s.start < range.first.value then range.first.value else s.start);
    }
  }

  /** The instant lies in the session and in the range. */
  predicate InBoth(s: Session, range: Range, t: int) {
    && s.start <= t && (s.end.Some? ==> t <= s.end.value)
    && (range.first.Some? ==> range.first.value <= t) && (range.last.Some? ==> t <= range.last.value)
  }

  /** Sessions that are not loaded have no minutes in the range. */
  lemma {:induction false} LoadingLosesNoMinutes(sessions: seq<Session>, range: Range, now: int)
    ensures MinutesOf(Filter(sessions, Loaded(range)), range, now) == MinutesOf(sessions, range, now)
  {
    if sessions != [] {
      var n := |sessions| - 1;
      LoadingLosesNoMinutes(sessions[..n], range, now);
      var loaded := Filter(sessions[..n], Loaded(range));
      if Loaded(range)(sessions[n]) {
        assert (loaded + [sessions[n]])[..|loaded|] == loaded;
      } else {
        assert loaded + [] == loaded;
        assert Clipped(sessions[n], range, now) == 0;
      }
    }
  }

  // ---------------------------------------------------------------- productivity

  datatype Row = Row(
    visits: nat, addresses: set<Id>, contacts: nat, final: nat, revisits: nat, verified: nat, flagged: nat,
    sessions: set<Id>, minutes: real)

  function CanvasserOf(): Visit -> Id {
    (v: Visit) => v.canvasser
  }

  function SessionsOf(visits: seq<Visit>): set<Id> {
    if visits == [] then {}
    else
      var last := visits[|visits| - 1];
      SessionsOf(visits[..|visits| - 1]) + if last.session.Some? then {last.session.value} else {}
  }

  /** A canvasser's row before sessions are added. */
  function RowSummary(): seq<Visit> -> Row {
    (vs: seq<Visit>) =>
      Row(|vs|, AddressesOf(vs), CountWhere(vs, IsContact()), CountWhere(vs, IsFinal()), CountWhere(vs, IsRevisit()),
          CountWhere(vs, ByGps(Verified)), CountWhere(vs, ByGps(Flagged)), SessionsOf(vs), 0.0)
  }

  const NO_ROW := Row(0, {}, 0, 0, 0, 0, 0, {}, 0.0)

  function RowWith(r: Row, v: Visit): Row {
    r.(visits := r.visits + 1, addresses := r.addresses + {v.address},
       contacts := r.contacts + (if v.contactMade then 1 else 0), final := r.final + (if v.final then 1 else 0),
       revisits := r.revisits + (if v.revisit then 1 else 0),
       verified := r.verified + (if v.gps == Verified then 1 else 0),
       flagged := r.flagged + (if v.gps == Flagged then 1 else 0),
       sessions := r.sessions + if v.session.Some? then {v.session.value} else {})
  }

  lemma SummaryOneMore(vs: seq<Visit>, v: Visit)
    ensures RowSummary()(vs + [v]) == RowWith(RowSummary()(vs), v)
  {
    assert (vs + [v])[..|vs|] == vs;
  }

  function BySession(canvasser: Id): Session -> bool {
    (s: Session) => s.canvasser == canvasser
  }

  /** A row with the sessions of its canvasser added. */
  function Worked(r: Row, sessions: seq<Session>, range: Range, now: int): Row {
    if sessions == [] then r
    else
      var before := Worked(r, sessions[..|sessions| - 1], range, now);
      var last := sessions[|sessions| - 1];
      before.(sessions := before.sessions + {last.id}, minutes := before.minutes + Minutes(last, range, now))
  }

  lemma {:induction false} WorkedAddsMinutes(r: Row, sessions: seq<Session>, range: Range, now: int)
    ensures var w := Worked(r, sessions, range, now);
            && w.minutes == r.minutes + MinutesOf(sessions, range, now)
            && w == r.(sessions := w.sessions, minutes := w.minutes)
  {
    if sessions != [] {
      WorkedAddsMinutes(r, sessions[..|sessions| - 1], range, now);
    }
  }

  ghost predicate RowIsRight(t: Table<Id, Row>, visits: seq<Visit>, sessions: seq<Session>, range: Range, now: int, c: Id) {
    var vs := VisitsOf(visits, CanvasserOf(), c);
    if vs == [] then c !in t.at
    else c in t.at && t.at[c] == Worked(RowSummary()(vs), Filter(sessions, BySession(c)), range, now)
  }

  ghost predicate RowsAreRight(t: Table<Id, Row>, visits: seq<Visit>, sessions: seq<Session>, range: Range, now: int) {
    t.Valid() && forall c :: RowIsRight(t, visits, sessions, range, now, c)
  }

  /** Both loops of the productivity report: a row for every canvasser with a visit, then the sessions of those. */
  method GetProductivity(visits: seq<Visit>, sessions: seq<Session>, range: Range, now: int)
    returns (t: Table<Id, Row>)
    ensures RowsAreRight(t, visits, sessions, range, now)
  {
    t := CountVisits(visits);
    forall c ensures RowIsRight(t, visits, [], range, now, c) {
      assert EntryIsSummary(t, visits, CanvasserOf(), RowSummary(), c);
    }
    for j := 0 to |sessions|
      invariant RowsAreRight(t, visits, sessions[..j], range, now)
    {
      ghost var before := t;
      var s := sessions[j];
      if s.canvasser in t.at {
        var row := t.at[s.canvasser];
        t := t.Set(s.canvasser, row.(sessions := row.sessions + {s.id}, minutes := row.minutes + Minutes(s, range, now)));
      }
      TakeOneMore(sessions, j);
      ghost var seen := sessions[..j] + [s];
      forall c ensures RowIsRight(t, visits, seen, range, now, c) {
        assert RowIsRight(before, visits, sessions[..j], range, now, c);
        WorkedOneMore(sessions[..j], s, c, RowSummary()(VisitsOf(visits, CanvasserOf(), c)), range, now);
      }
    }
    assert sessions[..|sessions|] == sessions;
  }

  lemma WorkedOneMore(sessions: seq<Session>, s: Session, c: Id, r: Row, range: Range, now: int)
    ensures var w := Worked(r, Filter(sessions, BySession(c)), range, now);
            Worked(r, Filter(sessions + [s], BySession(c)), range, now)
            == if s.canvasser == c then w.(sessions := w.sessions + {s.id}, minutes := w.minutes + Minutes(s, range, now))
               else w
  {
    var mine := Filter(sessions, BySession(c));
    FilterOneMore(sessions, s, BySession(c));
    if s.canvasser == c {
      assert (mine + [s])[..|mine|] == mine;
    } else {
      assert mine + [] == mine;
    }
  }

  method CountVisits(visits: seq<Visit>) returns (t: Table<Id, Row>)
    ensures Grouped(t, visits, CanvasserOf(), RowSummary())
  {
    t := Table([], map[]);
    for i := 0 to |visits|
      invariant Grouped(t, visits[..i], CanvasserOf(), RowSummary())
    {
      var v := visits[i];
      var row := t.Get(v.canvasser, NO_ROW);
      GetIsSummary(t, visits[..i], CanvasserOf(), RowSummary(), v.canvasser, NO_ROW);
      SummaryOneMore(VisitsOf(visits[..i], CanvasserOf(), v.canvasser), v);
      GroupOneMore(t, visits[..i], v, CanvasserOf(), RowSummary(), RowWith(row, v));
      TakeOneMore(visits, i);
      t := t.Set(v.canvasser, RowWith(row, v));
    }
    assert visits[..|visits|] == visits;
  }

  function RowVisits(): Row -> nat {
    (r: Row) => r.visits
  }

  function RowAddresses(): Row -> nat {
    (r: Row) => |r.addresses|
  }

  function AddressCount(visits: seq<Visit>): Id -> nat {
    (c: Id) => |AddressesOf(VisitsOf(visits, CanvasserOf(), c))|
  }

  lemma {:induction false} RightRowsCover(t: Table<Id, Row>, visits: seq<Visit>, sessions: seq<Session>, range: Range,
                                          now: int)
    requires RowsAreRight(t, visits, sessions, range, now)
    ensures Covers(t.keys, visits, CanvasserOf())
    ensures forall c :: c in t.at ==>
      t.at[c].visits == CountOf(visits, CanvasserOf())(c) && |t.at[c].addresses| == AddressCount(visits)(c)
  {
    forall i | 0 <= i < |visits| ensures visits[i].canvasser in t.keys {
      FilterKeeps(visits, Keyed(CanvasserOf(), visits[i].canvasser), visits[i]);
      assert RowIsRight(t, visits, sessions, range, now, visits[i].canvasser);
    }
    forall c | c in t.at
      ensures t.at[c].visits == CountOf(visits, CanvasserOf())(c) && |t.at[c].addresses| == AddressCount(visits)(c)
    {
      assert RowIsRight(t, visits, sessions, range, now, c);
      WorkedAddsMinutes(RowSummary()(VisitsOf(visits, CanvasserOf(), c)), Filter(sessions, BySession(c)), range, now);
    }
  }

  /** No address was visited by two canvassers. */
  ghost predicate OneCanvasserEach(visits: seq<Visit>) {
    forall i, j :: 0 <= i < |visits| && 0 <= j < |visits| && visits[i].address == visits[j].address ==>
      visits[i].canvasser == visits[j].canvasser
  }

  lemma {:induction false} AddressIsVisited(visits: seq<Visit>, a: Id)
    ensures a in AddressesOf(visits) <==> exists i :: 0 <= i < |visits| && visits[i].address == a
  {
    if visits != [] {
      var n := |visits| - 1;
      AddressIsVisited(visits[..n], a);
      if i :| 0 <= i < |visits| && visits[i].address == a {
        assert i < n ==> visits[..n][i].address == a;
      }
      if a in AddressesOf(visits[..n]) {
        var i :| 0 <= i < n && visits[..n][i].address == a;
        assert visits[i].address == a;
      }
    }
  }

  lemma {:induction false} AddressIsVisitedBy(visits: seq<Visit>, c: Id, a: Id)
    ensures a in AddressesOf(VisitsOf(visits, CanvasserOf(), c)) <==>
      exists i :: 0 <= i < |visits| && visits[i].address == a && visits[i].canvasser == c
  {
    var mine := VisitsOf(visits, CanvasserOf(), c);
    AddressIsVisited(mine, a);
    if i :| 0 <= i < |mine| && mine[i].address == a {
      FilterKeeps(visits, Keyed(CanvasserOf(), c), mine[i]);
    }
    if i :| 0 <= i < |visits| && visits[i].address == a && visits[i].canvasser == c {
      FilterKeeps(visits, Keyed(CanvasserOf(), c), visits[i]);
    }
  }

  lemma {:induction false} AddressCountOneMore(visits: seq<Visit>, v: Visit, k: Id)
    ensures AddressCount(visits + [v])(k) == AddressCount(visits)(k)
      + if k == v.canvasser && v.address !in AddressesOf(VisitsOf(visits, CanvasserOf(), k)) then 1 else 0
  {
    var vs := VisitsOf(visits, CanvasserOf(), k);
    FilterOneMore(visits, v, Keyed(CanvasserOf(), k));
    if k == v.canvasser {
      assert (vs + [v])[..|vs|] == vs;
    } else {
      assert VisitsOf(visits + [v], CanvasserOf(), k) == vs;
    }
  }

  lemma {:induction false} OneMoreAddress(visits: seq<Visit>, v: Visit, keys: seq<Id>, at: nat)
    requires (forall i, j :: 0 <= i < j < |keys| ==> keys[i] != keys[j]) && at < |keys| && keys[at] == v.canvasser
    ensures Sum(keys, AddressCount(visits + [v])) == Sum(keys, AddressCount(visits))
      + if v.address in AddressesOf(VisitsOf(visits, CanvasserOf(), v.canvasser)) then 0 else 1
  {
    var f, g := AddressCount(visits), AddressCount(visits + [v]);
    var new_ := v.address !in AddressesOf(VisitsOf(visits, CanvasserOf(), v.canvasser));
    forall i | 0 <= i < |keys| ensures g(keys[i]) == f(keys[i]) + if i == at && new_ then 1 else 0 {
      AddressCountOneMore(visits, v, keys[i]);
    }
    if new_ {
      SumWithOneRaised(keys, f, g, at);
    } else {
      SumAgrees(keys, f, g);
    }
  }

  lemma OneMoreShares(visits: seq<Visit>, v: Visit)
    ensures OneCanvasserEach(visits + [v]) <==>
      && OneCanvasserEach(visits)
      && forall j :: 0 <= j < |visits| && visits[j].address == v.address ==> visits[j].canvasser == v.canvasser
  {
    var more := visits + [v];
    assert forall i :: 0 <= i < |visits| ==> more[i] == visits[i];
    if OneCanvasserEach(more) {
      assert more[|visits|] == v;
      forall i, j | 0 <= i < |visits| && 0 <= j < |visits| && visits[i].address == visits[j].address
        ensures visits[i].canvasser == visits[j].canvasser
      {
        assert more[i].address == more[j].address;
      }
      forall j | 0 <= j < |visits| && visits[j].address == v.address ensures visits[j].canvasser == v.canvasser {
        assert more[j].address == more[|visits|].address;
      }
    }
  }

  /** The sum is at least the number of addresses, and equals it exactly if no address is shared. */
  ghost predicate SumsAddresses(visits: seq<Visit>, sum: nat) {
    && sum >= |AddressesOf(visits)|
    && (sum == |AddressesOf(visits)| <==> OneCanvasserEach(visits))
  }

  lemma {:induction false} SumsOneMore(visits: seq<Visit>, v: Visit, sum: nat)
    requires SumsAddresses(visits, sum)
    ensures SumsAddresses(visits + [v],
                          sum + if v.address in AddressesOf(VisitsOf(visits, CanvasserOf(), v.canvasser)) then 0 else 1)
  {
    assert (visits + [v])[..|visits|] == visits;
    OneMoreShares(visits, v);
    AddressIsVisited(visits, v.address);
    AddressIsVisitedBy(visits, v.canvasser, v.address);
    if v.address in AddressesOf(VisitsOf(visits, CanvasserOf(), v.canvasser)) {
      var i :| 0 <= i < |visits| && visits[i].address == v.address && visits[i].canvasser == v.canvasser;
      assert v.address in AddressesOf(visits);
      assert AddressesOf(visits + [v]) == AddressesOf(visits);
      assert OneCanvasserEach(visits) ==>
               forall j :: 0 <= j < |visits| && visits[j].address == v.address ==> visits[j].canvasser == v.canvasser;
    } else if v.address in AddressesOf(visits) {
      var i :| 0 <= i < |visits| && visits[i].address == v.address;
      assert visits[i].canvasser != v.canvasser;
    } else {
      assert forall j :: 0 <= j < |visits| ==> visits[j].address != v.address;
    }
  }

  lemma CoverOfLast(keys: seq<Id>, visits: seq<Visit>) returns (at: nat)
    requires visits != [] && Covers(keys, visits, CanvasserOf())
    ensures at < |keys| && keys[at] == visits[|visits| - 1].canvasser
    ensures Covers(keys, visits[..|visits| - 1], CanvasserOf())
  {
    var v := visits[|visits| - 1];
    assert CanvasserOf()(v) in keys;
    at :| 0 <= at < |keys| && keys[at] == v.canvasser;
  }

  /** Adding up the addresses of the canvassers counts an address once for everyone who visited it. */
  lemma {:induction false} AddressesAddUp(visits: seq<Visit>, keys: seq<Id>)
    requires Covers(keys, visits, CanvasserOf())
    ensures SumsAddresses(visits, Sum(keys, AddressCount(visits)))
  {
    if visits == [] {
      SumOfNothing(keys, AddressCount(visits));
    } else {
      var earlier, v := visits[..|visits| - 1], visits[|visits| - 1];
      assert earlier + [v] == visits;
      var at := CoverOfLast(keys, visits);
      AddressesAddUp(earlier, keys);
      OneMoreAddress(earlier, v, keys, at);
      SumsOneMore(earlier, v, Sum(keys, AddressCount(earlier)));
    }
  }

  /** The rows account for every visit once. Their address counts add up to at least the number of addresses visited,
      and to exactly that number if and only if no address was visited by two canvassers. */
  lemma {:induction false} ProductivityAddsUp(t: Table<Id, Row>, visits: seq<Visit>, sessions: seq<Session>, range: Range,
                                              now: int)
    requires RowsAreRight(t, visits, sessions, range, now)
    ensures SumEntries(t.keys, t.at, RowVisits()) == |visits|
    ensures SumsAddresses(visits, SumEntries(t.keys, t.at, RowAddresses()))
  {
    RightRowsCover(t, visits, sessions, range, now);
    CountsCover(visits, CanvasserOf(), t.keys);
    EntriesAreCounts(t.keys, t.at, RowVisits(), CountOf(visits, CanvasserOf()));
    AddressesAddUp(visits, t.keys);
    EntriesAreCounts(t.keys, t.at, RowAddresses(), AddressCount(visits));
  }
}
