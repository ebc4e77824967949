/** What the figures of the reports count: visits, by their own fields, as sizes of sets. */
module ReportCounts {
  import opened Common
  import opened Reports

  /** The set holds the positions of the rows with a property. */
  ghost predicate Positions<T>(rows: seq<T>, p: T -> bool, at: set<nat>) {
    forall i: nat {:trigger rows[i]} :: i < |rows| ==> (i in at <==> p(rows[i]))
  }

  /** Counting rows is the size of that set. */
  lemma {:induction false} CountIsSize<T>(rows: seq<T>, p: T -> bool, at: set<nat>)
    requires Positions(rows, p, at) && forall i :: i in at ==> i < |rows|
    ensures CountWhere(rows, p) == |at|
  {
    if rows == [] {
      assert at == {};
    } else {
      var n := |rows| - 1;
      var before := at - {n};
      forall i: nat | i < n ensures i in before <==> p(rows[..n][i]) {
        assert rows[..n][i] == rows[i];
      }
      CountIsSize(rows[..n], p, before);
      assert at == if p(rows[n]) then before + {n} else before;
    }
  }

  /** Counting in a part is counting the rows that are in the part and have the property. */
  lemma {:induction false} CountInPart<T>(rows: seq<T>, part: T -> bool, p: T -> bool, both: T -> bool)
    requires forall i :: 0 <= i < |rows| ==> (both(rows[i]) <==> part(rows[i]) && p(rows[i]))
    ensures CountWhere(Filter(rows, part), p) == CountWhere(rows, both)
  {
    if rows != [] {
      var n := |rows| - 1;
      CountInPart(rows[..n], part, p, both);
      var kept := Filter(rows[..n], part);
      if part(rows[n]) {
        assert (kept + [rows[n]])[..|kept|] == kept;
      } else {
        assert kept + [] == kept;
      }
    }
  }

  lemma {:induction false} CountInGroup<K(!new)>(visits: seq<Visit>, key: Visit -> K, k: K, p: Visit -> bool,
                                                     at: set<nat>)
    requires forall i: nat {:trigger visits[i]} :: i < |visits| ==> (i in at <==> key(visits[i]) == k && p(visits[i]))
    requires forall i :: i in at ==> i < |visits|
    ensures CountWhere(VisitsOf(visits, key, k), p) == |at|
  {
    var both := (v: Visit) => key(v) == k && p(v);
    CountInPart(visits, Keyed(key, k), p, both);
    CountIsSize(visits, both, at);
  }

  lemma {:induction false} GroupSize<K(!new)>(visits: seq<Visit>, key: Visit -> K, k: K, at: set<nat>)
    requires forall i: nat {:trigger visits[i]} :: i < |visits| ==> (i in at <==> key(visits[i]) == k)
    requires forall i :: i in at ==> i < |visits|
    ensures |VisitsOf(visits, key, k)| == |at|
  {
    FilterCounts(visits, Keyed(key, k));
    CountIsSize(visits, Keyed(key, k), at);
  }

  lemma {:induction false} AddressesOfGroup<K(!new)>(visits: seq<Visit>, key: Visit -> K, k: K, a: Id)
    ensures a in AddressesOf(VisitsOf(visits, key, k))
       <==> exists i :: 0 <= i < |visits| && key(visits[i]) == k && visits[i].address == a
  {
    AddressIsMet(VisitsOf(visits, key, k), a);
    forall v: Visit ensures v in VisitsOf(visits, key, k) <==> v in visits && key(v) == k {
      FilterKeeps(visits, Keyed(key, k), v);
    }
    if i :| 0 <= i < |visits| && key(visits[i]) == k && visits[i].address == a {
      assert visits[i] in VisitsOf(visits, key, k);
    }
  }

  lemma {:induction false} AddressIsMet(visits: seq<Visit>, a: Id)
    ensures a in AddressesOf(visits) <==> exists v :: v in visits && v.address == a
  {
    if visits != [] {
      var n := |visits| - 1;
      AddressIsMet(visits[..n], a);
      assert visits == visits[..n] + [visits[n]];
    }
  }

  // ---------------------------------------------------------------- the overview

  /** The counter of a GPS status is the number of visits with it. */
  lemma {:induction false} GpsMeans(o: Overview, visits: seq<Visit>, status: GpsStatus)
    requires Counted(o, visits)
    ensures (match status
             case Verified => o.gps.verified
             case Flagged => o.gps.flagged
             case Missing => o.gps.missing
             case LowAccuracy => o.gps.lowAccuracy) == |set i: nat | i < |visits| && visits[i].gps == status|
  {
    CountIsSize(visits, ByGps(status), set i: nat | i < |visits| && visits[i].gps == status);
  }

  /** So is that of a sync status. */
  lemma {:induction false} SyncMeans(o: Overview, visits: seq<Visit>, status: SyncStatus)
    requires Counted(o, visits)
    ensures (match status
             case Pending => o.sync.pending
             case Syncing => o.sync.syncing
             case Synced => o.sync.synced
             case Failed => o.sync.failed
             case Conflict => o.sync.conflicts) == |set i: nat | i < |visits| && visits[i].sync == status|
  {
    CountIsSize(visits, BySync(status), set i: nat | i < |visits| && visits[i].sync == status);
  }

  /** And so are the others; the addresses are those of the visits. */
  lemma {:induction false} CountsMean(o: Overview, visits: seq<Visit>, a: Id)
    requires Counted(o, visits)
    ensures a in o.counts.addresses <==> exists v :: v in visits && v.address == a
    ensures o.counts.contacts == |set i: nat | i < |visits| && visits[i].contactMade|
    ensures o.counts.overrides == |set i: nat | i < |visits| && visits[i].overridden|
    ensures o.counts.revisits == |set i: nat | i < |visits| && visits[i].revisit|
  {
    CountIsSize(visits, IsContact(), set i: nat | i < |visits| && visits[i].contactMade);
    CountIsSize(visits, IsOverridden(), set i: nat | i < |visits| && visits[i].overridden);
    CountIsSize(visits, IsRevisit(), set i: nat | i < |visits| && visits[i].revisit);
    AddressIsMet(visits, a);
  }

  lemma {:induction false} DispositionsMean(o: Overview, visits: seq<Visit>)
    requires Counted(o, visits)
    ensures o.counts.final == |set i: nat | i < |visits| && visits[i].final|
    ensures o.counts.attempts == |set i: nat | i < |visits| && !visits[i].final|
  {
    CountIsSize(visits, IsFinal(), set i: nat | i < |visits| && visits[i].final);
    CountIsSize(visits, IsAttempt(), set i: nat | i < |visits| && !visits[i].final);
  }

  /** The preview has the canvassers with a visit, and counts the visits and contacts and has the addresses of each. */
  lemma {:induction false} PreviewMeans(t: Table<Id, Bucket>, visits: seq<Visit>, c: Id, a: Id)
    requires Grouped(t, visits, CanvasserOf(), BucketSummary())
    ensures var n := |set i: nat | i < |visits| && visits[i].canvasser == c|;
            && (c in t.at <==> n > 0)
            && (n > 0 ==>
                  && t.at[c].visits == n
                  && t.at[c].contacts
                     == |set i: nat | i < |visits| && visits[i].canvasser == c && visits[i].contactMade|
                  && (a in t.at[c].addresses <==>
                        exists i :: 0 <= i < |visits| && visits[i].canvasser == c && visits[i].address == a))
  {
    assert EntryIsSummary(t, visits, CanvasserOf(), BucketSummary(), c);
    GroupSize(visits, CanvasserOf(), c, set i: nat | i < |visits| && visits[i].canvasser == c);
    CountInGroup(visits, CanvasserOf(), c, IsContact(),
                 set i: nat | i < |visits| && visits[i].canvasser == c && visits[i].contactMade);
    AddressesOfGroup(visits, CanvasserOf(), c, a);
  }

  // ---------------------------------------------------------------- trends

  /** A day has an entry exactly if it has a visit, and the entry counts the visits and contacts of that day and has the
      addresses visited on it. */
  lemma {:induction false} DayMeans(t: Trends, visits: seq<Visit>, day: string, a: Id)
    requires DaysCounted(t, visits)
    ensures var n := |set i: nat | i < |visits| && visits[i].day == day|;
            && (day in t.byDay.at <==> n > 0)
            && (n > 0 ==>
                  && t.byDay.at[day].visits == n
                  && t.byDay.at[day].contacts
                     == |set i: nat | i < |visits| && visits[i].day == day && visits[i].contactMade|
                  && (a in t.byDay.at[day].addresses <==>
                        exists i :: 0 <= i < |visits| && visits[i].day == day && visits[i].address == a))
  {
    assert EntryIsSummary(t.byDay, visits, DayOf(), BucketSummary(), day);
    GroupSize(visits, DayOf(), day, set i: nat | i < |visits| && visits[i].day == day);
    CountInGroup(visits, DayOf(), day, IsContact(),
                 set i: nat | i < |visits| && visits[i].day == day && visits[i].contactMade);
    AddressesOfGroup(visits, DayOf(), day, a);
  }

  /** The other tables count the visits with an outcome, at a time of day, and on a day of the week. */
  lemma {:induction false} TotalsMean(t: Trends, visits: seq<Visit>, k: string)
    requires TotalsCounted(t, visits)
    ensures t.byOutcome.Get(k, 0) == |set i: nat | i < |visits| && visits[i].outcome == k|
    ensures t.byTimeOfDay.Get(k, 0) == |set i: nat | i < |visits| && visits[i].timeOfDay == k|
    ensures t.byDayOfWeek.Get(k, 0) == |set i: nat | i < |visits| && visits[i].dayOfWeek == k|
  {
    assert EntryIsSummary(t.byOutcome, visits, OutcomeOf(), Total(), k);
    assert EntryIsSummary(t.byTimeOfDay, visits, TimeOfDayOf(), Total(), k);
    assert EntryIsSummary(t.byDayOfWeek, visits, DayOfWeekOf(), Total(), k);
    GroupSize(visits, OutcomeOf(), k, set i: nat | i < |visits| && visits[i].outcome == k);
    GroupSize(visits, TimeOfDayOf(), k, set i: nat | i < |visits| && visits[i].timeOfDay == k);
    GroupSize(visits, DayOfWeekOf(), k, set i: nat | i < |visits| && visits[i].dayOfWeek == k);
  }

  // ---------------------------------------------------------------- productivity

  /** A canvasser has a row exactly with a visit; it counts the visits, and the minutes of the canvasser's sessions. */
  lemma {:induction false} RowMeans(t: Table<Id, Row>, visits: seq<Visit>, sessions: seq<Session>, range: Range, now: int,
                                    c: Id)
    requires RowsAreRight(t, visits, sessions, range, now)
    ensures var n := |set i: nat | i < |visits| && visits[i].canvasser == c|;
            && (c in t.at <==> n > 0)
            && (n > 0 ==>
                  && t.at[c].visits == n
                  && t.at[c].minutes == MinutesOf(Filter(sessions, (s: Session) => s.canvasser == c), range, now))
  {
    RowIsOfVisits(t, visits, sessions, range, now, c);
    GroupSize(visits, CanvasserOf(), c, set i: nat | i < |visits| && visits[i].canvasser == c);
    FilterAlike(sessions, BySession(c), (s: Session) => s.canvasser == c);
  }

  lemma {:induction false} RowIsOfVisits(t: Table<Id, Row>, visits: seq<Visit>, sessions: seq<Session>, range: Range,
                                         now: int, c: Id)
    requires RowsAreRight(t, visits, sessions, range, now)
    ensures var vs := VisitsOf(visits, CanvasserOf(), c);
            && (c in t.at <==> vs != [])
            && (c in t.at ==>
                  t.at[c] == RowSummary()(vs).(sessions := t.at[c].sessions,
                                               minutes := MinutesOf(Filter(sessions, BySession(c)), range, now)))
  {
    assert RowIsRight(t, visits, sessions, range, now, c);
    WorkedAddsMinutes(RowSummary()(VisitsOf(visits, CanvasserOf(), c)), Filter(sessions, BySession(c)), range, now);
  }

  /** Of the visits it counts those of a kind. */
  lemma {:induction false} RowCountsKinds(t: Table<Id, Row>, visits: seq<Visit>, sessions: seq<Session>, range: Range,
                                          now: int, c: Id)
    requires RowsAreRight(t, visits, sessions, range, now) && c in t.at
    ensures t.at[c].contacts == |set i: nat | i < |visits| && visits[i].canvasser == c && visits[i].contactMade|
    ensures t.at[c].final == |set i: nat | i < |visits| && visits[i].canvasser == c && visits[i].final|
    ensures t.at[c].revisits == |set i: nat | i < |visits| && visits[i].canvasser == c && visits[i].revisit|
  {
    RowIsOfVisits(t, visits, sessions, range, now, c);
    CountInGroup(visits, CanvasserOf(), c, IsContact(),
                 set i: nat | i < |visits| && visits[i].canvasser == c && visits[i].contactMade);
    CountInGroup(visits, CanvasserOf(), c, IsFinal(),
                 set i: nat | i < |visits| && visits[i].canvasser == c && visits[i].final);
    CountInGroup(visits, CanvasserOf(), c, IsRevisit(),
                 set i: nat | i < |visits| && visits[i].canvasser == c && visits[i].revisit);
  }

  lemma {:induction false} RowCountsGps(t: Table<Id, Row>, visits: seq<Visit>, sessions: seq<Session>, range: Range,
                                        now: int, c: Id, status: GpsStatus)
    requires RowsAreRight(t, visits, sessions, range, now) && c in t.at && status in {Verified, Flagged}
    ensures (if status == Verified then t.at[c].verified else t.at[c].flagged)
         == |set i: nat | i < |visits| && visits[i].canvasser == c && visits[i].gps == status|
  {
    RowIsOfVisits(t, visits, sessions, range, now, c);
    CountInGroup(visits, CanvasserOf(), c, ByGps(status),
                 set i: nat | i < |visits| && visits[i].canvasser == c && visits[i].gps == status);
  }

  lemma {:induction false} FilterAlike<T>(rows: seq<T>, p: T -> bool, q: T -> bool)
    requires forall i :: 0 <= i < |rows| ==> p(rows[i]) == q(rows[i])
    ensures Filter(rows, p) == Filter(rows, q)
  {
    if rows != [] {
      FilterAlike(rows[..|rows| - 1], p, q);
    }
  }

  /** It has the addresses of those visits, and the sessions that they or the canvasser's own sessions name. */
  lemma {:induction false} RowNames(t: Table<Id, Row>, visits: seq<Visit>, sessions: seq<Session>, range: Range, now: int,
                                    c: Id, x: Id)
    requires RowsAreRight(t, visits, sessions, range, now) && c in t.at
    ensures x in t.at[c].addresses <==>
              exists i :: 0 <= i < |visits| && visits[i].canvasser == c && visits[i].address == x
    ensures x in t.at[c].sessions <==>
              || (exists i :: 0 <= i < |visits| && visits[i].canvasser == c && visits[i].session == Some(x))
              || (exists j :: 0 <= j < |sessions| && sessions[j].canvasser == c && sessions[j].id == x)
  {
    assert RowIsRight(t, visits, sessions, range, now, c);
    var vs, mine := VisitsOf(visits, CanvasserOf(), c), Filter(sessions, BySession(c));
    WorkedAddsMinutes(RowSummary()(vs), mine, range, now);
    AddressesOfGroup(visits, CanvasserOf(), c, x);
    WorkedNamesSessions(RowSummary()(vs), mine, range, now, x);
    SessionIsMet(vs, x);
    forall v: Visit ensures v in vs <==> v in visits && v.canvasser == c {
      FilterKeeps(visits, Keyed(CanvasserOf(), c), v);
    }
    forall s: Session ensures s in mine <==> s in sessions && s.canvasser == c {
      FilterKeeps(sessions, BySession(c), s);
    }
    if i :| 0 <= i < |visits| && visits[i].canvasser == c && visits[i].session == Some(x) {
      assert visits[i] in vs;
    }
    if j :| 0 <= j < |sessions| && sessions[j].canvasser == c && sessions[j].id == x {
      assert sessions[j] in mine;
    }
  }

  lemma {:induction false} SessionIsMet(visits: seq<Visit>, x: Id)
    ensures x in SessionsOf(visits) <==> exists v :: v in visits && v.session == Some(x)
  {
    if visits != [] {
      var n := |visits| - 1;
      SessionIsMet(visits[..n], x);
      assert visits == visits[..n] + [visits[n]];
    }
  }

  lemma {:induction false} WorkedNamesSessions(r: Row, sessions: seq<Session>, range: Range, now: int, x: Id)
    ensures x in Worked(r, sessions, range, now).sessions <==> x in r.sessions || exists s :: s in sessions && s.id == x
  {
    if sessions != [] {
      var n := |sessions| - 1;
      WorkedNamesSessions(r, sessions[..n], range, now, x);
      assert sessions == sessions[..n] + [sessions[n]];
    }
  }
}
