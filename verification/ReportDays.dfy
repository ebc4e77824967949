/** The days of the reports: local times of a zone turned into instants, and reports day by day. A calendar day is its
    number since the epoch, and a zone is given by its offset at every instant. All times are milliseconds. */
module ReportDays {
  import opened Common
  import opened Reports

  const DAY := 86_400_000

  type Zone = int -> int

  // ---------------------------------------------------------------- local times

  /** At this instant clocks of the zone show the local time. */
  predicate Shows(zone: Zone, instant: int, local: int) {
    instant + zone(instant) == local
  }

  /** Corrects a candidate by the offset there, until it stays or the rounds are used up. */
  function Settle(zone: Zone, local: int, candidate: int, rounds: nat): int
    decreases rounds
  {
    if rounds == 0 then candidate
    else
      var next := local - zone(candidate);
      if next == candidate then candidate else Settle(zone, local, next, rounds - 1)
  }

  function ToInstant(zone: Zone, local: int): int {
    Settle(zone, local, local, 3)
  }

  method ZonedDateTimeToUtc(local: int, zone: Zone) returns (r: int)
    ensures r == ToInstant(zone, local)
  {
    r := local;
    for i := 0 to 3
      invariant Settle(zone, local, r, 3 - i) == ToInstant(zone, local)
    {
      var next := local - zone(r);
      if next == r {
        return;
      }
      r := next;
    }
  }

  /** Around the local time the zone has no offsets but these two. */
  predicate HasOffsets(zone: Zone, local: int, a: int, b: int) {
    && (zone(local) == a || zone(local) == b)
    && (zone(local - a) == a || zone(local - a) == b)
    && (zone(local - b) == a || zone(local - b) == b)
  }

  /** Where clocks change at most once, three rounds are enough: the instant found shows the local time exactly if any
      instant does. Only a local time that the change skips is missed, and by no more than the change. */
  lemma {:induction false} FindsLocalTime(zone: Zone, local: int, a: int, b: int)
    requires HasOffsets(zone, local, a, b)
    ensures var r := ToInstant(zone, local);
            && (Shows(zone, r, local) <==> Shows(zone, local - a, local) || Shows(zone, local - b, local))
            && (!Shows(zone, r, local) ==> r + zone(r) == local + (a - b) || r + zone(r) == local + (b - a))
  {
    var first := local - zone(local);
    var second := local - zone(first);
    assert Settle(zone, local, local, 3) == if first == local then local else Settle(zone, local, first, 2);
    assert Settle(zone, local, first, 2) == if second == first then first else Settle(zone, local, second, 1);
    assert Settle(zone, local, second, 1) == local - zone(second);
  }

  // ---------------------------------------------------------------- days

  function StartOf(zone: Zone, day: int): int {
    ToInstant(zone, day * DAY)
  }

  function EndOf(zone: Zone, day: int): int {
    ToInstant(zone, day * DAY + DAY - 1)
  }

  /** A day ends one millisecond before the next one starts, if and only if the clocks do not change there. */
  lemma {:induction false} DaysMeet(zone: Zone, day: int)
    requires Shows(zone, EndOf(zone, day), day * DAY + DAY - 1) && Shows(zone, StartOf(zone, day + 1), (day + 1) * DAY)
    ensures EndOf(zone, day) + 1 == StartOf(zone, day + 1) <==>
              zone(EndOf(zone, day)) == zone(StartOf(zone, day + 1))
  {
  }

  /** The first and the last instant of each day. */
  datatype Days = Days(start: int -> int, end: int -> int)

  function DaysIn(zone: Zone): Days {
    Days(day => StartOf(zone, day), day => EndOf(zone, day))
  }

  function DayRange(days: Days, first: int, last: int): Range {
    Range(Some(days.start(first)), Some(days.end(last)))
  }

  /** The days follow one another without a gap or an overlap. */
  ghost predicate Regular(days: Days, first: int, count: nat) {
    forall d :: first <= d < first + count ==> days.start(d) < days.end(d) && days.end(d) + 1 == days.start(d + 1)
  }

  /** Where clocks never change, in UTC above all, a day lasts from midnight to the last millisecond of twenty-four hours,
      by the clocks of the zone. */
  lemma {:induction false} FixedZoneDay(zone: Zone, offset: int, day: int)
    requires forall t :: zone(t) == offset
    ensures DaysIn(zone).start(day) + offset == day * 86_400_000
    ensures DaysIn(zone).end(day) == DaysIn(zone).start(day) + 86_399_999
  {
    FindsLocalTime(zone, day * DAY, offset, offset);
    FindsLocalTime(zone, day * DAY + DAY - 1, offset, offset);
  }

  /** So days follow one another there. */
  lemma {:induction false} FixedZoneIsRegular(zone: Zone, offset: int, first: int, count: nat)
    requires forall t :: zone(t) == offset
    ensures Regular(DaysIn(zone), first, count)
  {
    forall d | first <= d < first + count
      ensures StartOf(zone, d) < EndOf(zone, d) && EndOf(zone, d) + 1 == StartOf(zone, d + 1)
    {
      FindsLocalTime(zone, d * DAY, offset, offset);
      FindsLocalTime(zone, d * DAY + DAY - 1, offset, offset);
      FindsLocalTime(zone, (d + 1) * DAY, offset, offset);
    }
  }

  /** The minutes of a report for each day, added up. */
  function DailyMinutes(sessions: seq<Session>, days: Days, first: int, count: nat, now: int): real {
    if count == 0 then 0.0
    else
      var last := first + count - 1;
      DailyMinutes(sessions, days, first, count - 1, now) + MinutesOf(sessions, DayRange(days, last, last), now)
  }

  /** How often a session runs through the end of a day that another one follows. */
  function Midnights(sessions: seq<Session>, days: Days, first: int, count: nat, now: int): nat {
    if count <= 1 then 0
    else
      Midnights(sessions, days, first, count - 1, now)
      + CountWhere(sessions, Spans(days.end(first + count - 2), now))
  }

  lemma {:induction false} DaysAreOrdered(days: Days, first: int, count: nat)
    requires Regular(days, first, count) && count > 0
    ensures days.start(first) < days.end(first + count - 1)
  {
    if count > 1 {
      DaysAreOrdered(days, first, count - 1);
    }
  }

  /** Reports day by day add up to the report of the whole range, less one millisecond for every midnight in between
      and every session that runs through it. */
  lemma {:induction false} DailyReportsAddUp(sessions: seq<Session>, days: Days, first: int, count: nat, now: int)
    requires Regular(days, first, count) && count > 0
    ensures DailyMinutes(sessions, days, first, count, now)
         == MinutesOf(sessions, DayRange(days, first, first + count - 1), now)
            - Midnights(sessions, days, first, count, now) as real / MS_PER_MINUTE
  {
    if count == 1 {
      assert DailyMinutes(sessions, days, first, 0, now) == 0.0;
    } else {
      DailyReportsAddUp(sessions, days, first, count - 1, now);
      LastDaySplits(sessions, days, first, count, now);
      MinutesAdd(Midnights(sessions, days, first, count - 1, now),
                 CountWhere(sessions, Spans(days.end(first + count - 2), now)));
    }
  }

  lemma MinutesAdd(a: nat, b: nat)
    ensures (a + b) as real / MS_PER_MINUTE == a as real / MS_PER_MINUTE + b as real / MS_PER_MINUTE
  {
  }

  lemma {:induction false} LastDaySplits(sessions: seq<Session>, days: Days, first: int, count: nat, now: int)
    requires Regular(days, first, count) && count > 1
    ensures var last := first + count - 1;
            MinutesOf(sessions, DayRange(days, first, last - 1), now) + MinutesOf(sessions, DayRange(days, last, last), now)
            == MinutesOf(sessions, DayRange(days, first, last), now)
               - CountWhere(sessions, Spans(days.end(last - 1), now)) as real / MS_PER_MINUTE
  {
    var last := first + count - 1;
    DaysAreOrdered(days, first, count - 1);
    assert days.end(last - 1) + 1 == days.start(last) < days.end(last);
    MinutesSplitAtMidnight(sessions, DayRange(days, first, last), days.end(last - 1), now);
  }
}
