/** The fixed-window limiter that both the sign-in and the recovery service keep in memory. */
module RateLimit {
  import opened Common

  datatype Window = Window(count: nat, resetAt: int)

  datatype Limits = Limits(max: nat, length: int)

  /** A window lets at least one attempt in and lasts some time. */
  predicate Sensible(limits: Limits) {
    limits.max >= 1 && limits.length >= 1
  }

  /** The recovery limiter as configured: attempts per window, and the window in minutes. */
  function RecoveryLimits(maxAttempts: Option<int>, windowMinutes: Option<int>): (limits: Limits)
    ensures 1 <= limits.max <= 20 && 60_000 <= limits.length <= 86_400_000
    ensures maxAttempts.None? ==> limits.max == 5
    ensures maxAttempts.Some? && 1 <= maxAttempts.value <= 20 ==> limits.max == maxAttempts.value
    ensures windowMinutes.None? ==> limits.length == 3_600_000
    ensures windowMinutes.Some? && 1 <= windowMinutes.value <= 1440 ==> limits.length == 60_000 * windowMinutes.value
  {
    Limits(ClampedInteger(maxAttempts, 5, 1, 20), ClampedInteger(windowMinutes, 60, 1, 1440) * 60_000)
  }

  predicate Expired(w: Option<Window>, now: int) {
    w.None? || w.value.resetAt <= now
  }

  predicate Admits(w: Option<Window>, now: int, limits: Limits) {
    Expired(w, now) || w.value.count < limits.max
  }

  /** The window after an attempt, admitted or not. */
  function Attempted(w: Option<Window>, now: int, limits: Limits): Window {
    if Expired(w, now) then Window(1, now + limits.length)
    else if w.value.count >= limits.max then w.value
    else Window(w.value.count + 1, w.value.resetAt)
  }

  function Lookup<K>(windows: map<K, Window>, key: K): Option<Window> {
    if key in windows then Some(windows[key]) else None
  }

  class RateLimiter<K(==)> {
    var windows: map<K, Window>
    const limits: Limits

    constructor (limits: Limits)
      ensures windows == map[] && this.limits == limits
    {
      windows := map[];
      this.limits := limits;
    }

    method Attempt(key: K, now: int) returns (admitted: bool)
      modifies this
      ensures admitted <==> Admits(Lookup(old(windows), key), now, limits)
      ensures windows == old(windows)[key := Attempted(Lookup(old(windows), key), now, limits)]
    {
      if key !in windows || windows[key].resetAt <= now {
        windows := windows[key := Window(1, now + limits.length)];
        return true;
      }
      var current := windows[key];
      if current.count >= limits.max {
        return false;
      }
      windows := windows[key := Window(current.count + 1, current.resetAt)];
      return true;
    }

    method Clear(key: K)
      modifies this
      ensures windows == old(windows) - {key}
    {
      windows := windows - {key};
    }
  }

  // ---------------------------------------------------------------- the attempts on one key

  /** An admitted attempt, and when the window that admitted it was opened. */
  datatype Entry = Entry(at: int, since: int)

  predicate Nondecreasing(times: seq<int>) {
    forall i, j :: 0 <= i < j < |times| ==> times[i] <= times[j]
  }

  /** The key's window after attempts at these times. */
  function After(times: seq<int>, limits: Limits): Option<Window> {
    if times == [] then None
    else Some(Attempted(After(times[..|times| - 1], limits), times[|times| - 1], limits))
  }

  /** The log after one more attempt; refused attempts leave no entry. */
  function Extended(log: seq<Entry>, w: Option<Window>, now: int, limits: Limits): seq<Entry> {
    if Admits(w, now, limits) then log + [Entry(now, Attempted(w, now, limits).resetAt - limits.length)] else log
  }

  /** The attempts that were admitted. */
  function Log(times: seq<int>, limits: Limits): seq<Entry> {
    if times == [] then []
    else
      var before := times[..|times| - 1];
      Extended(Log(before, limits), After(before, limits), times[|times| - 1], limits)
  }

  function Since(since: int): Entry -> bool {
    (e: Entry) => e.since == since
  }

  /** Entries lie in their windows, and different windows do not overlap. */
  ghost predicate Windowed(log: seq<Entry>, length: int) {
    && (forall i {:trigger log[i]} :: 0 <= i < |log| ==> log[i].since <= log[i].at < log[i].since + length)
    && (forall i, j {:trigger log[i], log[j]} :: 0 <= i < |log| && 0 <= j < |log| && log[i].since < log[j].since ==>
          log[i].since + length <= log[j].since)
  }

  /** The current window is the latest one, and its count is the number of attempts it admitted. */
  ghost predicate Tracks(w: Option<Window>, log: seq<Entry>, limits: Limits) {
    match w
    case None => log == []
    case Some(window) =>
      && 1 <= window.count <= limits.max
      && CountWhere(log, Since(window.resetAt - limits.length)) == window.count
      && (forall i {:trigger log[i]} :: 0 <= i < |log| ==>
            log[i].since == window.resetAt - limits.length || log[i].since + limits.length <= window.resetAt - limits.length)
  }

  lemma CountAppend<T>(rows: seq<T>, x: T, p: T -> bool)
    ensures CountWhere(rows + [x], p) == CountWhere(rows, p) + if p(x) then 1 else 0
  {
    assert (rows + [x])[..|rows|] == rows;
  }

  ghost predicate NoWindowOverfull(log: seq<Entry>, limits: Limits) {
    forall since {:trigger Since(since)} :: CountWhere(log, Since(since)) <= limits.max
  }

  lemma StepTracks(log: seq<Entry>, w: Option<Window>, now: int, limits: Limits)
    requires Sensible(limits) && Tracks(w, log, limits) && (w.Some? ==> w.value.resetAt - limits.length <= now)
    ensures Tracks(Some(Attempted(w, now, limits)), Extended(log, w, now, limits), limits)
  {
    var start := Attempted(w, now, limits).resetAt - limits.length;
    if Expired(w, now) {
      assert CountWhere(log, Since(start)) == 0;
    }
    CountAppend(log, Entry(now, start), Since(start));
  }

  lemma StepStaysWindowed(log: seq<Entry>, w: Option<Window>, now: int, limits: Limits)
    requires Sensible(limits) && Tracks(w, log, limits) && (w.Some? ==> w.value.resetAt - limits.length <= now)
    requires Windowed(log, limits.length)
    ensures Windowed(Extended(log, w, now, limits), limits.length)
  {
  }

  lemma StepNotOverfull(log: seq<Entry>, w: Option<Window>, now: int, limits: Limits)
    requires Sensible(limits) && Tracks(w, log, limits) && (w.Some? ==> w.value.resetAt - limits.length <= now)
    requires NoWindowOverfull(log, limits)
    ensures NoWindowOverfull(Extended(log, w, now, limits), limits)
  {
    StepTracks(log, w, now, limits);
    var start := Attempted(w, now, limits).resetAt - limits.length;
    forall since ensures CountWhere(Extended(log, w, now, limits), Since(since)) <= limits.max {
      CountAppend(log, Entry(now, start), Since(since));
      assert CountWhere(log, Since(since)) <= limits.max;
    }
  }

  lemma {:induction false} LogIsWindowed(times: seq<int>, limits: Limits)
    requires Sensible(limits) && Nondecreasing(times)
    ensures Tracks(After(times, limits), Log(times, limits), limits)
    ensures Windowed(Log(times, limits), limits.length) && NoWindowOverfull(Log(times, limits), limits)
    ensures times != [] ==> After(times, limits).value.resetAt - limits.length <= times[|times| - 1]
  {
    if times == [] {
      assert forall since :: CountWhere([], Since(since)) == 0;
    } else {
      var before, now := times[..|times| - 1], times[|times| - 1];
      LogIsWindowed(before, limits);
      StepTracks(Log(before, limits), After(before, limits), now, limits);
      StepStaysWindowed(Log(before, limits), After(before, limits), now, limits);
      StepNotOverfull(Log(before, limits), After(before, limits), now, limits);
    }
  }

  /** With fixed limits and no clearing, a window admits at most `max` attempts. */
  lemma AtMostMaxPerWindow(times: seq<int>, limits: Limits, since: int)
    requires Sensible(limits) && Nondecreasing(times)
    ensures CountWhere(Log(times, limits), Since(since)) <= limits.max
  {
    LogIsWindowed(times, limits);
  }

  ghost predicate Full(log: seq<Entry>, since: int, now: int, limits: Limits) {
    since <= now < since + limits.length && CountWhere(log, Since(since)) == limits.max
  }

  /** A window that is full and open now is the current one. */
  lemma FullIsCurrent(log: seq<Entry>, w: Option<Window>, since: int, now: int, limits: Limits)
    requires Sensible(limits) && Tracks(w, log, limits) && (w.Some? ==> w.value.resetAt - limits.length <= now)
    requires Full(log, since, now, limits)
    ensures w.Some? && since == w.value.resetAt - limits.length
  {
    var i := FindFirst(log, Since(since));
    assert i.Some?;
    assert log[i.value].since == since;
  }

  /** An attempt is refused, and otherwise admitted, exactly when a window that is open at the time has admitted as many
      as it may: the first `max` attempts of a window are always let in. */
  lemma {:induction false} RefusedOnlyWhenFull(times: seq<int>, now: int, limits: Limits)
    requires Sensible(limits) && Nondecreasing(times) && (times != [] ==> times[|times| - 1] <= now)
    ensures var log, log' := Log(times, limits), Log(times + [now], limits);
            if exists since :: Full(log, since, now, limits) then log' == log
            else |log'| == |log| + 1 && log'[..|log|] == log && log'[|log|].at == now
  {
    assert (times + [now])[..|times|] == times;
    LogIsWindowed(times, limits);
    var log, w := Log(times, limits), After(times, limits);
    if since :| Full(log, since, now, limits) {
      FullIsCurrent(log, w, since, now, limits);
      assert !Admits(w, now, limits);
    } else if w.Some? {
      assert !Full(log, w.value.resetAt - limits.length, now, limits);
      assert Admits(w, now, limits);
    }
  }

  lemma {:induction false} CountCovered<T>(rows: seq<T>, p: T -> bool, q: T -> bool, r: T -> bool)
    requires forall i {:trigger rows[i]} :: 0 <= i < |rows| && p(rows[i]) ==> q(rows[i]) || r(rows[i])
    ensures CountWhere(rows, p) <= CountWhere(rows, q) + CountWhere(rows, r)
  {
    if rows != [] {
      CountCovered(rows[..|rows| - 1], p, q, r);
    }
  }

  /** Any half-open interval as long as a window meets at most two windows, and so sees at most twice `max`
      admitted attempts. */
  lemma AtMostTwiceMaxPerInterval(times: seq<int>, limits: Limits, start: int, p: Entry -> bool)
    requires Sensible(limits) && Nondecreasing(times)
    requires forall e :: p(e) ==> start <= e.at < start + limits.length
    ensures CountWhere(Log(times, limits), p) <= 2 * limits.max
  {
    var log := Log(times, limits);
    LogIsWindowed(times, limits);
    match FindFirst(log, p)
    case None =>
      assert CountWhere(log, p) == 0;
    case Some(i) =>
      var others := (e: Entry) => p(e) && e.since != log[i].since;
      var second := match FindFirst(log, others) case Some(j) => log[j].since case None => log[i].since;
      CountCovered(log, p, Since(log[i].since), Since(second));
  }

  // ---------------------------------------------------------------- many keys

  datatype Knock<K> = Knock(key: K, at: int)

  function AfterAll<K>(attempts: seq<Knock<K>>, limits: Limits): map<K, Window> {
    if attempts == [] then map[]
    else
      var before := AfterAll(attempts[..|attempts| - 1], limits);
      var last := attempts[|attempts| - 1];
      before[last.key := Attempted(Lookup(before, last.key), last.at, limits)]
  }

  function TimesOf<K(==)>(attempts: seq<Knock<K>>, key: K): seq<int> {
    if attempts == [] then []
    else
      var last := attempts[|attempts| - 1];
      TimesOf(attempts[..|attempts| - 1], key) + if last.key == key then [last.at] else []
  }

  /** What happens on one key depends on the attempts on that key alone. */
  lemma {:induction false} KeysAreIndependent<K>(attempts: seq<Knock<K>>, key: K, limits: Limits)
    ensures Lookup(AfterAll(attempts, limits), key) == After(TimesOf(attempts, key), limits)
  {
    if attempts != [] {
      KeysAreIndependent(attempts[..|attempts| - 1], key, limits);
      var before := TimesOf(attempts[..|attempts| - 1], key);
      if attempts[|attempts| - 1].key == key {
        assert (before + [attempts[|attempts| - 1].at])[..|before|] == before;
      } else {
        assert before + [] == before;
      }
    }
  }
}
