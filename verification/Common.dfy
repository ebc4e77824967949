/** Vocabulary shared by the models: optional values, results, and the table operations
    that the services ask of their database. */
module Common {

  /** A database key. Keys of append-only tables are row positions. */
  type Id = nat

  datatype Option<+T> = None | Some(value: T)

  datatype Result<+T, +E> = Ok(value: T) | Err(error: E)

  /** A configured integer: clamped when it is one, the fallback otherwise. */
  function ClampedInteger(parsed: Option<int>, fallback: int, low: int, high: int): (n: int)
    requires low <= fallback <= high
    ensures low <= n <= high
    ensures parsed.None? ==> n == fallback
    ensures parsed.Some? ==> (n < parsed.value ==> n == high) && (n > parsed.value ==> n == low)
  {
    if parsed.None? then fallback
    else if parsed.value < low then low
    else if parsed.value > high then high
    else parsed.value
  }

  /** Position of the first row that satisfies p (`findFirst`). */
  function FindFirst<T>(rows: seq<T>, p: T -> bool): (r: Option<nat>)
    ensures r.Some? ==> r.value < |rows| && p(rows[r.value]) && forall i :: 0 <= i < r.value ==> !p(rows[i])
    ensures r.None? ==> forall i :: 0 <= i < |rows| ==> !p(rows[i])
  {
    if rows == [] then None
    else
      match FindFirst(rows[..|rows| - 1], p)
      case Some(i) => Some(i)
      case None => if p(rows[|rows| - 1]) then Some(|rows| - 1) else None
  }

  /** Every row that satisfies p rewritten by f (`updateMany`). */
  function UpdateWhere<T>(rows: seq<T>, p: T -> bool, f: T -> T): (r: seq<T>)
    ensures |r| == |rows|
    ensures forall i :: 0 <= i < |rows| ==> r[i] == if p(rows[i]) then f(rows[i]) else rows[i]
  {
    seq(|rows|, i requires 0 <= i < |rows| => if p(rows[i]) then f(rows[i]) else rows[i])
  }

  /** Number of rows that satisfy p (`count`). */
  function CountWhere<T>(rows: seq<T>, p: T -> bool): (n: nat)
    ensures n == 0 <==> forall i :: 0 <= i < |rows| ==> !p(rows[i])
  {
    if rows == [] then 0
    else CountWhere(rows[..|rows| - 1], p) + if p(rows[|rows| - 1]) then 1 else 0
  }

  /** Rows that satisfy p, in table order (`findMany`, or what `deleteMany` of the others leaves). */
  function Filter<T>(rows: seq<T>, p: T -> bool): seq<T> {
    if rows == [] then []
    else Filter(rows[..|rows| - 1], p) + if p(rows[|rows| - 1]) then [rows[|rows| - 1]] else []
  }

  /** The first rows that satisfy p, as many as asked for (`findMany` with `take`). */
  function FirstWhere<T>(rows: seq<T>, p: T -> bool, take: nat): seq<T> {
    if rows == [] then []
    else
      var first := FirstWhere(rows[..|rows| - 1], p, take);
      if |first| < take && p(rows[|rows| - 1]) then first + [rows[|rows| - 1]] else first
  }

  /** A found row stays the first one when rows are added; a row added where none was found is the one found. */
  lemma FindFirstAppend<T>(rows: seq<T>, more: seq<T>, p: T -> bool)
    ensures FindFirst(rows, p).Some? ==> FindFirst(rows + more, p) == FindFirst(rows, p)
    ensures FindFirst(rows, p).None? && more != [] && p(more[0]) ==> FindFirst(rows + more, p) == Some(|rows|)
  {
    var found := FindFirst(rows + more, p);
    assert forall i :: 0 <= i < |rows| ==> (rows + more)[i] == rows[i];
    if FindFirst(rows, p).Some? {
      assert p((rows + more)[FindFirst(rows, p).value]);
    } else if more != [] && p(more[0]) {
      assert p((rows + more)[|rows|]);
    }
  }

  /** Predicates that agree on the rows find the same row. */
  lemma FindFirstAgrees<T>(rows: seq<T>, p: T -> bool, q: T -> bool)
    requires forall i :: 0 <= i < |rows| ==> p(rows[i]) == q(rows[i])
    ensures FindFirst(rows, p) == FindFirst(rows, q)
  {
  }

  lemma TakeOneMore<T>(rows: seq<T>, i: nat)
    requires i < |rows|
    ensures rows[..i + 1] == rows[..i] + [rows[i]]
  {
  }

  /** If exactly one row satisfies p, the count is one. */
  lemma {:induction false} CountOfOne<T>(rows: seq<T>, p: T -> bool, k: nat)
    requires k < |rows| && p(rows[k])
    requires forall i :: 0 <= i < |rows| && p(rows[i]) ==> i == k
    ensures CountWhere(rows, p) == 1
  {
    if k < |rows| - 1 {
      CountOfOne(rows[..|rows| - 1], p, k);
    } else {
      assert CountWhere(rows[..|rows| - 1], p) == 0;
    }
  }

  lemma {:induction false} CountAfterUpdate<T>(rows: seq<T>, p: T -> bool, k: nat, x: T)
    requires k < |rows|
    ensures CountWhere(rows[k := x], p)
         == CountWhere(rows, p) + (if p(x) then 1 else 0) - (if p(rows[k]) then 1 else 0)
  {
    var rows' := rows[k := x];
    if k == |rows| - 1 {
      assert rows'[..k] == rows[..k];
    } else {
      CountAfterUpdate(rows[..|rows| - 1], p, k, x);
      assert rows'[..|rows| - 1] == rows[..|rows| - 1][k := x];
    }
  }

  /** Rewriting the rows of one kind out of a larger kind takes that many away from the larger one. */
  lemma {:induction false} CountAfterUpdateWhere<T>(rows: seq<T>, p: T -> bool, f: T -> T, all: T -> bool)
    requires forall i :: 0 <= i < |rows| && p(rows[i]) ==> all(rows[i]) && !all(f(rows[i]))
    ensures CountWhere(UpdateWhere(rows, p, f), all) == CountWhere(rows, all) - CountWhere(rows, p)
  {
    CountAfterChange(rows, UpdateWhere(rows, p, f), p, all);
  }

  lemma {:induction false} CountAfterChange<T>(rows: seq<T>, rows': seq<T>, p: T -> bool, all: T -> bool)
    requires |rows'| == |rows|
    requires forall i :: 0 <= i < |rows| ==> if p(rows[i]) then all(rows[i]) && !all(rows'[i]) else rows'[i] == rows[i]
    ensures CountWhere(rows', all) == CountWhere(rows, all) - CountWhere(rows, p)
  {
    if rows != [] {
      var n := |rows| - 1;
      assert forall i :: 0 <= i < n ==> rows[..n][i] == rows[i] && rows'[..n][i] == rows'[i];
      CountAfterChange(rows[..n], rows'[..n], p, all);
    }
  }

  /** Rows that a predicate does not tell apart are counted alike. */
  lemma {:induction false} CountsAlike<T>(rows: seq<T>, rows': seq<T>, p: T -> bool)
    requires |rows'| == |rows| && forall i :: 0 <= i < |rows| ==> p(rows'[i]) == p(rows[i])
    ensures CountWhere(rows', p) == CountWhere(rows, p)
  {
    if rows != [] {
      var n := |rows| - 1;
      assert forall i :: 0 <= i < n ==> rows[..n][i] == rows[i] && rows'[..n][i] == rows'[i];
      CountsAlike(rows[..n], rows'[..n], p);
    }
  }

  lemma {:induction false} FilterKeeps<T>(rows: seq<T>, p: T -> bool, x: T)
    ensures x in Filter(rows, p) <==> x in rows && p(x)
  {
    if rows != [] {
      FilterKeeps(rows[..|rows| - 1], p, x);
      assert rows == rows[..|rows| - 1] + [rows[|rows| - 1]];
    }
  }

  lemma {:induction false} FilterCounts<T>(rows: seq<T>, p: T -> bool)
    ensures |Filter(rows, p)| == CountWhere(rows, p)
  {
    if rows != [] {
      FilterCounts(rows[..|rows| - 1], p);
    }
  }

  lemma FilterOneMore<T>(rows: seq<T>, x: T, p: T -> bool)
    ensures Filter(rows + [x], p) == Filter(rows, p) + if p(x) then [x] else []
  {
    assert (rows + [x])[..|rows|] == rows;
  }

  lemma {:induction false} FilterAppend<T>(s: seq<T>, t: seq<T>, p: T -> bool)
    ensures Filter(s + t, p) == Filter(s, p) + Filter(t, p)
  {
    if t == [] {
      assert s + t == s;
    } else {
      FilterAppend(s, t[..|t| - 1], p);
      assert (s + t)[..|s + t| - 1] == s + t[..|t| - 1];
    }
  }

  lemma {:induction false} FilterAll<T>(s: seq<T>, p: T -> bool)
    requires forall i :: 0 <= i < |s| ==> p(s[i])
    ensures Filter(s, p) == s
  {
    if s != [] {
      FilterAll(s[..|s| - 1], p);
    }
  }

  lemma {:induction false} FilterNone<T>(s: seq<T>, p: T -> bool)
    requires forall i :: 0 <= i < |s| ==> !p(s[i])
    ensures Filter(s, p) == []
  {
    if s != [] {
      FilterNone(s[..|s| - 1], p);
    }
  }
}
