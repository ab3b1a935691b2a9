/** Timestamps as pandas handles them in the normaliser: an instant in microseconds
    since the epoch, or NaT (the "not a time" marker, here None). */
module Timestamps {
  import opened Wrappers

  type Timestamp = Option<int>

  const MicrosPerHour: int := 3_600_000_000
  const MicrosPerDay: int := 24 * MicrosPerHour

  /** The day an instant falls on, counted from the epoch. */
  function DayOf(t: int): int {
    t / MicrosPerDay
  }

  /** `ts.hour` */
  function HourOf(t: int): (h: int)
    ensures 0 <= h < 24
  {
    (t / MicrosPerHour) % 24
  }

  /** The part of an instant below the hour (minutes, seconds, microseconds). */
  function WithinHour(t: int): (u: int)
    ensures 0 <= u < MicrosPerHour
  {
    t % MicrosPerHour
  }

  /** An instant is determined by its day, hour and the part below the hour. */
  lemma {:induction false} Decompose(t: int, d: int, h: int, u: int)
    requires 0 <= h < 24 && 0 <= u < MicrosPerHour
    requires t == d * MicrosPerDay + h * MicrosPerHour + u
    ensures DayOf(t) == d && HourOf(t) == h && WithinHour(t) == u
  {
    var q := 24 * d + h;
    assert t == q * MicrosPerHour + u;
    assert t / MicrosPerHour == q;
    assert t % MicrosPerHour == u;
    assert q % 24 == h;
    assert 0 <= h * MicrosPerHour + u < MicrosPerDay;
    assert t / MicrosPerDay == d;
  }

  /** Every instant splits into its day, hour and the part below the hour. */
  lemma {:induction false} Split(t: int)
    ensures t == DayOf(t) * MicrosPerDay + HourOf(t) * MicrosPerHour + WithinHour(t)
  {
    var q := t / MicrosPerHour;
    assert t == q * MicrosPerHour + WithinHour(t);
    assert q == 24 * (q / 24) + HourOf(t);
    var d := q / 24;
    assert t == d * MicrosPerDay + HourOf(t) * MicrosPerHour + WithinHour(t);
    Decompose(t, d, HourOf(t), WithinHour(t));
  }

  /** `ts.replace(hour=h)`: NaT stays NaT whatever `h` is; an hour outside 0..23
      raises ValueError; otherwise only the hour changes. */
  function ReplaceHour(t: Timestamp, h: int): (r: Result<Timestamp>)
    ensures t.None? ==> r == Ok(None)
    ensures t.Some? ==> (r.Ok? <==> 0 <= h < 24)
    ensures r.Err? ==> r.error == ValueError
    ensures t.Some? && r.Ok? ==>
              && r.value.Some?
              && HourOf(r.value.value) == h
              && DayOf(r.value.value) == DayOf(t.value)
              && WithinHour(r.value.value) == WithinHour(t.value)
  {
    match t
    case None => Ok(None)
    case Some(x) =>
      if 0 <= h < 24 then
        var y := x + (h - HourOf(x)) * MicrosPerHour;
        Split(x);
        Decompose(y, DayOf(x), h, WithinHour(x));
        Ok(Some(y))
      else
        Err(ValueError)
  }

  /** The order `sort_values` puts timestamps in: ascending, with NaT last. */
  predicate TimeLe(a: Timestamp, b: Timestamp) {
    match a
    case None => b.None?
    case Some(x) => b.None? || x <= b.value
  }

  lemma TimeLeTotal(a: Timestamp, b: Timestamp)
    ensures TimeLe(a, b) || TimeLe(b, a)
  {
  }

  /** Rows in ascending timestamp order, NaT last. */
  ghost predicate SortedBy<R>(rows: seq<R>, key: R -> Timestamp) {
    forall i, j :: 0 <= i < j < |rows| ==> TimeLe(key(rows[i]), key(rows[j]))
  }

  /** Inserts `x` into rows that are already in order. */
  function Insert<R(==)>(x: R, rows: seq<R>, key: R -> Timestamp): (r: seq<R>)
    requires SortedBy(rows, key)
    ensures SortedBy(r, key)
    ensures multiset(r) == multiset(rows) + multiset{x}
    ensures |r| == |rows| + 1
  {
    if rows == [] then [x]
    else if TimeLe(key(x), key(rows[0])) then [x] + rows
    else
      var rest := Insert(x, rows[1..], key);
      assert rows == [rows[0]] + rows[1..];
      forall y | y in multiset(rest)
        ensures TimeLe(key(rows[0]), key(y))
      {
        if y != x {
          assert y in rows[1..];
          var k :| 0 <= k < |rows[1..]| && rows[1..][k] == y;
          assert rows[k + 1] == y;
        }
      }
      forall j | 0 < j < |[rows[0]] + rest|
        ensures TimeLe(key(rows[0]), key(([rows[0]] + rest)[j]))
      {
        assert ([rows[0]] + rest)[j] == rest[j - 1];
        assert rest[j - 1] in multiset(rest);
      }
      [rows[0]] + rest
  }

  /** `sort_values` on the timestamp column: the rows in ascending timestamp order
      (NaT last), as a permutation of the input. pandas' default sort is not stable,
      so the contract leaves the order of equal timestamps open. */
  function SortByTime<R(==)>(rows: seq<R>, key: R -> Timestamp): (r: seq<R>)
    ensures SortedBy(r, key)
    ensures multiset(r) == multiset(rows)
    ensures |r| == |rows|
    decreases |rows|
  {
    if rows == [] then []
    else
      assert rows == rows[..|rows| - 1] + [rows[|rows| - 1]];
      Insert(rows[|rows| - 1], SortByTime(rows[..|rows| - 1], key), key)
  }
}
