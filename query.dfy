/**
 * The part of the backend's query surface the pages use, as functions on
 * sequences of rows: `.eq`/`.in` filters, `.order(col, { ascending })` and
 * `.limit(n)`. The backend leaves the order of equal keys unspecified; the
 * model sorts stably, which is one of the orders the backend may return.
 */
module Query {
  import opened Types

  /** A sort column value; `Null` is a missing value. */
  datatype SortKey = Value(v: int) | Null

  datatype Direction = Ascending | Descending

  /** The backend (PostgreSQL) treats NULL as larger than every value, so
      NULLs come last when ascending and first when descending. */
  predicate KeyLe(a: SortKey, b: SortKey)
  {
    b.Null? || (a.Value? && a.v <= b.v)
  }

  /** May a row with key `a` be listed before a row with key `b`? */
  predicate Precedes(dir: Direction, a: SortKey, b: SortKey)
  {
    match dir
    case Ascending => KeyLe(a, b)
    case Descending => KeyLe(b, a)
  }

  lemma PrecedesTotal(dir: Direction, a: SortKey, b: SortKey)
    ensures Precedes(dir, a, b) || Precedes(dir, b, a)
  {
  }

  lemma PrecedesTransitive(dir: Direction, a: SortKey, b: SortKey, c: SortKey)
    requires Precedes(dir, a, b) && Precedes(dir, b, c)
    ensures Precedes(dir, a, c)
  {
  }

  /** Every row may be listed before every later row. */
  ghost predicate Sorted<T>(s: seq<T>, key: T -> SortKey, dir: Direction)
  {
    forall i, j :: 0 <= i < j < |s| ==> Precedes(dir, key(s[i]), key(s[j]))
  }

  /** A filter: the rows that satisfy `keep`, in their original order. */
  function Where<T(!new)>(rows: seq<T>, keep: T -> bool): (r: seq<T>)
    ensures |r| <= |rows|
    ensures forall x :: x in r <==> x in rows && keep(x)
  {
    if rows == [] then []
    else (if keep(rows[0]) then [rows[0]] else []) + Where(rows[1..], keep)
  }

  /** A filter keeps each matching row as often as it occurs and drops every
      other row. */
  lemma {:induction false} WhereCounts<T(!new)>(rows: seq<T>, keep: T -> bool, x: T)
    ensures multiset(Where(rows, keep))[x] == if keep(x) then multiset(rows)[x] else 0
  {
    if rows != [] {
      assert rows == [rows[0]] + rows[1..];
      WhereCounts(rows[1..], keep, x);
    }
  }

  /** Inserts `x` into a sequence, before the first row it may precede. */
  function Insert<T>(x: T, s: seq<T>, key: T -> SortKey, dir: Direction): (r: seq<T>)
    ensures multiset(r) == multiset(s) + multiset{x}
  {
    if s == [] then [x]
    else if Precedes(dir, key(x), key(s[0])) then [x] + s
    else
      assert s == [s[0]] + s[1..];
      [s[0]] + Insert(x, s[1..], key, dir)
  }

  /** Inserting into a sorted sequence keeps it sorted. */
  lemma {:induction false} InsertSorted<T>(x: T, s: seq<T>, key: T -> SortKey, dir: Direction)
    requires Sorted(s, key, dir)
    ensures Sorted(Insert(x, s, key, dir), key, dir)
  {
    if s == [] {
    } else if Precedes(dir, key(x), key(s[0])) {
      var r := [x] + s;
      forall i, j | 0 <= i < j < |r|
        ensures Precedes(dir, key(r[i]), key(r[j]))
      {
        if i == 0 && j > 1 {
          PrecedesTransitive(dir, key(x), key(s[0]), key(s[j - 1]));
        }
      }
    } else {
      var tail := s[1..];
      assert Sorted(tail, key, dir) by {
        forall i, j | 0 <= i < j < |tail|
          ensures Precedes(dir, key(tail[i]), key(tail[j]))
        {
          assert tail[i] == s[i + 1] && tail[j] == s[j + 1];
        }
      }
      InsertSorted(x, tail, key, dir);
      var rest := Insert(x, tail, key, dir);
      PrecedesTotal(dir, key(x), key(s[0]));
      forall j | 0 <= j < |rest|
        ensures Precedes(dir, key(s[0]), key(rest[j]))
      {
        assert rest[j] in multiset(rest);
        if rest[j] != x {
          assert rest[j] in multiset(tail);
          var k :| 0 <= k < |tail| && tail[k] == rest[j];
          assert tail[k] == s[k + 1];
        }
      }
      var r := [s[0]] + rest;
      forall i, j | 0 <= i < j < |r|
        ensures Precedes(dir, key(r[i]), key(r[j]))
      {
        assert r[j] == rest[j - 1];
        if i > 0 { assert r[i] == rest[i - 1]; }
      }
    }
  }

  /** `.order(column, { ascending })`: the same rows, sorted by `key`. */
  function OrderBy<T>(rows: seq<T>, key: T -> SortKey, dir: Direction): (r: seq<T>)
    ensures multiset(r) == multiset(rows)
    ensures |r| == |rows|
    ensures Sorted(r, key, dir)
  {
    if rows == [] then []
    else
      assert rows == [rows[0]] + rows[1..];
      var sortedTail := OrderBy(rows[1..], key, dir);
      InsertSorted(rows[0], sortedTail, key, dir);
      var r := Insert(rows[0], sortedTail, key, dir);
      assert |multiset(r)| == |multiset(rows)|;
      r
  }

  /** `.limit(n)`: the first `n` rows, or all of them when there are fewer. */
  function Limit<T>(rows: seq<T>, n: nat): (r: seq<T>)
    ensures |r| == if |rows| <= n then |rows| else n
    ensures |rows| <= n ==> r == rows
    ensures r <= rows
  {
    if |rows| <= n then rows else rows[..n]
  }

  /** A limited result holds no row more often than the full result. */
  lemma LimitWithinRows<T>(rows: seq<T>, n: nat)
    ensures multiset(Limit(rows, n)) <= multiset(rows)
  {
    var r := Limit(rows, n);
    assert rows == r + rows[|r|..];
  }

  /** A limited result keeps the order of what it was cut from, holds only
      rows of it, and is its head: a row that was cut off may not come before
      any row that was kept. */
  lemma LimitKeepsTop<T>(rows: seq<T>, n: nat, key: T -> SortKey, dir: Direction)
    requires Sorted(rows, key, dir)
    ensures Sorted(Limit(rows, n), key, dir)
    ensures forall x :: x in Limit(rows, n) ==> x in rows
    ensures forall x, y :: x in rows && x !in Limit(rows, n) && y in Limit(rows, n) ==>
      Precedes(dir, key(y), key(x))
  {
    var r := Limit(rows, n);
    assert forall i :: 0 <= i < |r| ==> r[i] == rows[i];
    forall x, y | x in rows && x !in r && y in r
      ensures Precedes(dir, key(y), key(x))
    {
      var i :| 0 <= i < |r| && r[i] == y;
      var j :| 0 <= j < |rows| && rows[j] == x;
      assert j >= |r|;
    }
  }

  /** A row added at the end of a table is matched by a filter exactly when it
      satisfies the condition, and the earlier matches are unchanged. */
  lemma {:induction false} WhereAppend<T(!new)>(rows: seq<T>, x: T, keep: T -> bool)
    ensures Where(rows + [x], keep) == Where(rows, keep) + (if keep(x) then [x] else [])
  {
    if rows == [] {
      assert rows + [x] == [x];
      assert [x][1..] == [];
    } else {
      var whole := rows + [x];
      var head := if keep(rows[0]) then [rows[0]] else [];
      var tail := if keep(x) then [x] else [];
      assert whole[0] == rows[0];
      assert whole[1..] == rows[1..] + [x];
      WhereAppend(rows[1..], x, keep);
      calc {
        Where(whole, keep);
        head + Where(rows[1..] + [x], keep);
        head + (Where(rows[1..], keep) + tail);
        (head + Where(rows[1..], keep)) + tail;
        Where(rows, keep) + tail;
      }
    }
  }

  /** A filtered and ordered query, `.eq(...)....order(...)`: every matching
      row as often as it occurs, no other row, in the requested order. */
  function Select<T(!new)>(rows: seq<T>, keep: T -> bool, key: T -> SortKey, dir: Direction): (r: seq<T>)
    ensures forall x :: multiset(r)[x] == if keep(x) then multiset(rows)[x] else 0
    ensures forall x :: x in r <==> x in rows && keep(x)
    ensures Sorted(r, key, dir)
    ensures |r| == |MatchingPositions(rows, keep)|
  {
    var kept := Where(rows, keep);
    WhereLength(rows, keep);
    assert forall x :: multiset(kept)[x] == if keep(x) then multiset(rows)[x] else 0 by {
      forall x
        ensures multiset(kept)[x] == if keep(x) then multiset(rows)[x] else 0
      {
        WhereCounts(rows, keep, x);
      }
    }
    OrderBy(kept, key, dir)
  }

  /** `.eq(...).order(...).limit(n)`: at most `n` matching rows in the
      requested order; fewer only when no more match, and no matching row
      left out comes before one that is shown. */
  function SelectTop<T(!new)>(rows: seq<T>, keep: T -> bool, key: T -> SortKey, dir: Direction, n: nat): (r: seq<T>)
    ensures |r| <= n
    ensures forall x :: x in r ==> x in rows && keep(x)
    ensures Sorted(r, key, dir)
    ensures |r| < n ==> forall x :: x in rows && keep(x) ==> x in r
    ensures forall x, y :: x in rows && keep(x) && x !in r && y in r ==> Precedes(dir, key(y), key(x))
    ensures forall x :: multiset(r)[x] <= if keep(x) then multiset(rows)[x] else 0
    ensures multiset(r) <= multiset(rows)
    ensures |r| == if |MatchingPositions(rows, keep)| < n then |MatchingPositions(rows, keep)| else n
  {
    var matching := Select(rows, keep, key, dir);
    LimitKeepsTop(matching, n, key, dir);
    LimitWithinRows(matching, n);
    var r := Limit(matching, n);
    assert |r| < n ==> r == matching;
    r
  }

  /** The positions of the rows that satisfy `keep`. */
  ghost function MatchingPositions<T>(rows: seq<T>, keep: T -> bool): set<int>
  {
    set i | 0 <= i < |rows| && keep(rows[i])
  }

  /** A filter keeps one row per matching position. */
  lemma {:induction false} WhereLength<T(!new)>(rows: seq<T>, keep: T -> bool)
    ensures |Where(rows, keep)| == |MatchingPositions(rows, keep)|
    decreases |rows|
  {
    if rows != [] {
      var init := rows[..|rows| - 1];
      var last := rows[|rows| - 1];
      assert rows == init + [last];
      WhereAppend(init, last, keep);
      WhereLength(init, keep);
      MatchingPositionsAppend(init, last, keep);
    } else {
      assert MatchingPositions(rows, keep) == {};
    }
  }

  /** Appending a row adds its position when it matches, and nothing else. */
  lemma MatchingPositionsAppend<T>(rows: seq<T>, x: T, keep: T -> bool)
    ensures |MatchingPositions(rows + [x], keep)| == |MatchingPositions(rows, keep)| + (if keep(x) then 1 else 0)
  {
    var before := MatchingPositions(rows, keep);
    var whole := rows + [x];
    assert forall i :: 0 <= i < |rows| ==> whole[i] == rows[i];
    assert |rows| !in before;
    if keep(x) {
      assert MatchingPositions(whole, keep) == before + {|rows|};
    } else {
      assert MatchingPositions(whole, keep) == before;
    }
  }

  /** `.select("*", { count: "exact", head: true })`: the number of matching
      rows, without the rows themselves. */
  function CountWhere<T(!new)>(rows: seq<T>, keep: T -> bool): (n: nat)
    ensures n == |MatchingPositions(rows, keep)|
    ensures n <= |rows|
  {
    WhereLength(rows, keep);
    |Where(rows, keep)|
  }

  /** `data?.length || 0`: the length of a result, 0 when there is no data. */
  function ShownLength<T>(data: Option<seq<T>>): (n: nat)
    ensures data.None? ==> n == 0
    ensures data.Some? ==> n == |data.value|
  {
    if data.Some? then |data.value| else 0
  }
}
