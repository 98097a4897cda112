/**
 * The time-series record (`TimeSeriesPoint` in app/schemas.py) and the
 * ascending sort by timestamp string that every parser applies.
 */
module Series {

  /** One observation: a `YYYY-MM-01` timestamp string and a value. */
  datatype Point = Point(t: string, v: real)

  /** Python's `<` on `str`: code-point lexicographic order, a proper prefix first. */
  predicate StrLess(a: string, b: string)
    ensures a < b ==> StrLess(a, b)
    ensures StrLess(a, b) ==> b != []
    decreases |a|
  {
    if a == [] then b != []
    else if b == [] then false
    else if a[0] == b[0] then StrLess(a[1..], b[1..])
    else a[0] < b[0]
  }

  predicate StrLessEq(a: string, b: string) {
    a == b || StrLess(a, b)
  }

  lemma {:induction false} StrLessIrreflexive(a: string)
    ensures !StrLess(a, a)
    decreases |a|
  {
    if a != [] {
      StrLessIrreflexive(a[1..]);
    }
  }

  lemma {:induction false} StrLessTotal(a: string, b: string)
    ensures a == b || StrLess(a, b) || StrLess(b, a)
    decreases |a|
  {
    if a != [] && b != [] && a[0] == b[0] {
      StrLessTotal(a[1..], b[1..]);
      if a[1..] == b[1..] {
        assert a == [a[0]] + a[1..] && b == [b[0]] + b[1..];
      }
    }
  }

  lemma {:induction false} StrLessTransitive(a: string, b: string, c: string)
    requires StrLess(a, b) && StrLess(b, c)
    ensures StrLess(a, c)
    decreases |a|
  {
    if a != [] && a[0] == b[0] && b[0] == c[0] {
      StrLessTransitive(a[1..], b[1..], c[1..]);
    }
  }

  lemma StrLessEqTransitive(a: string, b: string, c: string)
    requires StrLessEq(a, b) && StrLessEq(b, c)
    ensures StrLessEq(a, c)
  {
    if a != b && b != c {
      StrLessTransitive(a, b, c);
    }
  }

  /** What `list.sort(key=lambda p: p.t)` establishes about its order. */
  ghost predicate SortedByTime(s: seq<Point>) {
    forall i, j :: 0 <= i < j < |s| ==> StrLessEq(s[i].t, s[j].t)
  }

  /** Inserts `p` after every element whose key is not greater than its own. */
  function InsertByTime(s: seq<Point>, p: Point): (r: seq<Point>)
    requires SortedByTime(s)
    ensures SortedByTime(r)
    ensures multiset(r) == multiset(s) + multiset{p}
    decreases |s|
  {
    if s == [] then [p]
    else if StrLess(p.t, s[0].t) then
      InsertFrontSorted(s, p);
      [p] + s
    else
      var rest := InsertByTime(s[1..], p);
      InsertAfterHeadSorted(s, p, rest);
      assert s == [s[0]] + s[1..];
      [s[0]] + rest
  }

  lemma InsertFrontSorted(s: seq<Point>, p: Point)
    requires SortedByTime(s) && s != [] && StrLess(p.t, s[0].t)
    ensures SortedByTime([p] + s)
  {
    var r := [p] + s;
    forall i, j | 0 <= i < j < |r| ensures StrLessEq(r[i].t, r[j].t) {
      if i == 0 {
        StrLessEqTransitive(p.t, s[0].t, s[j - 1].t);
      }
    }
  }

  lemma InsertAfterHeadSorted(s: seq<Point>, p: Point, rest: seq<Point>)
    requires SortedByTime(s) && s != [] && !StrLess(p.t, s[0].t)
    requires SortedByTime(rest) && multiset(rest) == multiset(s[1..]) + multiset{p}
    ensures SortedByTime([s[0]] + rest)
  {
    StrLessTotal(p.t, s[0].t);
    var r := [s[0]] + rest;
    forall i, j | 0 <= i < j < |r| ensures StrLessEq(r[i].t, r[j].t) {
      if i == 0 {
        var x := r[j];
        assert x in multiset(rest);
        if x == p {
        } else {
          assert x in multiset(s[1..]);
          var k :| 0 <= k < |s[1..]| && s[1..][k] == x;
          assert s[k + 1] == x;
        }
      }
    }
  }

  /**
   * The stable ascending sort by timestamp string: each point, in input
   * order, is inserted after every point already placed whose key is not
   * greater than its own.
   */
  function SortByTime(s: seq<Point>): (r: seq<Point>)
    ensures SortedByTime(r)
    ensures multiset(r) == multiset(s)
    decreases |s|
  {
    if s == [] then []
    else
      var init := s[..|s| - 1];
      assert s == init + [s[|s| - 1]];
      InsertByTime(SortByTime(init), s[|s| - 1])
  }
}
