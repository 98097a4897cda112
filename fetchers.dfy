/**
 * The parsing half of the data fetchers: `_read_csv_pairs` over the rows of a
 * local CSV file, and `fetch_co2` and `fetch_temp` over the lines of the text
 * they download, each falling back to its local CSV file. Reading files and
 * the network is outside the model: the rows or lines come in as parameters,
 * `None` when the file is missing or the download raised. Python's `int()`,
 * `float()` and `strptime` are the partial functions `parseInt`, `parseReal`
 * and `strptime` the caller supplies.
 */
module Fetchers {
  import opened Wrappers
  import opened Series
  import opened IsoDate
  import opened Text

  type Row = seq<string>

  // ----- Collecting the points a loop appends -----

  /** The points `f` makes of `xs`, in order, skipping the items it rejects. */
  function FilterMap<X>(xs: seq<X>, f: X -> Option<Point>): (ps: seq<Point>)
    ensures |ps| <= |xs|
  {
    if |xs| == 0 then []
    else
      var init := FilterMap(xs[..|xs| - 1], f);
      match f(xs[|xs| - 1])
      case None => init
      case Some(p) => init + [p]
  }

  /** One more item adds its point, if it yields one. */
  lemma FilterMapStep<X>(xs: seq<X>, i: nat, f: X -> Option<Point>)
    requires i < |xs|
    ensures FilterMap(xs[..i + 1], f) == FilterMap(xs[..i], f) + (if f(xs[i]).Some? then [f(xs[i]).value] else [])
  {
    assert xs[..i + 1][..i] == xs[..i];
  }

  /** A point is collected exactly when some item yields it. */
  lemma {:induction false} FilterMapMembers<X>(xs: seq<X>, f: X -> Option<Point>, p: Point)
    ensures p in FilterMap(xs, f) <==> exists i :: 0 <= i < |xs| && f(xs[i]) == Some(p)
  {
    if |xs| > 0 {
      var init := xs[..|xs| - 1];
      FilterMapMembers(init, f, p);
      if exists i :: 0 <= i < |init| && f(init[i]) == Some(p) {
        var i :| 0 <= i < |init| && f(init[i]) == Some(p);
        assert xs[i] == init[i];
      }
      if exists i :: 0 <= i < |xs| && f(xs[i]) == Some(p) {
        var i :| 0 <= i < |xs| && f(xs[i]) == Some(p);
        if i < |xs| - 1 {
          assert init[i] == xs[i];
        }
      }
    }
  }

  /** The points `f` makes of each of `xs` in turn, concatenated. */
  function Flatten<X>(xs: seq<X>, f: X -> seq<Point>): (ps: seq<Point>)
    ensures forall p :: p in ps ==> exists i :: 0 <= i < |xs| && p in f(xs[i])
  {
    if |xs| == 0 then [] else Flatten(xs[..|xs| - 1], f) + f(xs[|xs| - 1])
  }

  /** A point is collected exactly when some item makes it. */
  lemma {:induction false} FlattenMembers<X>(xs: seq<X>, f: X -> seq<Point>, p: Point)
    ensures p in Flatten(xs, f) <==> exists i :: 0 <= i < |xs| && p in f(xs[i])
  {
    if |xs| > 0 {
      var n := |xs| - 1;
      FlattenMembers(xs[..n], f, p);
      forall i | 0 <= i < n
        ensures xs[..n][i] == xs[i]
      {
      }
    }
  }

  // ----- _read_csv_pairs -----

  /**
   * The date column of one CSV row, as line 28-36 turns it into a key: with a
   * format, what `strptime` followed by `isoformat` gives; without, seven
   * characters (`YYYY-MM`, the reduced-precision month) get `-01` appended
   * unchecked, and anything else is kept verbatim if it is an ISO date.
   */
  function CsvDateKey(ds: string, strptime: Option<string -> Option<string>>): (t: Option<string>)
    ensures strptime.None? && |ds| == 7 ==> t == Some(ds + "-01")
    ensures strptime.None? && |ds| != 7 ==> (t.Some? <==> ParseIsoDate(ds).Some?)
    ensures strptime.None? && |ds| != 7 && t.Some? ==> t.value == ds
  {
    match strptime
    case Some(parse) => parse(ds)
    case None =>
      if |ds| == 7 then Some(ds + "-01")
      else if ParseIsoDate(ds).Some? then Some(ds)
      else None
  }

  /**
   * One row of `_read_csv_pairs` (lines 19-40): the point it appends, or
   * `None` when the row is skipped.
   */
  function CsvRowPoint(row: Row, skipHash: bool, strptime: Option<string -> Option<string>>,
                       parseReal: string -> Option<real>): (r: Option<Point>)
    ensures r.Some? ==> |row| >= 2 && !(skipHash && StartsWith(row[0], "#"))
    ensures r.Some? ==> CsvDateKey(Strip(row[0]), strptime) == Some(r.value.t)
    ensures r.Some? ==> parseReal(Strip(row[1])) == Some(r.value.v)
  {
    if |row| == 0 then None
    else if skipHash && StartsWith(row[0], "#") then None
    else if |row| < 2 then None
    else
      var ds, vs := Strip(row[0]), Strip(row[1]);
      match CsvDateKey(ds, strptime)
      case None => None
      case Some(t) =>
        match parseReal(vs)
        case None => None
        case Some(v) => Some(Point(t, v))
  }

  /**
   * A row becomes a point exactly when it has two fields, is not a comment
   * row, and both its date and its value parse.
   */
  lemma CsvRowAccepted(row: Row, skipHash: bool, strptime: Option<string -> Option<string>>,
                       parseReal: string -> Option<real>)
    ensures CsvRowPoint(row, skipHash, strptime, parseReal).Some? <==>
      && |row| >= 2
      && !(skipHash && StartsWith(row[0], "#"))
      && CsvDateKey(Strip(row[0]), strptime).Some?
      && parseReal(Strip(row[1])).Some?
  {
  }

  /** The accepted rows' points, sorted by key. */
  function CsvRows(rs: seq<Row>, skipHash: bool, strptime: Option<string -> Option<string>>,
                   parseReal: string -> Option<real>): (ps: seq<Point>)
    ensures SortedByTime(ps)
  {
    SortByTime(FilterMap(rs, row => CsvRowPoint(row, skipHash, strptime, parseReal)))
  }

  /** The result of `_read_csv_pairs`: no points for a missing file. */
  function CsvPairs(rows: Option<seq<Row>>, skipHash: bool, strptime: Option<string -> Option<string>>,
                    parseReal: string -> Option<real>): (ps: seq<Point>)
    ensures rows.None? ==> ps == []
    ensures SortedByTime(ps)
  {
    match rows
    case None => []
    case Some(rs) => CsvRows(rs, skipHash, strptime, parseReal)
  }

  /** The row loop of lines 18-40, then the sort of line 41. */
  method CsvRowLoop(rs: seq<Row>, skipHash: bool, strptime: Option<string -> Option<string>>,
                    parseReal: string -> Option<real>)
    returns (points: seq<Point>)
    ensures points == CsvRows(rs, skipHash, strptime, parseReal)
  {
    points := [];
    ghost var f := row => CsvRowPoint(row, skipHash, strptime, parseReal);
    for i := 0 to |rs|
      invariant points == FilterMap(rs[..i], f)
    {
      FilterMapStep(rs, i, f);
      var p := CsvRowPoint(rs[i], skipHash, strptime, parseReal);
      assert p == f(rs[i]);
      if p.Some? {
        points := points + [p.value];
      }
    }
    assert rs[..|rs|] == rs;
    points := SortByTime(points);
  }

  /**
   * `_read_csv_pairs`. `rows` is what `csv.reader` yields for the file, `None`
   * when the file does not exist.
   */
  method ReadCsvPairs(rows: Option<seq<Row>>, skipHash: bool, strptime: Option<string -> Option<string>>,
                      parseReal: string -> Option<real>)
    returns (points: seq<Point>)
    ensures points == CsvPairs(rows, skipHash, strptime, parseReal)
  {
    if rows.None? {
      return [];
    }
    points := CsvRowLoop(rows.value, skipHash, strptime, parseReal);
  }

  /** `_read_csv_pairs` returns exactly the points of the rows it accepts. */
  lemma CsvPairsMembers(rs: seq<Row>, skipHash: bool, strptime: Option<string -> Option<string>>,
                        parseReal: string -> Option<real>, p: Point)
    ensures p in CsvPairs(Some(rs), skipHash, strptime, parseReal) <==>
      exists i :: 0 <= i < |rs| && CsvRowPoint(rs[i], skipHash, strptime, parseReal) == Some(p)
  {
    var f := row => CsvRowPoint(row, skipHash, strptime, parseReal);
    var collected := FilterMap(rs, f);
    assert p in CsvPairs(Some(rs), skipHash, strptime, parseReal) <==> p in multiset(collected);
    FilterMapMembers(rs, f, p);
  }

  /**
   * Without a format, a row whose date has seven characters is taken as a
   * month and given day `01` unchecked.
   */
  lemma ShortDateAccepted(ds: string, vs: string, skipHash: bool, parseReal: string -> Option<real>)
    requires |Strip(ds)| == 7 && !(skipHash && StartsWith(ds, "#"))
    requires parseReal(Strip(vs)).Some?
    ensures CsvRowPoint([ds, vs], skipHash, None, parseReal) ==
      Some(Point(Strip(ds) + "-01", parseReal(Strip(vs)).value))
  {
    var row := [ds, vs];
    assert row[0] == ds && row[1] == vs;
  }

  /**
   * So `2020-13` becomes the key `2020-13-01`, which `MonthThirteenIsNoDate`
   * shows is no date.
   */
  lemma ShortDateUnchecked(ds: string, vs: string, parseReal: string -> Option<real>)
    requires ds == "2020-13" && vs == "1.5" && parseReal(vs) == Some(1.5)
    ensures CsvRowPoint([ds, vs], true, None, parseReal) == Some(Point("2020-13-01", 1.5))
  {
    StripPlain(ds);
    StripPlain(vs);
    assert !StartsWith(ds, "#") by {
      assert ds[0] != '#';
    }
    assert |ds| == 7 && ds + "-01" == "2020-13-01";
    ShortDateAccepted(ds, vs, true, parseReal);
  }

  // ----- fetch_co2 -----

  /** The value NOAA writes for a missing monthly average. */
  const MissingAverage := "-99.99"

  /**
   * One line of the CO2 download (lines 59-71): the point it appends, or
   * `None` when the line is blank, a comment, too short, or does not parse.
   */
  function Co2LinePoint(line: string, parseInt: string -> Option<int>,
                        parseReal: string -> Option<real>): (r: Option<Point>)
    ensures r.Some? ==> line != "" && !StartsWith(line, "#") && |Split(line, ',')| >= 6
    ensures var parts := StripAll(Split(line, ','));
      r.Some? <==> (line != "" && !StartsWith(line, "#") && |parts| >= 6
        && parseInt(parts[0]).Some? && parseInt(parts[1]).Some?
        && (if parts[4] != MissingAverage then parseReal(parts[4]) else parseReal(parts[5])).Some?)
  {
    if line == "" || StartsWith(line, "#") then None
    else
      var parts := StripAll(Split(line, ','));
      if |parts| < 6 then None
      else
        match (parseInt(parts[0]), parseInt(parts[1]))
        case (Some(year), Some(month)) =>
          var value := if parts[4] != MissingAverage then parseReal(parts[4]) else parseReal(parts[5]);
          if value.None? then None else Some(Point(MonthKey(year, month), value.value))
        case _ => None
  }

  /**
   * A CO2 point is dated by the line's year and month fields and carries the
   * monthly average, or the deseasonalized column when the average is missing.
   */
  lemma Co2PointFields(line: string, parseInt: string -> Option<int>, parseReal: string -> Option<real>)
    requires Co2LinePoint(line, parseInt, parseReal).Some?
    ensures var parts := StripAll(Split(line, ','));
      var p := Co2LinePoint(line, parseInt, parseReal).value;
      && |parts| >= 6
      && parseInt(parts[0]).Some? && parseInt(parts[1]).Some?
      && p.t == MonthKey(parseInt(parts[0]).value, parseInt(parts[1]).value)
      && (parts[4] != MissingAverage ==> parseReal(parts[4]) == Some(p.v))
      && (parts[4] == MissingAverage ==> parseReal(parts[5]) == Some(p.v))
  {
  }

  /**
   * For a calendar month the key is that month's first day as an ISO date;
   * a month field outside 1..12 still gets a key, which is no date.
   */
  lemma Co2KeyIsFirstOfMonth(year: int, month: int)
    requires 1 <= year <= 9999 && 1 <= month <= 12
    ensures ParseIsoDate(MonthKey(year, month)) == Some(Date(year, month, 1))
  {
    var k := year * 12 + (month - 1);
    assert k / 12 == year && k % 12 + 1 == month;
    MonthKeyAtParses(k);
  }

  /** The rows `fetch_co2` returns when the download succeeded. */
  function Co2Rows(lines: seq<string>, parseInt: string -> Option<int>,
                   parseReal: string -> Option<real>): (ps: seq<Point>)
    ensures SortedByTime(ps)
  {
    SortByTime(FilterMap(lines, line => Co2LinePoint(line, parseInt, parseReal)))
  }

  /** The download's rows are exactly the points of the lines it accepts. */
  lemma Co2RowsMembers(lines: seq<string>, parseInt: string -> Option<int>,
                       parseReal: string -> Option<real>, p: Point)
    ensures p in Co2Rows(lines, parseInt, parseReal) <==>
      exists i :: 0 <= i < |lines| && Co2LinePoint(lines[i], parseInt, parseReal) == Some(p)
  {
    var f := line => Co2LinePoint(line, parseInt, parseReal);
    var collected := FilterMap(lines, f);
    assert p in Co2Rows(lines, parseInt, parseReal) <==> p in multiset(collected);
    FilterMapMembers(lines, f, p);
  }

  /** The loop of lines 57-72 over the downloaded lines, then the sort. */
  method Co2Points(lines: seq<string>, parseInt: string -> Option<int>, parseReal: string -> Option<real>)
    returns (rows: seq<Point>)
    ensures rows == Co2Rows(lines, parseInt, parseReal)
  {
    rows := [];
    ghost var f := line => Co2LinePoint(line, parseInt, parseReal);
    for i := 0 to |lines|
      invariant rows == FilterMap(lines[..i], f)
    {
      FilterMapStep(lines, i, f);
      var p := Co2LinePoint(lines[i], parseInt, parseReal);
      assert p == f(lines[i]);
      if p.Some? {
        rows := rows + [p.value];
      }
    }
    assert lines[..|lines|] == lines;
    rows := SortByTime(rows);
  }

  /**
   * `fetch_co2`. `text` is the download split into lines, `None` when it
   * raised; `fallbackRows` are the rows of the local `co2.csv`.
   */
  method FetchCo2(text: Option<seq<string>>, fallbackRows: Option<seq<Row>>,
                  parseInt: string -> Option<int>, parseReal: string -> Option<real>)
    returns (points: seq<Point>)
    ensures text.Some? && Co2Rows(text.value, parseInt, parseReal) != [] ==>
      points == Co2Rows(text.value, parseInt, parseReal)
    ensures text.None? || Co2Rows(text.value, parseInt, parseReal) == [] ==>
      points == CsvPairs(fallbackRows, true, None, parseReal)
    ensures SortedByTime(points)
  {
    if text.Some? {
      var rows := Co2Points(text.value, parseInt, parseReal);
      if rows != [] {
        return rows;
      }
    }
    points := ReadCsvPairs(fallbackRows, true, None, parseReal);
  }

  // ----- fetch_temp -----

  /** One past the first line that starts with `Year`, or 0 when none does. */
  function HeaderEnd(lines: seq<string>): (start: nat)
    ensures start <= |lines|
    ensures start == 0 <==> forall i :: 0 <= i < |lines| ==> !StartsWith(lines[i], "Year")
    ensures start > 0 ==> StartsWith(lines[start - 1], "Year")
    ensures forall i :: 0 <= i < start - 1 ==> !StartsWith(lines[i], "Year")
  {
    if |lines| == 0 then 0
    else if StartsWith(lines[0], "Year") then 1
    else
      var rest := HeaderEnd(lines[1..]);
      assert forall i :: 1 <= i < |lines| ==> lines[i] == lines[1..][i - 1];
      if rest == 0 then 0 else rest + 1
  }

  /** The search loop of lines 86-90, which stops at the first `Year` line. */
  method TempStart(lines: seq<string>) returns (start: nat)
    ensures start == HeaderEnd(lines)
  {
    start := 0;
    var i := 0;
    while i < |lines|
      invariant 0 <= i <= |lines|
      invariant forall j :: 0 <= j < i ==> !StartsWith(lines[j], "Year")
    {
      if StartsWith(lines[i], "Year") {
        start := i + 1;
        break;
      }
      i := i + 1;
    }
  }

  /**
   * Lines 94-96: the comma-separated fields, stripped; a line with no comma
   * is split on white space instead.
   */
  function TempFields(line: string): (parts: seq<string>)
    ensures |Split(line, ',')| > 1 ==> parts == StripAll(Split(line, ','))
    ensures |Split(line, ',')| <= 1 ==> parts == SplitWhitespace(Strip(line))
  {
    var parts := StripAll(Split(line, ','));
    if |parts| <= 1 then NonEmpty(SplitWhitespace(Strip(line))) else parts
  }

  /** The markers GISTEMP writes for a month without data. */
  predicate IsMissing(s: string)
    ensures IsMissing(s) <==> s in ["***", "NA", "-"]
    ensures IsMissing(s) ==> 0 < |s| <= 3 && forall i :: 0 <= i < |s| ==> !IsDigit(s[i])
  {
    s == "***" || s == "NA" || s == "-"
  }

  /** GISTEMP anomalies come in hundredths or tenths of a degree (line 107). */
  function Rescale(x: real): (v: real)
    ensures v * (if x > 50.0 || x < -50.0 then 100.0 else 10.0) == x
  {
    var magnitude := if x < 0.0 then -x else x;
    if magnitude > 50.0 then x / 100.0 else x / 10.0
  }

  /**
   * The month loop of lines 101-109 from month `m` on: one point per month
   * column present and not missing; a value that does not parse ends the
   * loop (the exception handler of line 110 keeps what was appended).
   */
  function MonthPoints(year: int, parts: seq<string>, m: nat, parseReal: string -> Option<real>): (ps: seq<Point>)
    requires m >= 1
    ensures forall p :: p in ps ==>
      exists k :: m <= k <= 12 && k < |parts| && !IsMissing(parts[k]) && parseReal(parts[k]).Some? &&
        p == Point(MonthKey(year, k), Rescale(parseReal(parts[k]).value))
    decreases 13 - m
  {
    if m > 12 || m >= |parts| then []
    else if IsMissing(parts[m]) then MonthPoints(year, parts, m + 1, parseReal)
    else
      match parseReal(parts[m])
      case None => []
      case Some(x) => [Point(MonthKey(year, m), Rescale(x))] + MonthPoints(year, parts, m + 1, parseReal)
  }

  /**
   * A month value that does not parse ends the line: the line yields what it
   * would have yielded had it stopped just before that field.
   */
  lemma {:induction false} MonthPointsAbort(year: int, parts: seq<string>, k: nat, m: nat,
                                            parseReal: string -> Option<real>)
    requires 1 <= k <= m <= 12 && m < |parts|
    requires !IsMissing(parts[m]) && parseReal(parts[m]).None?
    ensures MonthPoints(year, parts, k, parseReal) == MonthPoints(year, parts[..m], k, parseReal)
    decreases m - k
  {
    if k < m {
      assert parts[..m][k] == parts[k];
      MonthPointsAbort(year, parts, k + 1, m, parseReal);
    }
  }

  /**
   * Month column `k` yields a point from month `m` on: it is present, not
   * missing and parses, and every column before it from `m` on is missing or
   * parses (a value that does not parse ends the loop).
   */
  predicate MonthAccepted(parts: seq<string>, m: nat, k: nat, parseReal: string -> Option<real>) {
    && m <= k <= 12 && k < |parts| && !IsMissing(parts[k]) && parseReal(parts[k]).Some?
    && forall j :: m <= j < k ==> IsMissing(parts[j]) || parseReal(parts[j]).Some?
  }

  /** The month loop yields exactly the points of the accepted month columns. */
  lemma {:induction false} MonthPointsMembers(year: int, parts: seq<string>, m: nat,
                                              parseReal: string -> Option<real>, p: Point)
    requires m >= 1
    ensures p in MonthPoints(year, parts, m, parseReal) <==>
      exists k: nat :: MonthAccepted(parts, m, k, parseReal) &&
        p == Point(MonthKey(year, k), Rescale(parseReal(parts[k]).value))
    decreases 13 - m
  {
    if m > 12 || m >= |parts| {
    } else if IsMissing(parts[m]) || parseReal(parts[m]).Some? {
      MonthPointsMembers(year, parts, m + 1, parseReal, p);
      forall k | m < k
        ensures MonthAccepted(parts, m, k, parseReal) <==> MonthAccepted(parts, m + 1, k, parseReal)
      {
      }
      if !IsMissing(parts[m]) && p == Point(MonthKey(year, m), Rescale(parseReal(parts[m]).value)) {
        assert MonthAccepted(parts, m, m, parseReal);
      }
    }
  }

  /** Everything one data line of the temperature table contributes (lines 92-111). */
  function TempLinePoints(line: string, parseInt: string -> Option<int>,
                          parseReal: string -> Option<real>): (ps: seq<Point>)
    ensures ps != [] ==> NonSpace(line) != "" && parseInt(TempFields(line)[0]).Some?
    ensures Strip(line) != "" && TempFields(line) != [] && parseInt(TempFields(line)[0]).Some? ==>
      ps == MonthPoints(parseInt(TempFields(line)[0]).value, TempFields(line), 1, parseReal)
  {
    if Strip(line) == "" then []
    else
      var parts := TempFields(line);
      if parts == [] then []
      else
        match parseInt(parts[0])
        case None => []
        case Some(year) => MonthPoints(year, parts, 1, parseReal)
  }

  /** The points of the lines from `start` on, in the order they are appended. */
  function TempData(lines: seq<string>, parseInt: string -> Option<int>,
                    parseReal: string -> Option<real>): (ps: seq<Point>)
    ensures forall p :: p in ps ==>
      exists i :: 0 <= i < |lines| && p in TempLinePoints(lines[i], parseInt, parseReal)
  {
    Flatten(lines, line => TempLinePoints(line, parseInt, parseReal))
  }

  /** The line loop collects exactly the points of the lines it reads. */
  lemma TempDataMembers(lines: seq<string>, parseInt: string -> Option<int>,
                        parseReal: string -> Option<real>, p: Point)
    ensures p in TempData(lines, parseInt, parseReal) <==>
      exists i :: 0 <= i < |lines| && p in TempLinePoints(lines[i], parseInt, parseReal)
  {
    FlattenMembers(lines, line => TempLinePoints(line, parseInt, parseReal), p);
  }

  /**
   * The rows `fetch_temp` returns when the download succeeded: the points of
   * the lines after the `Year` header, sorted by key.
   */
  function TempRows(lines: seq<string>, start: nat, parseInt: string -> Option<int>,
                    parseReal: string -> Option<real>): (ps: seq<Point>)
    requires start <= |lines|
    ensures SortedByTime(ps)
  {
    SortByTime(TempData(lines[start..], parseInt, parseReal))
  }

  /** The downloaded temperature rows are exactly the points of the lines after the header. */
  lemma TempRowsMembers(lines: seq<string>, start: nat, parseInt: string -> Option<int>,
                        parseReal: string -> Option<real>, p: Point)
    requires start <= |lines|
    ensures p in TempRows(lines, start, parseInt, parseReal) <==>
      exists i :: start <= i < |lines| && p in TempLinePoints(lines[i], parseInt, parseReal)
  {
    var body := lines[start..];
    assert p in TempRows(lines, start, parseInt, parseReal) <==> p in multiset(TempData(body, parseInt, parseReal));
    TempDataMembers(body, parseInt, parseReal, p);
    forall i | start <= i < |lines|
      ensures body[i - start] == lines[i]
    {
    }
    if p in TempRows(lines, start, parseInt, parseReal) {
      var i :| 0 <= i < |body| && p in TempLinePoints(body[i], parseInt, parseReal);
      assert lines[start + i] == body[i];
    }
  }

  /**
   * The body of the line loop of lines 92-111: the points one line appends,
   * the month loop stopping at the first value that does not parse.
   */
  method LineMonths(line: string, parseInt: string -> Option<int>, parseReal: string -> Option<real>)
    returns (pts: seq<Point>)
    ensures pts == TempLinePoints(line, parseInt, parseReal)
  {
    pts := [];
    if Strip(line) == "" {
      return;
    }
    var parts := TempFields(line);
    if parts == [] {
      return;
    }
    var year := parseInt(parts[0]);
    if year.None? {
      return;
    }
    pts := MonthLoop(year.value, parts, parseReal);
  }

  /** The month loop of lines 101-109 for one line's fields. */
  method MonthLoop(year: int, parts: seq<string>, parseReal: string -> Option<real>) returns (pts: seq<Point>)
    ensures pts == MonthPoints(year, parts, 1, parseReal)
  {
    pts := [];
    var m := 1;
    while m < 13
      invariant 1 <= m <= 13
      invariant MonthPoints(year, parts, 1, parseReal) == pts + MonthPoints(year, parts, m, parseReal)
    {
      if m >= |parts| {
        break;
      }
      var valStr := parts[m];
      if IsMissing(valStr) {
        m := m + 1;
        continue;
      }
      var x := parseReal(valStr);
      if x.None? {
        break;
      }
      pts := pts + [Point(MonthKey(year, m), Rescale(x.value))];
      m := m + 1;
    }
  }

  /** The loops of lines 91-112: each line's points in turn, then the sort. */
  method TempPoints(lines: seq<string>, start: nat, parseInt: string -> Option<int>,
                    parseReal: string -> Option<real>)
    returns (data: seq<Point>)
    requires start <= |lines|
    ensures data == TempRows(lines, start, parseInt, parseReal)
  {
    var body := lines[start..];
    data := [];
    for i := 0 to |body|
      invariant data == TempData(body[..i], parseInt, parseReal)
    {
      assert body[..i + 1][..i] == body[..i];
      var pts := LineMonths(body[i], parseInt, parseReal);
      data := data + pts;
    }
    assert body[..|body|] == body;
    data := SortByTime(data);
  }

  /**
   * `fetch_temp`. `text` is the download split into lines, `None` when it
   * raised; `fallbackRows` are the rows of the local `temp.csv`.
   */
  method FetchTemp(text: Option<seq<string>>, fallbackRows: Option<seq<Row>>,
                   parseInt: string -> Option<int>, parseReal: string -> Option<real>)
    returns (points: seq<Point>)
    ensures text.Some? && TempRows(text.value, HeaderEnd(text.value), parseInt, parseReal) != [] ==>
      points == TempRows(text.value, HeaderEnd(text.value), parseInt, parseReal)
    ensures text.None? || TempRows(text.value, HeaderEnd(text.value), parseInt, parseReal) == [] ==>
      points == CsvPairs(fallbackRows, true, None, parseReal)
    ensures SortedByTime(points)
  {
    if text.Some? {
      var lines := text.value;
      var start := TempStart(lines);
      var data := TempPoints(lines, start, parseInt, parseReal);
      if data != [] {
        return data;
      }
      points := ReadCsvPairs(fallbackRows, true, None, parseReal);
      return;
    }
    points := ReadCsvPairs(fallbackRows, true, None, parseReal);
  }
}
