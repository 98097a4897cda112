/**
 * Calendar dates in the extended format `YYYY-MM-DD` of section 4.1.2.2 of
 * ISO 8601:2004, the way app/forecast.py and app/services/fetchers.py read
 * them (`datetime.fromisoformat`) and write them (`f"{year:04d}-{month:02d}-01"`).
 */
module IsoDate {
  import opened Wrappers

  datatype Date = Date(year: int, month: int, day: int)

  predicate IsDigit(c: char) {
    '0' <= c <= '9'
  }

  predicate AllDigits(s: string) {
    forall i :: 0 <= i < |s| ==> IsDigit(s[i])
  }

  function DigitChar(d: nat): (c: char)
    requires d < 10
    ensures IsDigit(c)
  {
    (48 + d) as char
  }

  function DigitValue(c: char): nat
    requires IsDigit(c)
  {
    c as int - 48
  }

  function Pow10(w: nat): nat {
    if w == 0 then 1 else 10 * Pow10(w - 1)
  }

  /** The decimal numeral of `n`, without leading zeros. */
  function Decimal(n: nat): (s: string)
    ensures 1 <= |s| && AllDigits(s)
    decreases n
  {
    if n < 10 then [DigitChar(n)] else Decimal(n / 10) + [DigitChar(n % 10)]
  }

  /** The number a string of decimal digits denotes (leading zeros allowed). */
  function NumeralValue(s: string): nat
    requires AllDigits(s)
    decreases |s|
  {
    if s == [] then 0 else NumeralValue(s[..|s| - 1]) * 10 + DigitValue(s[|s| - 1])
  }

  function Zeros(k: nat): (z: string)
    ensures |z| == k && AllDigits(z)
  {
    seq(k, _ => '0')
  }

  function ZeroPad(s: string, width: nat): string {
    if |s| >= width then s else Zeros(width - |s|) + s
  }

  /**
   * Python's `f"{n:0<width>d}"`: the sign first, then the digits, padded
   * with zeros so that the whole is at least `width` characters long.
   */
  function FormatInt(n: int, width: nat): (s: string)
    ensures |s| >= width
  {
    if n < 0 then "-" + ZeroPad(Decimal(-n), if width == 0 then 0 else width - 1)
    else ZeroPad(Decimal(n), width)
  }

  predicate IsLeapYear(y: int) {
    y % 4 == 0 && (y % 100 != 0 || y % 400 == 0)
  }

  function DaysInMonth(y: int, m: int): int
    requires 1 <= m <= 12
  {
    if m == 2 then (if IsLeapYear(y) then 29 else 28)
    else if m == 4 || m == 6 || m == 9 || m == 11 then 30
    else 31
  }

  /** The dates Python's `datetime` can represent. */
  predicate ValidDate(d: Date) {
    1 <= d.year <= 9999 && 1 <= d.month <= 12 && 1 <= d.day <= DaysInMonth(d.year, d.month)
  }

  /** `YYYY-MM-DD`, each field zero-padded. */
  function FormatDate(d: Date): string {
    FormatInt(d.year, 4) + "-" + FormatInt(d.month, 2) + "-" + FormatInt(d.day, 2)
  }

  /** `f"{year:04d}-{month:02d}-01"`: the key of a month, as every parser writes it. */
  function MonthKey(year: int, month: int): (k: string)
    ensures |k| >= 10
  {
    FormatInt(year, 4) + "-" + FormatInt(month, 2) + "-01"
  }

  /** A month key is the padded year, a dash, the padded month and day `01`. */
  lemma MonthKeyShape(year: int, month: int)
    ensures var k, y := MonthKey(year, month), FormatInt(year, 4);
      k[..|y|] == y && k[|y|] == '-' && k[|y| + 1..|k| - 3] == FormatInt(month, 2) && k[|k| - 3..] == "-01"
  {
    KeyShape(FormatInt(year, 4), FormatInt(month, 2), "-01");
  }

  lemma KeyShape(y: string, m: string, day: string)
    requires |day| == 3
    ensures var k := y + "-" + m + day;
      k[..|y|] == y && k[|y|] == '-' && k[|y| + 1..|k| - 3] == m && k[|k| - 3..] == day
  {
    var k := y + "-" + m + day;
    assert k == (y + "-" + m) + day;
  }

  /**
   * `datetime.fromisoformat` on an extended-format calendar date: `None`
   * stands for the `ValueError` it raises.
   */
  function ParseIsoDate(s: string): (r: Option<Date>)
    ensures r.Some? ==> |s| == 10 && ValidDate(r.value)
  {
    if |s| == 10 && s[4] == '-' && s[7] == '-'
       && AllDigits(s[..4]) && AllDigits(s[5..7]) && AllDigits(s[8..])
    then
      var d := Date(NumeralValue(s[..4]), NumeralValue(s[5..7]), NumeralValue(s[8..]));
      if ValidDate(d) then Some(d) else None
    else None
  }

  /** Months counted from January of year 0: the calendar month as one number. */
  function MonthIndex(year: int, month: int): int {
    year * 12 + (month - 1)
  }

  /** The key of the month with index `k`. */
  function MonthKeyAt(k: nat): string {
    MonthKey(k / 12, k % 12 + 1)
  }

  /**
   * `_next_month_str`: the first day of the month after the date `s` names,
   * rolling December over to January of the next year. `None` when `s`
   * is not a date.
   */
  function NextMonthStr(s: string): (r: Option<string>)
    ensures r.Some? <==> ParseIsoDate(s).Some?
  {
    match ParseIsoDate(s)
    case None => None
    case Some(d) =>
      var year := d.year + (if d.month == 12 then 1 else 0);
      var month := if d.month == 12 then 1 else d.month + 1;
      Some(MonthKey(year, month))
  }

  // ----- Numerals -----

  lemma {:induction false} DecimalValue(n: nat)
    ensures NumeralValue(Decimal(n)) == n
    decreases n
  {
    if n >= 10 {
      DecimalValue(n / 10);
      var s := Decimal(n);
      assert s[..|s| - 1] == Decimal(n / 10);
    }
  }

  lemma {:induction false} ZerosValue(k: nat)
    ensures NumeralValue(Zeros(k)) == 0
  {
    if k > 0 {
      assert Zeros(k)[..k - 1] == Zeros(k - 1);
      ZerosValue(k - 1);
    }
  }

  lemma {:induction false} LeadingZerosValue(k: nat, s: string)
    requires AllDigits(s)
    ensures AllDigits(Zeros(k) + s) && NumeralValue(Zeros(k) + s) == NumeralValue(s)
    decreases |s|
  {
    var z := Zeros(k) + s;
    if s == [] {
      assert z == Zeros(k);
      ZerosValue(k);
    } else {
      assert z[..|z| - 1] == Zeros(k) + s[..|s| - 1];
      LeadingZerosValue(k, s[..|s| - 1]);
    }
  }

  lemma {:induction false} DecimalShort(n: nat, w: nat)
    requires 1 <= w && n < Pow10(w)
    ensures |Decimal(n)| <= w
    decreases w
  {
    if n >= 10 {
      DecimalShort(n / 10, w - 1);
    }
  }

  lemma {:induction false} DecimalLong(n: nat, w: nat)
    requires Pow10(w) <= n
    ensures |Decimal(n)| > w
    decreases w
  {
    if w > 0 {
      DecimalLong(n / 10, w - 1);
    }
  }

  /** A non-negative number below 10^w prints as exactly w digits that read back as it. */
  lemma FormatIntFixed(n: nat, w: nat)
    requires 1 <= w && n < Pow10(w)
    ensures |FormatInt(n, w)| == w && AllDigits(FormatInt(n, w))
    ensures NumeralValue(FormatInt(n, w)) == n
  {
    DecimalShort(n, w);
    DecimalValue(n);
    if |Decimal(n)| < w {
      LeadingZerosValue(w - |Decimal(n)|, Decimal(n));
    }
  }

  lemma {:induction false} AllZeros(p: string)
    requires AllDigits(p) && NumeralValue(p) == 0
    ensures p == Zeros(|p|)
    decreases |p|
  {
    if p != [] {
      AllZeros(p[..|p| - 1]);
      assert p == p[..|p| - 1] + [p[|p| - 1]];
    }
  }

  lemma ZeroPadSnoc(d: string, c: char, w: nat)
    requires |d| <= w
    ensures ZeroPad(d + [c], w + 1) == ZeroPad(d, w) + [c]
  {
    if |d| < w {
      assert Zeros(w - |d|) + d + [c] == Zeros(w - |d|) + (d + [c]);
    }
  }

  /** A string of w digits is what FormatInt prints, at width w, for the number it denotes. */
  lemma {:induction false} NumeralFormat(s: string)
    requires 1 <= |s| && AllDigits(s)
    ensures FormatInt(NumeralValue(s), |s|) == s
    decreases |s|
  {
    var p, c := s[..|s| - 1], s[|s| - 1];
    assert s == p + [c];
    var v, q := NumeralValue(s), NumeralValue(p);
    assert DigitChar(DigitValue(c)) == c;
    if q == 0 {
      AllZeros(p);
      assert Decimal(v) == [c];
      assert Zeros(|p|) + [c] == s;
    } else {
      NumeralFormat(p);
      assert v / 10 == q && v % 10 == DigitValue(c);
      assert Decimal(v) == Decimal(q) + [c];
      ZeroPadSnoc(Decimal(q), c, |p|);
    }
  }

  // ----- Dates -----

  lemma ParseFormatRoundTrip(d: Date)
    requires ValidDate(d)
    ensures ParseIsoDate(FormatDate(d)) == Some(d)
  {
    assert Pow10(4) == 10000 && Pow10(2) == 100 by {
      assert Pow10(1) == 10 && Pow10(3) == 1000;
    }
    FormatIntFixed(d.year, 4);
    FormatIntFixed(d.month, 2);
    FormatIntFixed(d.day, 2);
    var a, b, c := FormatInt(d.year, 4), FormatInt(d.month, 2), FormatInt(d.day, 2);
    var s := FormatDate(d);
    assert s == a + "-" + b + "-" + c;
    assert s[..4] == a && s[5..7] == b && s[8..] == c;
  }

  lemma FormatParseRoundTrip(s: string)
    requires ParseIsoDate(s).Some?
    ensures FormatDate(ParseIsoDate(s).value) == s
  {
    NumeralFormat(s[..4]);
    NumeralFormat(s[5..7]);
    NumeralFormat(s[8..]);
    assert s == s[..4] + "-" + s[5..7] + "-" + s[8..];
  }

  // ----- Month keys -----

  lemma MonthKeyIsFirstOfMonth(year: int, month: int)
    ensures MonthKey(year, month) == FormatDate(Date(year, month, 1))
  {
    assert Decimal(1) == ['1'];
    assert FormatInt(1, 2) == "01";
  }

  /** Every month key of years 1..9999 reads back as the first day of that month. */
  lemma MonthKeyAtParses(k: nat)
    requires 12 <= k < 120000
    ensures ParseIsoDate(MonthKeyAt(k)) == Some(Date(k / 12, k % 12 + 1, 1))
  {
    MonthKeyIsFirstOfMonth(k / 12, k % 12 + 1);
    ParseFormatRoundTrip(Date(k / 12, k % 12 + 1, 1));
  }

  /** From year 10000 on, a month key has a five-digit year and is no longer a date. */
  lemma MonthKeyAtPastRange(k: nat)
    requires 120000 <= k
    ensures ParseIsoDate(MonthKeyAt(k)) == None
  {
    assert Pow10(4) == 10000 by {
      assert Pow10(1) == 10 && Pow10(2) == 100 && Pow10(3) == 1000;
    }
    DecimalLong(k / 12, 4);
  }

  /** The month index of a timestamp that is a date. */
  function MonthIndexOf(s: string): (k: nat)
    requires ParseIsoDate(s).Some?
    ensures 12 <= k < 120000
  {
    MonthIndex(ParseIsoDate(s).value.year, ParseIsoDate(s).value.month)
  }

  /** The successor of a date is the month key one month index later. */
  lemma NextMonthIsNextKey(s: string)
    requires ParseIsoDate(s).Some?
    ensures NextMonthStr(s) == Some(MonthKeyAt(MonthIndexOf(s) + 1))
  {
    var d := ParseIsoDate(s).value;
    var k := MonthIndexOf(s) + 1;
    assert k == d.year * 12 + d.month;
    if d.month == 12 {
      assert k / 12 == d.year + 1 && k % 12 == 0;
    } else {
      assert k / 12 == d.year && k % 12 == d.month;
    }
  }

  /**
   * The successor `NextMonthStr` writes is again a date, one month index
   * further, unless it passes December 9999; then it is no date at all.
   */
  lemma NextMonthIndex(s: string)
    requires ParseIsoDate(s).Some?
    ensures MonthIndexOf(s) + 1 < 120000 ==>
      ParseIsoDate(NextMonthStr(s).value).Some? && MonthIndexOf(NextMonthStr(s).value) == MonthIndexOf(s) + 1
    ensures MonthIndexOf(s) + 1 >= 120000 ==> ParseIsoDate(NextMonthStr(s).value).None?
  {
    var k := MonthIndexOf(s) + 1;
    NextMonthIsNextKey(s);
    if k < 120000 {
      MonthKeyAtParses(k);
      assert k / 12 * 12 + k % 12 == k;
    } else {
      MonthKeyAtPastRange(k);
    }
  }

  /**
   * December rolls over to January of the next year, any other month moves to
   * the next month of the same year; either way the day becomes 1.
   */
  lemma NextMonthRollover(s: string)
    requires ParseIsoDate(s).Some?
    ensures var d := ParseIsoDate(s).value;
      d.month < 12 ==> ParseIsoDate(NextMonthStr(s).value) == Some(Date(d.year, d.month + 1, 1))
    ensures var d := ParseIsoDate(s).value;
      d.month == 12 && d.year < 9999 ==> ParseIsoDate(NextMonthStr(s).value) == Some(Date(d.year + 1, 1, 1))
  {
    var d := ParseIsoDate(s).value;
    var k := MonthIndexOf(s) + 1;
    NextMonthIsNextKey(s);
    assert k == d.year * 12 + d.month;
    if d.month == 12 {
      assert k / 12 == d.year + 1 && k % 12 == 0;
      if d.year < 9999 {
        MonthKeyAtParses(k);
      }
    } else {
      assert k / 12 == d.year && k % 12 == d.month;
      MonthKeyAtParses(k);
    }
  }

  /** There is no thirteenth month: `2020-13-01` is not a date. */
  lemma MonthThirteenIsNoDate()
    ensures ParseIsoDate("2020-13-01").None?
  {
    var s := "2020-13-01";
    assert s[5..7] == "13";
    assert NumeralValue("1") == 1;
    assert NumeralValue("13") == 13;
  }

  /** Within a year the successor of a month key is the next month's key. */
  lemma NextMonthOfKey(year: int, month: int)
    requires 1 <= year <= 9999 && 1 <= month <= 11
    ensures NextMonthStr(MonthKey(year, month)) == Some(MonthKey(year, month + 1))
  {
    MonthKeyIsFirstOfMonth(year, month);
    ParseFormatRoundTrip(Date(year, month, 1));
  }

  lemma MonthKeys2020(may: string, june: string, july: string)
    requires may == "2020-05-01" && june == "2020-06-01" && july == "2020-07-01"
    ensures MonthKey(2020, 5) == may && MonthKey(2020, 6) == june && MonthKey(2020, 7) == july
  {
    assert Decimal(2020) == "2020" by {
      assert Decimal(2) == "2" && Decimal(20) == "20" && Decimal(202) == "202";
    }
    assert Decimal(5) == "5" && Decimal(6) == "6" && Decimal(7) == "7" && Decimal(1) == "1";
  }

  /** May 2020 is followed by June and then July. */
  lemma May2020Successors(may: string, june: string, july: string)
    requires may == "2020-05-01" && june == "2020-06-01" && july == "2020-07-01"
    ensures ParseIsoDate(may).Some? && MonthIndexOf(may) == 2020 * 12 + 4
    ensures NextMonthStr(may) == Some(june) && NextMonthStr(june) == Some(july)
  {
    MonthKeys2020(may, june, july);
    MonthKeyIsFirstOfMonth(2020, 5);
    ParseFormatRoundTrip(Date(2020, 5, 1));
    NextMonthOfKey(2020, 5);
    NextMonthOfKey(2020, 6);
  }

  /** The numerals of December 2023 and of the month after it. */
  lemma DecemberNumerals()
    ensures Decimal(2023) == "2023" && Decimal(2024) == "2024"
    ensures Decimal(12) == "12" && Decimal(1) == "1"
  {
    assert Decimal(2) == "2";
    assert Decimal(20) == "20";
    assert Decimal(202) == "202";
  }

  /** December rolls over into January of the next year. */
  lemma NextMonthDecember()
    ensures NextMonthStr("2023-12-01") == Some("2024-01-01")
  {
    var d := Date(2023, 12, 1);
    DecemberNumerals();
    assert FormatDate(d) == "2023-12-01";
    ParseFormatRoundTrip(d);
    assert MonthKey(2024, 1) == "2024-01-01";
  }
}
