/** Calendar days as the client handles them: a `java.util.Date` reduced to
    its (year, month, day) in the local calendar, its `yyyy-MM-dd` text as
    `SimpleDateFormat` writes it, the parse that reads that text back, and
    the strict day order that `Date.before` gives against a parsed midnight. */
module Dates {
  import opened Outcomes
  import opened Decimal

  datatype Date = Date(year: int, month: int, day: int)

  predicate IsLeapYear(y: int) {
    (y % 4 == 0 && y % 100 != 0) || y % 400 == 0
  }

  function DaysInMonth(y: int, m: int): (n: int)
    requires 1 <= m <= 12
    ensures 28 <= n <= 31
  {
    if m == 2 then (if IsLeapYear(y) then 29 else 28)
    else if m == 4 || m == 6 || m == 9 || m == 11 then 30
    else 31
  }

  /** A day of the proleptic Gregorian calendar, year 1 onwards. */
  predicate IsCalendarDay(d: Date) {
    1 <= d.year && 1 <= d.month <= 12 && 1 <= d.day <= DaysInMonth(d.year, d.month)
  }

  type Day = d: Date | IsCalendarDay(d) witness Date(1970, 1, 1)

  /** A number that grows with the day: months and days of a calendar day
      fit below 13 and 32. */
  function DayKey(d: Date): int {
    (d.year * 13 + d.month) * 32 + d.day
  }

  /** Strictly earlier calendar day: on calendar days, exactly a smaller
      day key. */
  function Before(a: Date, b: Date): (r: bool)
    ensures IsCalendarDay(a) && IsCalendarDay(b) ==> (r <==> DayKey(a) < DayKey(b))
  {
    || a.year < b.year
    || (a.year == b.year && a.month < b.month)
    || (a.year == b.year && a.month == b.month && a.day < b.day)
  }

  /** Zero-padding on the left up to width `w`; longer text is kept whole. */
  function PadLeft(s: string, w: nat): (r: string)
    ensures |r| == if |s| >= w then |s| else w
    decreases w - |s|
  {
    if |s| >= w then s else PadLeft(['0'] + s, w)
  }

  /** The `yyyy-MM-dd` text of a day: at least four digits of year, then a
      dash, two digits of month, a dash and two digits of day. */
  function FormatDate(d: Day): (s: string)
    ensures |s| >= 10 && s[|s| - 6] == '-' && s[|s| - 3] == '-'
    ensures AllDigits(s[..|s| - 6]) && AllDigits(s[|s| - 5..|s| - 3]) && AllDigits(s[|s| - 2..])
  {
    ShortNatToString(d.month);
    ShortNatToString(d.day);
    PadLeftValue(NatToString(d.year), 4);
    PadLeftValue(NatToString(d.month), 2);
    PadLeftValue(NatToString(d.day), 2);
    var y := PadLeft(NatToString(d.year), 4);
    var m := PadLeft(NatToString(d.month), 2);
    var dd := PadLeft(NatToString(d.day), 2);
    var s := y + "-" + m + "-" + dd;
    assert s[..|s| - 6] == y && s[|s| - 5..|s| - 3] == m && s[|s| - 2..] == dd;
    s
  }

  /** A number below 100 has at most two digits. */
  lemma ShortNatToString(n: nat)
    requires n < 100
    ensures |NatToString(n)| <= 2
  {
    NatToStringValue(n);
    if |NatToString(n)| > 2 {
      CanonicalAtLeast(NatToString(n), 2);
    }
  }

  /** Reads `<digits>-<2 digits>-<2 digits>`; the partner of `FormatDate`.
      Month and day read back below 100. */
  function ParseDate(s: string): (r: Option<Date>)
    ensures r.Some? ==> 0 <= r.value.year && 0 <= r.value.month < 100 && 0 <= r.value.day < 100
  {
    var n := |s|;
    if n >= 7 && s[n - 6] == '-' && s[n - 3] == '-'
       && AllDigits(s[..n - 6]) && AllDigits(s[n - 5..n - 3]) && AllDigits(s[n - 2..])
    then
      DigitsValueBound(s[n - 5..n - 3]);
      DigitsValueBound(s[n - 2..]);
      Some(Date(DigitsValue(s[..n - 6]), DigitsValue(s[n - 5..n - 3]), DigitsValue(s[n - 2..])))
    else None
  }

  /** Leading zeros do not change the value of a digit string. */
  lemma {:induction false} PadLeftValue(s: string, w: nat)
    requires AllDigits(s)
    ensures AllDigits(PadLeft(s, w)) && DigitsValue(PadLeft(s, w)) == DigitsValue(s)
    decreases w - |s|
  {
    if |s| < w {
      LeadingZeroValue(s);
      PadLeftValue(['0'] + s, w);
    }
  }

  lemma {:induction false} LeadingZeroValue(s: string)
    requires AllDigits(s)
    ensures AllDigits(['0'] + s) && DigitsValue(['0'] + s) == DigitsValue(s)
  {
    if s != [] {
      var t := ['0'] + s;
      assert t[..|t| - 1] == ['0'] + s[..|s| - 1];
      LeadingZeroValue(s[..|s| - 1]);
    }
  }

  /** Reading back the text of a day gives the day: the source's
      ParseException handler can never run. */
  lemma ParseFormatDate(d: Day)
    ensures ParseDate(FormatDate(d)) == Some(d)
  {
    var y := PadLeft(NatToString(d.year), 4);
    var m := PadLeft(NatToString(d.month), 2);
    var dd := PadLeft(NatToString(d.day), 2);
    PadLeftValue(NatToString(d.year), 4);
    PadLeftValue(NatToString(d.month), 2);
    PadLeftValue(NatToString(d.day), 2);
    NatToStringValue(d.year);
    NatToStringValue(d.month);
    NatToStringValue(d.day);
    ShortNatToString(d.month);
    ShortNatToString(d.day);
    var s := FormatDate(d);
    var n := |s|;
    assert s == y + "-" + m + "-" + dd;
    assert s[..n - 6] == y;
    assert s[n - 5..n - 3] == m;
    assert s[n - 2..] == dd;
  }

  /** Distinct days have distinct texts. */
  lemma FormatDateInjective(a: Day, b: Day)
    ensures FormatDate(a) == FormatDate(b) ==> a == b
  {
    ParseFormatDate(a);
    ParseFormatDate(b);
  }

  /** `Before` is the strict total order of calendar days. */
  lemma BeforeIsStrictTotalOrder(a: Date, b: Date, c: Date)
    ensures !Before(a, a)
    ensures Before(a, b) ==> !Before(b, a)
    ensures Before(a, b) && Before(b, c) ==> Before(a, c)
    ensures a != b ==> Before(a, b) || Before(b, a)
  {
  }
}
