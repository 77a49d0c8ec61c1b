/** Civil (timezone-free) calendar dates in the proleptic Gregorian calendar:
    the part of Ruby's `Date` that the rent schedule relies on. A date carries
    an ordinal day number, day arithmetic, month arithmetic with the day
    clamped to the end of the month (`Date#>>`), comparison, and the ISO 8601
    extended calendar-date text `YYYY-MM-DD` (section 4.1.2.2 of ISO 8601:2004). */
module CivilDate {

  /** Year, month and day; not every triple names a date. */
  datatype Ymd = Ymd(year: int, month: int, day: int)

  predicate IsLeapYear(y: int) {
    y % 4 == 0 && (y % 100 != 0 || y % 400 == 0)
  }

  function DaysInYear(y: int): int {
    if IsLeapYear(y) then 366 else 365
  }

  function DaysInMonth(y: int, m: int): (n: int)
    requires 1 <= m <= 12
    ensures 28 <= n <= 31
    ensures n == 29 <==> m == 2 && IsLeapYear(y)
  {
    if m == 2 then (if IsLeapYear(y) then 29 else 28)
    else if m == 4 || m == 6 || m == 9 || m == 11 then 30
    else 31
  }

  predicate IsValid(d: Ymd) {
    1 <= d.month <= 12 && 1 <= d.day <= DaysInMonth(d.year, d.month)
  }

  /** A date that exists in the proleptic Gregorian calendar. */
  type Date = d: Ymd | IsValid(d) witness Ymd(2000, 1, 1)

  /** Days of year `y` that come before the first of month `m`. */
  function DaysBeforeMonth(y: int, m: int): int
    requires 1 <= m <= 12
  {
    (match m
     case 1 => 0 case 2 => 31 case 3 => 59 case 4 => 90
     case 5 => 120 case 6 => 151 case 7 => 181 case 8 => 212
     case 9 => 243 case 10 => 273 case 11 => 304 case _ => 334)
    + (if m > 2 && IsLeapYear(y) then 1 else 0)
  }

  /** Days from 0001-01-01 to the first of January of year `y` (negative
      before year 1): the lengths of the years in between, added up. */
  function DaysBeforeYear(y: int): int
    decreases if y >= 1 then y - 1 else 1 - y
  {
    if y == 1 then 0
    else if y > 1 then DaysBeforeYear(y - 1) + DaysInYear(y - 1)
    else DaysBeforeYear(y + 1) - DaysInYear(y)
  }

  /** The ordinal day number: 0001-01-01 is day 0, and consecutive days have
      consecutive numbers (Ruby counts from another origin, which is
      immaterial to everything below). */
  function Ordinal(d: Date): int {
    DaysBeforeYear(d.year) + DaysBeforeMonth(d.year, d.month) + d.day - 1
  }

  /** Strictly earlier: Ruby's `Date#<`. */
  predicate Less(a: Date, b: Date) {
    a.year < b.year
    || (a.year == b.year && (a.month < b.month || (a.month == b.month && a.day < b.day)))
  }

  /** On or after: Ruby's `Date#>=`. */
  predicate AtLeast(a: Date, b: Date) {
    !Less(a, b)
  }

  // ---------------------------------------------------------------------
  // The ordinal numbering

  /** One year later the day count has grown by that year's length. */
  lemma YearLength(y: int)
    ensures DaysBeforeYear(y + 1) == DaysBeforeYear(y) + DaysInYear(y)
  {
  }

  lemma {:induction false} DaysBeforeYearMonotone(y1: int, y2: int)
    requires y1 <= y2
    ensures DaysBeforeYear(y1) + (if y1 < y2 then DaysInYear(y1) else 0) <= DaysBeforeYear(y2)
    decreases y2 - y1
  {
    if y1 < y2 {
      YearLength(y1);
      if y1 + 1 < y2 {
        DaysBeforeYearMonotone(y1 + 1, y2);
      }
    }
  }

  /** Every day of a year has an ordinal inside that year's span. */
  lemma OrdinalWithinYear(d: Date)
    ensures DaysBeforeYear(d.year) <= Ordinal(d) < DaysBeforeYear(d.year) + DaysInYear(d.year)
  {
  }

  /** Comparison by calendar fields and comparison by day number agree. */
  lemma LessIsOrdinalLess(a: Date, b: Date)
    ensures Less(a, b) <==> Ordinal(a) < Ordinal(b)
  {
    if a.year != b.year {
      var lo, hi := if a.year < b.year then a else b, if a.year < b.year then b else a;
      OrdinalWithinYear(lo);
      OrdinalWithinYear(hi);
      DaysBeforeYearMonotone(lo.year, hi.year);
    }
  }

  /** Two dates with one day number are the same date. */
  lemma OrdinalInjective(a: Date, b: Date)
    requires Ordinal(a) == Ordinal(b)
    ensures a == b
  {
    LessIsOrdinalLess(a, b);
    LessIsOrdinalLess(b, a);
  }

  lemma LessTransitive(a: Date, b: Date, c: Date)
    requires Less(a, b) && Less(b, c)
    ensures Less(a, c)
  {
  }

  // ---------------------------------------------------------------------
  // Day arithmetic

  /** The following day. */
  function NextDay(d: Date): (r: Date)
    ensures Ordinal(r) == Ordinal(d) + 1
  {
    if d.day < DaysInMonth(d.year, d.month) then
      Ymd(d.year, d.month, d.day + 1)
    else if d.month < 12 then
      Ymd(d.year, d.month + 1, 1)
    else
      YearLength(d.year);
      Ymd(d.year + 1, 1, 1)
  }

  /** The preceding day. */
  function PrevDay(d: Date): (r: Date)
    ensures Ordinal(r) == Ordinal(d) - 1
  {
    if d.day > 1 then
      Ymd(d.year, d.month, d.day - 1)
    else if d.month > 1 then
      Ymd(d.year, d.month - 1, DaysInMonth(d.year, d.month - 1))
    else
      YearLength(d.year - 1);
      Ymd(d.year - 1, 12, 31)
  }

  /** `d + n` for Ruby's `Date`: `n` days later (earlier when `n` is negative). */
  function {:induction false} AddDays(d: Date, n: int): (r: Date)
    ensures Ordinal(r) == Ordinal(d) + n
    decreases if n < 0 then -n else n, 1
  {
    if n == 0 then d else StepDays(d, n)
  }

  /** One day towards the target, then the rest of the way. */
  function {:induction false} StepDays(d: Date, n: int): (r: Date)
    requires n != 0
    ensures Ordinal(r) == Ordinal(d) + n
    decreases if n < 0 then -n else n, 0
  {
    if n > 0 then AddDays(NextDay(d), n - 1) else AddDays(PrevDay(d), n + 1)
  }

  /** `d - n` for Ruby's `Date`. */
  function SubDays(d: Date, n: int): (r: Date)
    ensures Ordinal(r) == Ordinal(d) - n
    ensures n >= 0 ==> !Less(d, r)
  {
    LessIsOrdinalLess(d, AddDays(d, -n));
    AddDays(d, -n)
  }

  /** Day arithmetic is the day number plus the offset, so it is determined
      by the day numbers alone: adding and then subtracting gives the date back. */
  lemma AddThenSubDays(d: Date, n: int)
    ensures SubDays(AddDays(d, n), n) == d
  {
    OrdinalInjective(SubDays(AddDays(d, n), n), d);
  }

  lemma AddDaysAdvances(d: Date, n: int)
    requires n > 0
    ensures Less(d, AddDays(d, n))
  {
    LessIsOrdinalLess(d, AddDays(d, n));
  }

  // ---------------------------------------------------------------------
  // Month arithmetic

  /** Months since January of year 0. */
  function MonthIndex(d: Date): int {
    d.year * 12 + d.month - 1
  }

  function Min(a: int, b: int): int {
    if a <= b then a else b
  }

  /** `d >> k` for Ruby's `Date`: `k` calendar months later, keeping the day
      of the month, or the last day of the target month when that day does
      not exist there. */
  function AddMonths(d: Date, k: int): (r: Date)
    ensures MonthIndex(r) == MonthIndex(d) + k
    ensures d.day <= DaysInMonth(r.year, r.month) ==> r.day == d.day
    ensures d.day > DaysInMonth(r.year, r.month) ==> r.day == DaysInMonth(r.year, r.month)
  {
    var t := d.year * 12 + (d.month - 1) + k;
    var y, m := t / 12, t % 12 + 1;
    Ymd(y, m, Min(d.day, DaysInMonth(y, m)))
  }

  lemma AddMonthsZero(d: Date)
    ensures AddMonths(d, 0) == d
  {
  }

  /** More months always land strictly later. */
  lemma AddMonthsMonotone(d: Date, k1: int, k2: int)
    requires k1 < k2
    ensures Less(AddMonths(d, k1), AddMonths(d, k2))
  {
    var a, b := AddMonths(d, k1), AddMonths(d, k2);
    assert MonthIndex(a) < MonthIndex(b);
  }

  // ---------------------------------------------------------------------
  // Text: ISO 8601 extended calendar date

  predicate IsDigit(c: char) {
    '0' <= c <= '9'
  }

  predicate AllDigits(s: string) {
    forall i :: 0 <= i < |s| ==> IsDigit(s[i])
  }

  function Pow10(w: nat): (p: nat)
    ensures p >= 1
  {
    if w == 0 then 1 else 10 * Pow10(w - 1)
  }

  /** The number a string of decimal digits denotes. */
  function {:induction false} DigitsValue(s: string): (n: nat)
    requires AllDigits(s)
    ensures n < Pow10(|s|)
  {
    if s == [] then 0
    else DigitsValue(s[..|s| - 1]) * 10 + (s[|s| - 1] - '0') as int
  }

  function DigitChar(n: nat): char
    requires n < 10
  {
    ('0' as int + n) as char
  }

  /** `n` written in exactly `width` decimal digits, zero-padded on the left
      (the low `width` digits when `n` needs more). */
  function Digits(n: nat, width: nat): string {
    if width == 0 then "" else Digits(n / 10, width - 1) + [DigitChar(n % 10)]
  }

  /** The digits of `Digits(n, width)` denote `n` when it fits. */
  lemma {:induction false} DigitsValueOfDigits(n: nat, width: nat)
    ensures |Digits(n, width)| == width && AllDigits(Digits(n, width))
    ensures n < Pow10(width) ==> DigitsValue(Digits(n, width)) == n
  {
    if width > 0 {
      var init := Digits(n / 10, width - 1);
      var s := Digits(n, width);
      DigitsValueOfDigits(n / 10, width - 1);
      assert s[..|s| - 1] == init;
    }
  }

  /** Digit text is the padded writing of the number it denotes. */
  lemma {:induction false} DigitsOfValue(s: string)
    requires AllDigits(s)
    ensures Digits(DigitsValue(s), |s|) == s
  {
    if s != [] {
      var init, last := s[..|s| - 1], s[|s| - 1];
      var high, low := DigitsValue(init), (last - '0') as int;
      assert IsDigit(last) && 0 <= low < 10;
      assert DigitsValue(s) == high * 10 + low;
      assert DigitsValue(s) / 10 == high && DigitsValue(s) % 10 == low;
      assert DigitChar(low) == last;
      DigitsOfValue(init);
      assert Digits(DigitsValue(s), |s|) == Digits(high, |init|) + [last];
      assert s == init + [last];
    }
  }

  function NumDigits(n: nat): nat {
    if n < 10 then 1 else 1 + NumDigits(n / 10)
  }

  /** Ruby's `%.4d`: at least four digits, a minus sign for negative years. */
  function YearText(y: int): string {
    if y < 0 then "-" + PaddedYear(-y) else PaddedYear(y)
  }

  function PaddedYear(n: nat): string {
    Digits(n, if NumDigits(n) < 4 then 4 else NumDigits(n))
  }

  /** `Date#to_s`: `YYYY-MM-DD`. */
  function Format(d: Date): string {
    YearText(d.year) + "-" + Digits(d.month, 2) + "-" + Digits(d.day, 2)
  }

  /** For a four-digit year the text is ten characters: the year, month and
      day in runs of 4, 2 and 2 digits that denote them, separated by dashes. */
  lemma FormatLayout(d: Date)
    requires 0 <= d.year <= 9999
    ensures var s := Format(d);
      |s| == 10 && s[4] == '-' && s[7] == '-'
      && AllDigits(s[..4]) && AllDigits(s[5..7]) && AllDigits(s[8..])
      && DigitsValue(s[..4]) == d.year && DigitsValue(s[5..7]) == d.month
      && DigitsValue(s[8..]) == d.day
  {
    NumDigitsAtMost(d.year, 4);
    assert YearText(d.year) == Digits(d.year, 4);
    DigitsValueOfDigits(d.year, 4);
    DigitsValueOfDigits(d.month, 2);
    DigitsValueOfDigits(d.day, 2);
    DashJoin(Digits(d.year, 4), Digits(d.month, 2), Digits(d.day, 2));
  }

  /** The converse of `FormatLayout`: text laid out as runs of 4, 2 and 2
      digits between dashes is what the date it denotes prints as. */
  lemma FormatOfLayout(s: string, d: Date)
    requires |s| == 10 && s[4] == '-' && s[7] == '-'
    requires AllDigits(s[..4]) && AllDigits(s[5..7]) && AllDigits(s[8..])
    requires DigitsValue(s[..4]) == d.year && DigitsValue(s[5..7]) == d.month && DigitsValue(s[8..]) == d.day
    ensures Format(d) == s
  {
    NumDigitsAtMost(d.year, 4);
    assert YearText(d.year) == Digits(d.year, 4);
    DigitsOfValue(s[..4]);
    DigitsOfValue(s[5..7]);
    DigitsOfValue(s[8..]);
    assert s == s[..4] + "-" + s[5..7] + "-" + s[8..];
  }

  /** Where the parts of `a-b-c` sit, for parts of 4, 2 and 2 characters. */
  lemma DashJoin(a: string, b: string, c: string)
    requires |a| == 4 && |b| == 2 && |c| == 2
    ensures var s := a + "-" + b + "-" + c;
      |s| == 10 && s[4] == '-' && s[7] == '-' && s[..4] == a && s[5..7] == b && s[8..] == c
  {
    var s := a + "-" + b + "-" + c;
    assert s[..4] == a;
    assert s[5..7] == b;
    assert s[8..] == c;
  }

  /** A number below 10^w needs at most `w` digits. */
  lemma {:induction false} NumDigitsAtMost(n: nat, w: nat)
    requires 1 <= w && n < Pow10(w)
    ensures NumDigits(n) <= w
  {
    if n >= 10 {
      NumDigitsAtMost(n / 10, w - 1);
    }
  }
}
