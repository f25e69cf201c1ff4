/** Calendar dates as Python's datetime.date has them, and the pay cycle that runs from the 26th
    of one month to the 25th of the next. The reports compute that cycle from the start date a
    user picks; the rule is written three times in the source, in two shapes. */
module Calendar {
  import opened Wrappers
  import opened Text

  datatype Date = Date(year: int, month: int, day: int)

  predicate IsLeap(y: int) { y % 4 == 0 && (y % 100 != 0 || y % 400 == 0) }

  function DaysInMonth(y: int, m: int): (n: int)
    requires 1 <= m <= 12
    ensures 28 <= n <= 31
  {
    if m == 2 then (if IsLeap(y) then 29 else 28)
    else if m == 4 || m == 6 || m == 9 || m == 11 then 30
    else 31
  }

  /** The dates datetime.date can hold: years 1 to 9999. */
  predicate Valid(d: Date) {
    1 <= d.year <= 9999 && 1 <= d.month <= 12 && 1 <= d.day <= DaysInMonth(d.year, d.month)
  }

  /** Strict chronological order. */
  predicate Before(a: Date, b: Date) {
    a.year < b.year
    || (a.year == b.year && a.month < b.month)
    || (a.year == b.year && a.month == b.month && a.day < b.day)
  }

  // ---------------------------------------------------------------------------
  // The operations the source applies to dates

  /** date.replace(day=k) for a day every month has. */
  function ReplaceDay(d: Date, k: int): (r: Date)
    requires Valid(d) && 1 <= k <= 28
    ensures Valid(r) && r.year == d.year && r.month == d.month && r.day == k
  {
    d.(day := k)
  }

  /** d - timedelta(days=1); None where datetime raises OverflowError (before 0001-01-01). */
  function PrevDay(d: Date): (r: Option<Date>)
    requires Valid(d)
    ensures r.Some? ==> Valid(r.value) && Before(r.value, d)
    ensures r.None? <==> d == Date(1, 1, 1)
  {
    if d.day > 1 then Some(d.(day := d.day - 1))
    else if d.month > 1 then Some(Date(d.year, d.month - 1, DaysInMonth(d.year, d.month - 1)))
    else if d.year > 1 then Some(Date(d.year - 1, 12, 31))
    else None
  }

  /** The first day of the month after d's; None past year 9999. */
  function FirstOfNextMonth(d: Date): (r: Option<Date>)
    requires Valid(d)
    ensures r.Some? ==> Valid(r.value) && r.value.day == 1
    ensures r.None? <==> d.year == 9999 && d.month == 12
  {
    if d.month < 12 then Some(Date(d.year, d.month + 1, 1))
    else if d.year < 9999 then Some(Date(d.year + 1, 1, 1))
    else None
  }

  /** d + timedelta(days=n); None where datetime raises OverflowError (after 9999-12-31). */
  function AddDays(d: Date, n: nat): (r: Option<Date>)
    requires Valid(d)
    ensures r.Some? ==> Valid(r.value)
    decreases n
  {
    var dim := DaysInMonth(d.year, d.month);
    if d.day + n <= dim then Some(d.(day := d.day + n))
    else
      match FirstOfNextMonth(d)
      case None => None
      case Some(f) => AddDays(f, n - (dim - d.day + 1))
  }

  // ---------------------------------------------------------------------------
  // The pay cycle

  /** The month before (y, m) and the month after it. */
  function PrevMonth(y: int, m: int): (int, int) { if m == 1 then (y - 1, 12) else (y, m - 1) }
  function NextMonth(y: int, m: int): (int, int) { if m == 12 then (y + 1, 1) else (y, m + 1) }

  /** The cycle a date belongs to: from the 26th of the previous month to the 25th of its own
      month when the day is before the 26th, otherwise from the 26th of its own month to the 25th
      of the next. None when that cycle leaves the years datetime can hold. */
  function CycleOf(d: Date): (r: Option<(Date, Date)>)
    requires Valid(d)
  {
    if d.day < 26 then
      var (py, pm) := PrevMonth(d.year, d.month);
      if py < 1 then None else Some((Date(py, pm, 26), Date(d.year, d.month, 25)))
    else
      var (ny, nm) := NextMonth(d.year, d.month);
      if ny > 9999 then None else Some((Date(d.year, d.month, 26), Date(ny, nm, 25)))
  }

  /** The cycle is a 26th-to-25th window of consecutive months that contains the date. */
  lemma CycleContainsDate(d: Date)
    requires Valid(d) && CycleOf(d).Some?
    ensures var (s, e) := CycleOf(d).value;
            && Valid(s) && Valid(e) && s.day == 26 && e.day == 25
            && (e.year, e.month) == NextMonth(s.year, s.month)
            && !Before(d, s) && !Before(e, d)
  {
  }

  /** Only the two months at the ends of datetime's range have no cycle. */
  lemma CycleMissingOnlyAtTheEnds(d: Date)
    requires Valid(d)
    ensures CycleOf(d).None? <==> ((d.year == 1 && d.month == 1 && d.day < 26)
                                 || (d.year == 9999 && d.month == 12 && d.day >= 26))
  {
  }

  /** January before the 26th belongs to the cycle that starts on 26 December of the year before,
      and December from the 26th on to the cycle that ends on 25 January of the next year. */
  lemma CycleCrossesYearEnd(y: int, day: int)
    requires 2 <= y <= 9998 && 1 <= day <= 31
    ensures day < 26 ==> CycleOf(Date(y, 1, day)) == Some((Date(y - 1, 12, 26), Date(y, 1, 25)))
    ensures day >= 26 ==> CycleOf(Date(y, 12, day)) == Some((Date(y, 12, 26), Date(y + 1, 1, 25)))
  {
  }

  /** The shape in the payment and boxes reports: the 25th of the month and, for the start, the
      day before the 1st moved to the 26th; or the 26th and, for the end, the 28th plus four days
      moved to the 25th. None where datetime overflows. */
  function CycleByFourDays(d: Date): Option<(Date, Date)>
    requires Valid(d)
  {
    if d.day < 26 then
      var end := ReplaceDay(d, 25);
      match PrevDay(ReplaceDay(d, 1))
      case None => None
      case Some(p) => Some((ReplaceDay(p, 26), end))
    else
      var start := ReplaceDay(d, 26);
      match AddDays(ReplaceDay(d, 28), 4)
      case None => None
      case Some(q) => Some((start, ReplaceDay(q, 25)))
  }

  /** The shape in the incentive report: the end is the start plus 32 days moved to the 25th. */
  function CycleByThirtyTwoDays(d: Date): Option<(Date, Date)>
    requires Valid(d)
  {
    if d.day < 26 then
      match PrevDay(ReplaceDay(d, 1))
      case None => None
      case Some(p) => Some((ReplaceDay(p, 26), ReplaceDay(d, 25)))
    else
      var start := ReplaceDay(d, 26);
      match AddDays(start, 32)
      case None => None
      case Some(q) => Some((start, ReplaceDay(q, 25)))
  }

  /** Adding fewer days than a month has, from a day late in the month, lands in the next month. */
  lemma AddDaysIntoNextMonth(d: Date, n: nat)
    requires Valid(d) && d.day + n > DaysInMonth(d.year, d.month)
    requires var (ny, nm) := NextMonth(d.year, d.month);
             n - (DaysInMonth(d.year, d.month) - d.day + 1) < DaysInMonth(ny, nm)
    ensures var (ny, nm) := NextMonth(d.year, d.month);
            ny <= 9999 ==> AddDays(d, n).Some? && AddDays(d, n).value.year == ny
                           && AddDays(d, n).value.month == nm
    ensures NextMonth(d.year, d.month).0 > 9999 ==> AddDays(d, n).None?
  {
    var f := FirstOfNextMonth(d);
    if f.Some? {
      var rest := n - (DaysInMonth(d.year, d.month) - d.day + 1);
      assert AddDays(d, n) == AddDays(f.value, rest);
      assert AddDays(f.value, rest) == Some(f.value.(day := 1 + rest));
    }
  }

  /** The payment and boxes reports compute exactly the cycle of the date. */
  lemma CycleByFourDaysIsCycle(d: Date)
    requires Valid(d)
    ensures CycleByFourDays(d) == CycleOf(d)
  {
    if d.day >= 26 {
      AddDaysIntoNextMonth(ReplaceDay(d, 28), 4);
    }
  }

  /** The incentive report computes exactly the cycle of the date too. */
  lemma CycleByThirtyTwoDaysIsCycle(d: Date)
    requires Valid(d)
    ensures CycleByThirtyTwoDays(d) == CycleOf(d)
  {
    if d.day >= 26 {
      var start := ReplaceDay(d, 26);
      AddDaysIntoNextMonth(start, 32);
      var (ny, nm) := NextMonth(d.year, d.month);
      if ny <= 9999 {
        var q := AddDays(start, 32).value;
        assert q.year == ny && q.month == nm;
      }
    }
  }

  // ---------------------------------------------------------------------------
  // ISO text: date.fromisoformat and date.isoformat for the YYYY-MM-DD form

  function Digits2(n: nat): (s: string)
    requires n < 100
    ensures |s| == 2
  {
    [DigitChar(n / 10), DigitChar(n % 10)]
  }

  function Digits4(n: nat): (s: string)
    requires n < 10000
    ensures |s| == 4
  {
    var q1 := n / 10;
    var q2 := q1 / 10;
    var q3 := q2 / 10;
    [DigitChar(q3), DigitChar(q2 % 10), DigitChar(q1 % 10), DigitChar(n % 10)]
  }

  /** date.isoformat(): the year on four digits, month and day on two. */
  function FormatIso(d: Date): (s: string)
    requires Valid(d)
    ensures |s| == 10
  {
    Digits4(d.year) + "-" + Digits2(d.month) + "-" + Digits2(d.day)
  }

  /** date.fromisoformat(s) for the YYYY-MM-DD form; None where it raises ValueError. */
  function ParseIso(s: string): (r: Option<Date>)
    ensures r.Some? ==> Valid(r.value)
  {
    if |s| == 10 && s[4] == '-' && s[7] == '-'
       && AllDigits(s[..4]) && AllDigits(s[5..7]) && AllDigits(s[8..])
    then
      var d := Date(DigitsValue(s[..4]), DigitsValue(s[5..7]), DigitsValue(s[8..]));
      if Valid(d) then Some(d) else None
    else None
  }

  lemma Digits2Value(n: nat)
    requires n < 100
    ensures AllDigits(Digits2(n)) && DigitsValue(Digits2(n)) == n
  {
    DigitsValueSnoc([], n / 10);
    DigitsValueSnoc([DigitChar(n / 10)], n % 10);
    assert [] + [DigitChar(n / 10)] == [DigitChar(n / 10)];
    assert [DigitChar(n / 10)] + [DigitChar(n % 10)] == Digits2(n);
  }

  lemma Digits4Value(n: nat)
    requires n < 10000
    ensures AllDigits(Digits4(n)) && DigitsValue(Digits4(n)) == n
  {
    var q1 := n / 10;
    var q2 := q1 / 10;
    var q3 := q2 / 10;
    var s1 := [DigitChar(q3)];
    var s2 := s1 + [DigitChar(q2 % 10)];
    var s3 := s2 + [DigitChar(q1 % 10)];
    var s4 := s3 + [DigitChar(n % 10)];
    assert [] + [DigitChar(q3)] == s1;
    DigitsValueSnoc([], q3);
    DigitsValueSnoc(s1, q2 % 10);
    DigitsValueSnoc(s2, q1 % 10);
    DigitsValueSnoc(s3, n % 10);
    assert 10 * q3 + q2 % 10 == q2;
    assert 10 * q2 + q1 % 10 == q1;
    assert 10 * q1 + n % 10 == n;
    assert s4 == Digits4(n);
  }

  /** Reading back the ISO text of a date gives the date. */
  lemma ParseFormatIso(d: Date)
    requires Valid(d)
    ensures ParseIso(FormatIso(d)) == Some(d)
  {
    var s := FormatIso(d);
    Digits4Value(d.year);
    Digits2Value(d.month);
    Digits2Value(d.day);
    assert s[..4] == Digits4(d.year);
    assert s[5..7] == Digits2(d.month);
    assert s[8..] == Digits2(d.day);
  }

  // ---------------------------------------------------------------------------
  // The period a report queries

  /** The two strings handed to the queries. */
  datatype Period = Period(start: string, end: string)

  /** Either the period, or the OverflowError that escapes a handler catching only ValueError. */
  datatype PeriodOutcome = Computed(period: Period) | Raised

  /** The payment and boxes reports' period: the cycle of the start date in ISO form; both
      strings unchanged when the start date does not parse (ValueError); the overflow of the
      cycle at the ends of datetime's range is not caught. */
  function PeriodCatchingValueError(dataInicio: string, dataFim: string): (r: PeriodOutcome)
    ensures ParseIso(dataInicio).None? ==> r == Computed(Period(dataInicio, dataFim))
    ensures ParseIso(dataInicio).Some? ==>
              var d := ParseIso(dataInicio).value;
              && (CycleOf(d).None? ==> r == Raised)
              && (CycleOf(d).Some? ==>
                    r == Computed(Period(FormatIso(CycleOf(d).value.0), FormatIso(CycleOf(d).value.1))))
  {
    match ParseIso(dataInicio)
    case None => Computed(Period(dataInicio, dataFim))
    case Some(d) =>
      CycleByFourDaysIsCycle(d);
      match CycleByFourDays(d)
      case None => Raised
      case Some((s, e)) => Computed(Period(FormatIso(s), FormatIso(e)))
  }

  /** The incentive report's period: the same cycle, and the raw strings on any exception,
      the overflow at the ends of datetime's range included. */
  function PeriodCatchingAll(dataInicio: string, dataFim: string): (r: Period)
    ensures ParseIso(dataInicio).None? ==> r == Period(dataInicio, dataFim)
    ensures ParseIso(dataInicio).Some? ==>
              var d := ParseIso(dataInicio).value;
              && (CycleOf(d).None? ==> r == Period(dataInicio, dataFim))
              && (CycleOf(d).Some? ==>
                    r == Period(FormatIso(CycleOf(d).value.0), FormatIso(CycleOf(d).value.1)))
  {
    match ParseIso(dataInicio)
    case None => Period(dataInicio, dataFim)
    case Some(d) =>
      CycleByThirtyTwoDaysIsCycle(d);
      match CycleByThirtyTwoDays(d)
      case None => Period(dataInicio, dataFim)
      case Some((s, e)) => Period(FormatIso(s), FormatIso(e))
  }

  /** The three copies agree wherever the first two do not raise; where they raise, the
      incentive report falls back to the raw strings. */
  lemma PeriodsAgree(dataInicio: string, dataFim: string)
    ensures PeriodCatchingValueError(dataInicio, dataFim).Computed? ==>
              PeriodCatchingValueError(dataInicio, dataFim).period == PeriodCatchingAll(dataInicio, dataFim)
    ensures PeriodCatchingValueError(dataInicio, dataFim).Raised? ==>
              PeriodCatchingAll(dataInicio, dataFim) == Period(dataInicio, dataFim)
  {
  }

  /** The computed period of a valid start date is itself a pair of ISO dates that parse back to
      a 26th and a 25th. */
  lemma PeriodIsIsoCycle(dataInicio: string, dataFim: string)
    requires ParseIso(dataInicio).Some? && PeriodCatchingValueError(dataInicio, dataFim).Computed?
    ensures var p := PeriodCatchingValueError(dataInicio, dataFim).period;
            && ParseIso(p.start).Some? && ParseIso(p.start).value.day == 26
            && ParseIso(p.end).Some? && ParseIso(p.end).value.day == 25
  {
    var d := ParseIso(dataInicio).value;
    var (s, e) := CycleOf(d).value;
    CycleContainsDate(d);
    ParseFormatIso(s);
    ParseFormatIso(e);
  }
}
