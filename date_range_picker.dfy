/** The date range picker: a start and an end date held as `YYYY-MM-DD`
    strings, quick options that fill both from today's date, a submit that
    fires only when both are set, and the number of nights between them.

    Dates are days of the proleptic Gregorian calendar (years from 1), the
    calendar JavaScript's `Date` uses; today's date is a parameter. */
module DateRangePicker {
  import opened JsValue

  // ---------------------------------------------------------------------------
  // The calendar

  datatype CivilDate = CivilDate(year: int, month: int, day: int)

  predicate IsLeap(y: int) {
    y % 4 == 0 && (y % 100 != 0 || y % 400 == 0)
  }

  function DaysInMonth(y: int, m: int): (n: int)
    ensures 28 <= n <= 31
  {
    if m == 2 then (if IsLeap(y) then 29 else 28)
    else if m == 4 || m == 6 || m == 9 || m == 11 then 30
    else 31
  }

  predicate ValidDate(d: CivilDate) {
    d.year >= 1 && 1 <= d.month <= 12 && 1 <= d.day <= DaysInMonth(d.year, d.month)
  }

  function YearLength(y: int): int {
    if IsLeap(y) then 366 else 365
  }

  function DaysBeforeYear(y: int): nat
    requires y >= 1
    decreases y
  {
    if y == 1 then 0 else DaysBeforeYear(y - 1) + YearLength(y - 1)
  }

  function DaysBeforeMonth(y: int, m: int): nat
    requires 1 <= m <= 12
    decreases m
  {
    if m == 1 then 0 else DaysBeforeMonth(y, m - 1) + DaysInMonth(y, m - 1)
  }

  /** Days since 0001-01-01. */
  function DayNumber(d: CivilDate): nat
    requires ValidDate(d)
  {
    DaysBeforeYear(d.year) + DaysBeforeMonth(d.year, d.month) + d.day - 1
  }

  /** `getDay()`: 0 for Sunday to 6 for Saturday; 0001-01-01 was a Monday. */
  function Weekday(d: CivilDate): (w: int)
    requires ValidDate(d)
    ensures 0 <= w < 7
  {
    WeekdayOf(DayNumber(d))
  }

  function WeekdayOf(n: nat): (w: int)
    ensures 0 <= w < 7
  {
    (n + 1) % 7
  }

  /** The month after (y, m), December rolling over into January. */
  function NextMonth(y: int, m: int): (int, int) {
    if m == 12 then (y + 1, 1) else (y, m + 1)
  }

  /** `setDate(getDate() + 1)` */
  function NextDay(d: CivilDate): (r: CivilDate)
    requires ValidDate(d)
    ensures ValidDate(r)
  {
    if d.day < DaysInMonth(d.year, d.month) then d.(day := d.day + 1)
    else
      var (y, m) := NextMonth(d.year, d.month);
      CivilDate(y, m, 1)
  }

  /** `setDate(getDate() + n)` */
  function AddDays(d: CivilDate, n: nat): (r: CivilDate)
    requires ValidDate(d)
    ensures ValidDate(r)
    decreases n
  {
    if n == 0 then d else AddDays(NextDay(d), n - 1)
  }

  /** The months of a year add up to the year. */
  lemma MonthsFillYear(y: int)
    ensures DaysBeforeMonth(y, 12) + DaysInMonth(y, 12) == YearLength(y)
  {
    var feb := if IsLeap(y) then 29 else 28;
    assert DaysBeforeMonth(y, 2) == 31;
    assert DaysBeforeMonth(y, 3) == 31 + feb;
    assert DaysBeforeMonth(y, 4) == 62 + feb;
    assert DaysBeforeMonth(y, 5) == 92 + feb;
    assert DaysBeforeMonth(y, 6) == 123 + feb;
    assert DaysBeforeMonth(y, 7) == 153 + feb;
    assert DaysBeforeMonth(y, 8) == 184 + feb;
    assert DaysBeforeMonth(y, 9) == 215 + feb;
    assert DaysBeforeMonth(y, 10) == 245 + feb;
    assert DaysBeforeMonth(y, 11) == 276 + feb;
    assert DaysBeforeMonth(y, 12) == 306 + feb;
  }

  /** The next day is the next day number: the calendar has no gaps. */
  lemma NextDayCounts(d: CivilDate)
    requires ValidDate(d)
    ensures DayNumber(NextDay(d)) == DayNumber(d) + 1
  {
    if d.day == DaysInMonth(d.year, d.month) && d.month == 12 {
      MonthsFillYear(d.year);
    }
  }

  lemma {:induction false} AddDaysCounts(d: CivilDate, n: nat)
    requires ValidDate(d)
    ensures DayNumber(AddDays(d, n)) == DayNumber(d) + n
    decreases n
  {
    if n > 0 {
      NextDayCounts(d);
      AddDaysCounts(NextDay(d), n - 1);
    }
  }

  /** Distinct dates have distinct day numbers. */
  lemma {:induction false} DayNumberInjective(a: CivilDate, b: CivilDate)
    requires ValidDate(a) && ValidDate(b) && DayNumber(a) == DayNumber(b)
    ensures a == b
  {
    if a.year != b.year {
      var lo, hi := if a.year < b.year then a else b, if a.year < b.year then b else a;
      YearsApart(lo, hi);
      assert false;
    }
    if a.month != b.month {
      var lo, hi := if a.month < b.month then a else b, if a.month < b.month then b else a;
      MonthsApart(lo.year, lo.month, hi.month);
      assert false;
    }
  }

  lemma {:induction false} DaysBeforeYearGrows(y: int, z: int)
    requires 1 <= y <= z
    ensures DaysBeforeYear(z) >= DaysBeforeYear(y) + 365 * (z - y)
    decreases z - y
  {
    if y < z {
      DaysBeforeYearGrows(y, z - 1);
    }
  }

  lemma {:induction false} DaysBeforeMonthGrows(y: int, m: int, n: int)
    requires 1 <= m <= n <= 12
    ensures DaysBeforeMonth(y, n) >= DaysBeforeMonth(y, m) + 28 * (n - m)
    decreases n - m
  {
    if m < n {
      DaysBeforeMonthGrows(y, m, n - 1);
    }
  }

  lemma YearsApart(lo: CivilDate, hi: CivilDate)
    requires ValidDate(lo) && ValidDate(hi) && lo.year < hi.year
    ensures DayNumber(lo) < DayNumber(hi)
  {
    DaysBeforeYearGrows(lo.year + 1, hi.year);
    BeforeNextYear(lo);
  }

  lemma MonthsApart(y: int, m: int, n: int)
    requires 1 <= m < n <= 12
    ensures DaysBeforeMonth(y, n) >= DaysBeforeMonth(y, m) + DaysInMonth(y, m)
  {
    DaysBeforeMonthGrows(y, m + 1, n);
  }

  // ---------------------------------------------------------------------------
  // YYYY-MM-DD

  /** `padStart(2, '0')` */
  function PadStart2(s: string): string {
    if |s| >= 2 then s else seq(2 - |s|, _ => '0') + s
  }

  /** `formatDate`: year, then month and day padded to two digits. */
  function FormatDate(d: CivilDate): string {
    IntToDecimal(d.year) + "-" + PadStart2(IntToDecimal(d.month)) + "-" + PadStart2(IntToDecimal(d.day))
  }

  predicate AllDigits(s: string) {
    forall i :: 0 <= i < |s| ==> IsDigit(s[i])
  }

  /** The date a `YYYY-MM-DD` string denotes, as `new Date(s)` reads it;
      none for any other string or a day the calendar lacks. */
  function ParseIsoDate(s: string): (r: Option<CivilDate>)
    ensures r.Some? ==> ValidDate(r.value)
  {
    if |s| == 10 && s[4] == '-' && s[7] == '-' && AllDigits(s[..4]) && AllDigits(s[5..7]) && AllDigits(s[8..]) then
      var d := CivilDate(DecimalValue(s[..4]), DecimalValue(s[5..7]), DecimalValue(s[8..]));
      if ValidDate(d) then Some(d) else None
    else None
  }

  lemma TwoDigits(n: nat)
    requires 1 <= n <= 99
    ensures |PadStart2(IntToDecimal(n))| == 2 && AllDigits(PadStart2(IntToDecimal(n)))
    ensures DecimalValue(PadStart2(IntToDecimal(n))) == n
  {
    var s := PadStart2(IntToDecimal(n));
    if n < 10 {
      assert s == ['0', DigitChar(n)];
      assert s[..1] == ['0'];
      assert DecimalValue(['0']) == 0;
    } else {
      assert NatToDecimal(n / 10) == [DigitChar(n / 10)];
      assert IntToDecimal(n) == [DigitChar(n / 10)] + [DigitChar(n % 10)];
      DecimalOfNatToDecimal(n);
    }
  }

  lemma FourDigits(n: nat)
    requires 1000 <= n <= 9999
    ensures |IntToDecimal(n)| == 4 && AllDigits(IntToDecimal(n))
    ensures DecimalValue(IntToDecimal(n)) == n
  {
    assert NatToDecimal(n / 1000) == [DigitChar(n / 1000)];
    assert |NatToDecimal(n / 100)| == 2 by {
      assert (n / 100) / 10 == n / 1000;
    }
    assert |NatToDecimal(n / 10)| == 3 by {
      assert (n / 10) / 10 == n / 100;
    }
    DecimalOfNatToDecimal(n);
  }

  /** Reading a formatted date gives the date back, for four-digit years. */
  lemma ParseFormatDate(d: CivilDate)
    requires ValidDate(d) && d.year <= 9999 && d.year >= 1000
    ensures |FormatDate(d)| == 10
    ensures ParseIsoDate(FormatDate(d)) == Some(d)
  {
    var y, m, dd := IntToDecimal(d.year), PadStart2(IntToDecimal(d.month)), PadStart2(IntToDecimal(d.day));
    FourDigits(d.year);
    TwoDigits(d.month);
    TwoDigits(d.day);
    var s := FormatDate(d);
    assert s == y + "-" + m + "-" + dd;
    assert s[..4] == y;
    assert s[5..7] == m;
    assert s[8..] == dd;
  }

  // ---------------------------------------------------------------------------
  // Quick options

  /** Days from a weekday to the next Saturday: `(6 - w + 7) % 7 || 7`. */
  function DaysUntilSaturday(w: int): int {
    var k := (6 - w + 7) % 7;
    if k == 0 then 7 else k
  }

  /** The next Saturday is one to seven days ahead (a week on a Saturday)
      and is a Saturday. */
  lemma NextSaturday(today: CivilDate, k: nat)
    requires ValidDate(today) && k == DaysUntilSaturday(Weekday(today))
    ensures 1 <= k <= 7
    ensures Weekday(AddDays(today, k)) == 6
  {
    AddDaysCounts(today, k);
    SaturdayAhead(DayNumber(today));
  }

  lemma SaturdayOffset(w: int)
    requires 0 <= w < 7
    ensures 1 <= DaysUntilSaturday(w) <= 7
    ensures (w + DaysUntilSaturday(w)) % 7 == 6
  {
  }

  /** k days after day n, where k is the offset to Saturday, is a Saturday. */
  lemma SaturdayAhead(n: nat)
    ensures WeekdayOf(n + DaysUntilSaturday(WeekdayOf(n))) == 6
  {
    var w := WeekdayOf(n);
    SaturdayOffset(w);
    var q := (n + 1) / 7;
    assert n + 1 == 7 * q + w;
  }

  /** `new Date(d); setMonth(getMonth() + 1); setDate(1)` AS WRITTEN:
      `setMonth` keeps the day of the month, and a day the next month lacks
      rolls over into the month after it before `setDate(1)` runs. */
  function NextMonthStartAsWritten(d: CivilDate): (r: CivilDate)
    requires ValidDate(d)
    ensures ValidDate(r) && r.day == 1
  {
    var (y, m) := NextMonth(d.year, d.month);
    if d.day <= DaysInMonth(y, m) then CivilDate(y, m, 1)
    else
      var (y2, m2) := NextMonth(y, m);
      CivilDate(y2, m2, 1)
  }

  /** The first day of the month after d's. */
  function FirstOfNextMonth(d: CivilDate): (r: CivilDate)
    requires ValidDate(d)
    ensures ValidDate(r) && r.day == 1
  {
    var (y, m) := NextMonth(d.year, d.month);
    CivilDate(y, m, 1)
  }

  /** On a day the next month lacks, the option as written skips a month:
      on 31 January it starts on 1 March. */
  lemma NextMonthAsWrittenSkips(d: CivilDate)
    requires ValidDate(d)
    ensures NextMonthStartAsWritten(d) == FirstOfNextMonth(d) <==>
      d.day <= DaysInMonth(NextMonth(d.year, d.month).0, NextMonth(d.year, d.month).1)
    ensures NextMonthStartAsWritten(CivilDate(2025, 1, 31)) == CivilDate(2025, 3, 1)
  {
    assert !IsLeap(2025);
  }

  /** The corrected start is the day after the last day of d's month. */
  lemma FirstOfNextMonthFollows(d: CivilDate)
    requires ValidDate(d)
    ensures DayNumber(FirstOfNextMonth(d)) == DayNumber(d.(day := DaysInMonth(d.year, d.month))) + 1
    ensures DayNumber(FirstOfNextMonth(d)) > DayNumber(d)
  {
    NextDayCounts(d.(day := DaysInMonth(d.year, d.month)));
  }

  /** As written, the next-month option still starts after d, at most two
      months on; where it skips a month it starts a month after the
      corrected start. */
  lemma NextMonthAsWrittenFollows(d: CivilDate)
    requires ValidDate(d)
    ensures DayNumber(d) < DayNumber(NextMonthStartAsWritten(d)) <= DayNumber(d) + 62
    ensures NextMonthStartAsWritten(d) != FirstOfNextMonth(d) ==>
      NextMonthStartAsWritten(d) == FirstOfNextMonth(FirstOfNextMonth(d))
  {
    var first := FirstOfNextMonth(d);
    FirstOfNextMonthFollows(d);
    if NextMonthStartAsWritten(d) != first {
      FirstOfNextMonthFollows(first);
    }
  }

  datatype QuickOption = NextWeekend | ThisWeek | NextWeek | NextMonthOption

  /** The option a button passes, none for any other string. */
  function ParseQuickOption(option: string): Option<QuickOption> {
    if option == "next-weekend" then Some(NextWeekend)
    else if option == "this-week" then Some(ThisWeek)
    else if option == "next-week" then Some(NextWeek)
    else if option == "next-month" then Some(NextMonthOption)
    else None
  }

  /** The first and last day an option picks. */
  function QuickRange(option: QuickOption, today: CivilDate): (r: (CivilDate, CivilDate))
    requires ValidDate(today)
    ensures ValidDate(r.0) && ValidDate(r.1)
  {
    match option
    case NextWeekend =>
      var saturday := AddDays(today, DaysUntilSaturday(Weekday(today)));
      (saturday, AddDays(saturday, 1))
    case ThisWeek => (today, AddDays(today, 6))
    case NextWeek =>
      var start := AddDays(today, 7);
      (start, AddDays(start, 6))
    case NextMonthOption =>
      var start := NextMonthStartAsWritten(today);
      (start, AddDays(start, 6))
  }

  /** Every option starts today or later, within two months, and spans a
      week (the weekend two days, Saturday and Sunday). */
  lemma QuickRangeSpans(option: QuickOption, today: CivilDate)
    requires ValidDate(today)
    ensures DayNumber(QuickRange(option, today).1) ==
      DayNumber(QuickRange(option, today).0) + (if option == NextWeekend then 1 else 6)
    ensures DayNumber(today) <= DayNumber(QuickRange(option, today).0) <= DayNumber(today) + 62
    ensures option == NextWeekend ==>
      Weekday(QuickRange(option, today).0) == 6 && DayNumber(QuickRange(option, today).0) > DayNumber(today)
    ensures option == ThisWeek ==> QuickRange(option, today).0 == today
    ensures option == NextWeek ==> DayNumber(QuickRange(option, today).0) == DayNumber(today) + 7
    ensures option == NextMonthOption ==>
      QuickRange(option, today).0 == NextMonthStartAsWritten(today) && DayNumber(QuickRange(option, today).0) > DayNumber(today)
  {
    var (s, e) := QuickRange(option, today);
    match option
    case NextWeekend =>
      NextSaturday(today, DaysUntilSaturday(Weekday(today)));
      AddDaysCounts(today, DaysUntilSaturday(Weekday(today)));
      AddDaysCounts(s, 1);
    case ThisWeek =>
      AddDaysCounts(today, 6);
    case NextWeek =>
      AddDaysCounts(today, 7);
      AddDaysCounts(s, 6);
    case NextMonthOption =>
      NextMonthAsWrittenFollows(today);
      AddDaysCounts(s, 6);
  }

  // ---------------------------------------------------------------------------
  // Props, submit and nights

  /** The two optional date props and the optional `initialDates` pair
      (`None` for `undefined` or `null`). */
  datatype DateProps = DateProps(startDate: Option<string>, endDate: Option<string>, initialDates: Option<(string, string)>)

  /** `initialStart ?? initialDates?.startDate ?? ''` and the same for the end. */
  function DefaultDates(props: DateProps): (r: (string, string))
    ensures props.startDate.Some? ==> r.0 == props.startDate.value
    ensures props.startDate.None? && props.initialDates.Some? ==> r.0 == props.initialDates.value.0
    ensures props.startDate.None? && props.initialDates.None? ==> r.0 == ""
    ensures props.endDate.Some? ==> r.1 == props.endDate.value
    ensures props.endDate.None? && props.initialDates.Some? ==> r.1 == props.initialDates.value.1
    ensures props.endDate.None? && props.initialDates.None? ==> r.1 == ""
  {
    var s := if props.startDate.Some? then props.startDate.value
             else if props.initialDates.Some? then props.initialDates.value.0 else "";
    var e := if props.endDate.Some? then props.endDate.value
             else if props.initialDates.Some? then props.initialDates.value.1 else "";
    (s, e)
  }

  /** `handleSubmit`: the pair passed to `onDateSelect`, only when both dates
      are set. */
  function SelectedRange(startDate: string, endDate: string): (r: Option<(string, string)>)
    ensures r.Some? <==> startDate != "" && endDate != ""
    ensures r.Some? ==> r.value == (startDate, endDate)
  {
    if startDate != "" && endDate != "" then Some((startDate, endDate)) else None
  }

  /** `calculateNights`: 0 unless both dates are set, else the absolute
      difference in days. A date-only string is read as midnight UTC, so
      the difference is whole days and `Math.ceil` leaves it as is; a
      string that is not a date gives NaN. */
  function Nights(startDate: string, endDate: string): (r: Value)
    ensures startDate == "" || endDate == "" ==> r == Num(0.0)
    ensures r.Num? || r.NaN?
    ensures r.Num? ==> r.n >= 0.0 && r.n == r.n.Floor as real
  {
    if startDate == "" || endDate == "" then Num(0.0)
    else match (ParseIsoDate(startDate), ParseIsoDate(endDate))
      case (Some(s), Some(e)) =>
        var diff := DayNumber(e) - DayNumber(s);
        Num((if diff < 0 then -diff else diff) as real)
      case _ => NaN
  }

  /** Swapping the dates leaves the nights alone. */
  lemma NightsSymmetric(a: string, b: string)
    ensures Nights(a, b) == Nights(b, a)
  {
  }

  /** The nights between two formatted dates are the days between them. */
  lemma NightsOfFormatted(s: CivilDate, e: CivilDate)
    requires ValidDate(s) && ValidDate(e)
    requires 1000 <= s.year <= 9999 && 1000 <= e.year <= 9999
    requires DayNumber(s) <= DayNumber(e)
    ensures Nights(FormatDate(s), FormatDate(e)) == Num((DayNumber(e) - DayNumber(s)) as real)
  {
    ParseFormatDate(s);
    ParseFormatDate(e);
  }

  /** A quick option picked in years 1000 to 9998 shows six nights, one for
      the weekend. */
  lemma QuickOptionNights(option: QuickOption, today: CivilDate)
    requires ValidDate(today) && 1000 <= today.year <= 9998
    ensures var (s, e) := QuickRange(option, today);
      Nights(FormatDate(s), FormatDate(e)) == Num(if option == NextWeekend then 1.0 else 6.0)
  {
    var (s, e) := QuickRange(option, today);
    QuickRangeSpans(option, today);
    YearWithinDays(today, s, 70);
    YearWithinDays(today, e, 70);
    NightsOfFormatted(s, e);
  }

  /** A date at most n days after another, n under a year, lies in the same
      or the next year. */
  lemma YearWithinDays(a: CivilDate, b: CivilDate, n: nat)
    requires ValidDate(a) && ValidDate(b) && n <= 365
    requires DayNumber(a) <= DayNumber(b) <= DayNumber(a) + n
    ensures a.year <= b.year <= a.year + 1
  {
    if b.year < a.year {
      YearsApart(b, a);
    }
    if b.year > a.year + 1 {
      BeforeNextYear(a);
      DaysBeforeYearGrows(a.year + 2, b.year);
      assert false;
    }
  }

  /** A date comes before the first day of the following year. */
  lemma BeforeNextYear(d: CivilDate)
    requires ValidDate(d)
    ensures DayNumber(d) < DaysBeforeYear(d.year + 1)
  {
    MonthsFillYear(d.year);
    if d.month < 12 {
      DaysBeforeMonthGrows(d.year, d.month + 1, 12);
    }
  }

  class DatePicker {
    var startDate: string
    var endDate: string
    var showQuickOptions: bool

    constructor(props: DateProps)
      ensures (startDate, endDate) == DefaultDates(props) && showQuickOptions
    {
      startDate, endDate := DefaultDates(props).0, DefaultDates(props).1;
      showQuickOptions := true;
    }

    /** The effect run when the defaults change: both dates reset to them. */
    method OnDefaultsChange(props: DateProps)
      modifies this
      ensures (startDate, endDate) == DefaultDates(props) && showQuickOptions == old(showQuickOptions)
    {
      startDate, endDate := DefaultDates(props).0, DefaultDates(props).1;
    }

    /** Typing a date hides the quick options. */
    method ChangeStartDate(value: string)
      modifies this
      ensures startDate == value && endDate == old(endDate) && !showQuickOptions
    {
      startDate := value;
      showQuickOptions := false;
    }

    method ChangeEndDate(value: string)
      modifies this
      ensures endDate == value && startDate == old(startDate) && !showQuickOptions
    {
      endDate := value;
      showQuickOptions := false;
    }

    /** `handleQuickOption`: an unknown option changes nothing; a known one
        fills both dates and hides the options. */
    method HandleQuickOption(option: string, today: CivilDate)
      requires ValidDate(today)
      modifies this
      ensures ParseQuickOption(option).None? ==>
        startDate == old(startDate) && endDate == old(endDate) && showQuickOptions == old(showQuickOptions)
      ensures ParseQuickOption(option).Some? ==>
        (var (s, e) := QuickRange(ParseQuickOption(option).value, today);
         startDate == FormatDate(s) && endDate == FormatDate(e) && !showQuickOptions)
    {
      var picked := ParseQuickOption(option);
      if picked.None? {
        return;
      }
      var range := QuickRange(picked.value, today);
      startDate := FormatDate(range.0);
      endDate := FormatDate(range.1);
      showQuickOptions := false;
    }

    /** The submit button is disabled exactly when submitting would not
        call `onDateSelect`. */
    predicate SubmitDisabled()
      reads this
    {
      startDate == "" || endDate == ""
    }

    function HandleSubmit(): Option<(string, string)>
      reads this
    {
      SelectedRange(startDate, endDate)
    }
  }

  lemma SubmitDisabledIffNoSelection(picker: DatePicker)
    ensures picker.SubmitDisabled() <==> picker.HandleSubmit().None?
  {
  }
}
