/**
 * The three time tools: the current date and time in a time zone, a
 * patient's age from a birth date, and the working hours of a hospital
 * department. Dates are read the way `datetime.strptime(s, "%Y-%m-%d")`
 * reads them and counted the way `date.toordinal` counts them.
 */
module TimeTools {
  import opened Wrappers
  import opened Text
  import opened ToolBase

  // ---------------------------------------------------------------- calendar

  datatype Date = Date(year: int, month: int, day: int)

  predicate IsLeap(y: int) {
    y % 4 == 0 && (y % 100 != 0 || y % 400 == 0)
  }

  function DaysInMonth(y: int, m: int): int
    requires 1 <= m <= 12
  {
    if m == 2 then (if IsLeap(y) then 29 else 28)
    else if m == 4 || m == 6 || m == 9 || m == 11 then 30
    else 31
  }

  function DaysInYear(y: int): int {
    if IsLeap(y) then 366 else 365
  }

  /** The dates `datetime.date` can hold: years 1 to 9999. */
  predicate ValidDate(d: Date) {
    1 <= d.year <= 9999 && 1 <= d.month <= 12 && 1 <= d.day <= DaysInMonth(d.year, d.month)
  }

  /** `d1` comes strictly before `d2` in the calendar. */
  predicate Before(d1: Date, d2: Date) {
    d1.year < d2.year || (d1.year == d2.year && MonthDayBefore(d1, d2))
  }

  /** Within a year, the month and day of `d1` come strictly before those of `d2`. */
  predicate MonthDayBefore(d1: Date, d2: Date) {
    d1.month < d2.month || (d1.month == d2.month && d1.day < d2.day)
  }

  /** Days in the years before `y`, with the proleptic Gregorian leap rule. */
  function DaysBeforeYear(y: int): int
    requires y >= 1
  {
    var p := y - 1;
    p * 365 + p / 4 - p / 100 + p / 400
  }

  /** Days in the months of year `y` before month `m`; `m == 13` gives the whole year. */
  function DaysBeforeMonth(y: int, m: int): int
    requires 1 <= m <= 13
    decreases m
  {
    if m == 1 then 0 else DaysBeforeMonth(y, m - 1) + DaysInMonth(y, m - 1)
  }

  /** `date.toordinal`: 1 January of year 1 is day 1. */
  function Ordinal(d: Date): int
    requires ValidDate(d)
  {
    DaysBeforeYear(d.year) + DaysBeforeMonth(d.year, d.month) + d.day
  }

  /** Consecutive years are `DaysInYear` apart. */
  lemma DaysBeforeYearStep(y: int)
    requires y >= 1
    ensures DaysBeforeYear(y + 1) == DaysBeforeYear(y) + DaysInYear(y)
  {
    MultiplesOf4Step(y);
    MultiplesOf100Step(y);
    MultiplesOf400Step(y);
    if y % 100 == 0 {
      CenturyDivisibleBy4(y);
    }
    if y % 400 == 0 {
      QuadCenturyIsCentury(y);
    }
  }

  /** A century year is a multiple of 4. */
  lemma CenturyDivisibleBy4(y: int)
    requires y % 100 == 0
    ensures y % 4 == 0
  {
    var k := y / 100;
    assert y == 4 * (25 * k);
  }

  /** A multiple of 400 is a century year. */
  lemma QuadCenturyIsCentury(y: int)
    requires y % 400 == 0
    ensures y % 100 == 0
  {
    var k := y / 400;
    assert y == 100 * (4 * k);
  }

  /** Reaching year `y` adds one multiple of 4 exactly when `y` is one. */
  lemma MultiplesOf4Step(y: int)
    ensures y / 4 - (y - 1) / 4 == if y % 4 == 0 then 1 else 0
  {
  }

  /** Reaching year `y` adds one multiple of 100 exactly when `y` is one. */
  lemma MultiplesOf100Step(y: int)
    ensures y / 100 - (y - 1) / 100 == if y % 100 == 0 then 1 else 0
  {
    var q, r := (y - 1) / 100, (y - 1) % 100;
    assert y == 100 * q + r + 1;
    if r == 99 {
      assert y == 100 * (q + 1);
      assert y / 100 == q + 1 && y % 100 == 0;
    } else {
      assert y / 100 == q && y % 100 == r + 1;
    }
  }

  /** Reaching year `y` adds one multiple of 400 exactly when `y` is one. */
  lemma MultiplesOf400Step(y: int)
    ensures y / 400 - (y - 1) / 400 == if y % 400 == 0 then 1 else 0
  {
    var q, r := (y - 1) / 400, (y - 1) % 400;
    assert y == 400 * q + r + 1;
    if r == 399 {
      assert y == 400 * (q + 1);
      assert y / 400 == q + 1 && y % 400 == 0;
    } else {
      assert y / 400 == q && y % 400 == r + 1;
    }
  }

  lemma {:induction false} DaysBeforeYearGrows(a: int, b: int)
    requires 1 <= a <= b
    ensures DaysBeforeYear(a) + 365 * (b - a) <= DaysBeforeYear(b)
    decreases b - a
  {
    if a < b {
      DaysBeforeYearStep(a);
      DaysBeforeYearGrows(a + 1, b);
    }
  }

  lemma {:induction false} DaysBeforeMonthGrows(y: int, m: int, n: int)
    requires 1 <= m <= n <= 13
    ensures DaysBeforeMonth(y, m) + (n - m) * 28 <= DaysBeforeMonth(y, n)
    decreases n - m
  {
    if m < n {
      DaysBeforeMonthGrows(y, m, n - 1);
    }
  }

  /** The twelve months add up to the year. */
  lemma MonthsFillYear(y: int)
    ensures DaysBeforeMonth(y, 13) == DaysInYear(y)
  {
    assert DaysBeforeMonth(y, 2) == 31;
    assert DaysBeforeMonth(y, 3) == 31 + DaysInMonth(y, 2);
    assert DaysBeforeMonth(y, 4) == 62 + DaysInMonth(y, 2);
    assert DaysBeforeMonth(y, 5) == 92 + DaysInMonth(y, 2);
    assert DaysBeforeMonth(y, 6) == 123 + DaysInMonth(y, 2);
    assert DaysBeforeMonth(y, 7) == 153 + DaysInMonth(y, 2);
    assert DaysBeforeMonth(y, 8) == 184 + DaysInMonth(y, 2);
    assert DaysBeforeMonth(y, 9) == 215 + DaysInMonth(y, 2);
    assert DaysBeforeMonth(y, 10) == 245 + DaysInMonth(y, 2);
    assert DaysBeforeMonth(y, 11) == 276 + DaysInMonth(y, 2);
    assert DaysBeforeMonth(y, 12) == 306 + DaysInMonth(y, 2);
  }

  /** A valid date's ordinal lies within its year. */
  lemma OrdinalWithinYear(d: Date)
    requires ValidDate(d)
    ensures DaysBeforeYear(d.year) < Ordinal(d) <= DaysBeforeYear(d.year) + DaysInYear(d.year)
  {
    DaysBeforeMonthGrows(d.year, d.month + 1, 13);
    MonthsFillYear(d.year);
  }

  lemma OrdinalBeforeLaterYear(d1: Date, d2: Date)
    requires ValidDate(d1) && ValidDate(d2) && d1.year < d2.year
    ensures Ordinal(d1) < Ordinal(d2)
  {
    var y1, y2 := d1.year, d2.year;
    OrdinalWithinYear(d1);
    OrdinalWithinYear(d2);
    DaysBeforeYearStep(y1);
    DaysBeforeYearGrows(y1 + 1, y2);
    assert Ordinal(d1) <= DaysBeforeYear(y1 + 1);
    assert DaysBeforeYear(y1 + 1) <= DaysBeforeYear(y2);
  }

  lemma OrdinalBefore(d1: Date, d2: Date)
    requires ValidDate(d1) && ValidDate(d2) && Before(d1, d2)
    ensures Ordinal(d1) < Ordinal(d2)
  {
    if d1.year < d2.year {
      OrdinalBeforeLaterYear(d1, d2);
    } else if d1.month < d2.month {
      DaysBeforeMonthGrows(d1.year, d1.month + 1, d2.month);
    }
  }

  /**
   * The ordinal numbers valid dates one-to-one and in calendar order, so
   * the difference of two ordinals is negative exactly when the first date
   * is the later one.
   */
  lemma OrdinalOrder(d1: Date, d2: Date)
    requires ValidDate(d1) && ValidDate(d2)
    ensures Ordinal(d1) < Ordinal(d2) <==> Before(d1, d2)
    ensures Ordinal(d1) == Ordinal(d2) <==> d1 == d2
  {
    if Before(d1, d2) {
      OrdinalBefore(d1, d2);
    } else if Before(d2, d1) {
      OrdinalBefore(d2, d1);
    }
  }

  const WeekdayNames: seq<string> := ["Monday", "Tuesday", "Wednesday", "Thursday", "Friday", "Saturday", "Sunday"]

  /** `date.weekday()`: 1 January of year 1 was a Monday. */
  function Weekday(d: Date): (r: int)
    requires ValidDate(d)
    ensures 0 <= r < 7
  {
    (Ordinal(d) + 6) % 7
  }

  // ------------------------------------------------------- parsing a date

  predicate IsDigit(c: char) {
    '0' <= c <= '9'
  }

  function DigitValue(c: char): int
    requires IsDigit(c)
  {
    c as int - '0' as int
  }

  /** The month alternatives of the `%m` pattern, in the order they are tried: `1[0-2]|0[1-9]|[1-9]`. */
  predicate MonthToken(t: string) {
    (|t| == 2 && t[0] == '1' && '0' <= t[1] <= '2')
    || (|t| == 2 && t[0] == '0' && '1' <= t[1] <= '9')
    || (|t| == 1 && '1' <= t[0] <= '9')
  }

  function MonthValue(t: string): (m: int)
    requires MonthToken(t)
    ensures 1 <= m <= 12
  {
    if |t| == 1 then DigitValue(t[0]) else 10 * DigitValue(t[0]) + DigitValue(t[1])
  }

  /**
   * The length of the prefix of `t` matched by the `%d` pattern
   * `3[01]|[12]\d|0[1-9]|[1-9]| [1-9]`: the first alternative that matches wins.
   */
  function DayPrefix(t: string): (n: Option<nat>)
    ensures n.Some? ==> 1 <= n.value <= 2 && n.value <= |t|
  {
    if |t| >= 2 && t[0] == '3' && (t[1] == '0' || t[1] == '1') then Some(2)
    else if |t| >= 2 && (t[0] == '1' || t[0] == '2') && IsDigit(t[1]) then Some(2)
    else if |t| >= 2 && t[0] == '0' && '1' <= t[1] <= '9' then Some(2)
    else if |t| >= 1 && '1' <= t[0] <= '9' then Some(1)
    else if |t| >= 2 && t[0] == ' ' && '1' <= t[1] <= '9' then Some(2)
    else None
  }

  function DayValue(t: string): (d: int)
    requires DayPrefix(t).Some? && |t| == DayPrefix(t).value
    ensures 1 <= d <= 31
  {
    if |t| == 1 then DigitValue(t[0])
    else if t[0] == ' ' then DigitValue(t[1])
    else 10 * DigitValue(t[0]) + DigitValue(t[1])
  }

  /**
   * Matching the text after `YYYY-`: the month token followed by `-` and a
   * day, with the regular expression's backtracking from a two-character
   * month to a one-character month. Returns the month and day lengths.
   */
  function MatchMonthDay(rest: string): (r: Option<(nat, nat)>)
    ensures r.Some? ==>
      var (ml, dl) := r.value;
      1 <= ml <= 2 && ml + 1 + dl <= |rest| && MonthToken(rest[..ml]) && rest[ml] == '-'
      && DayPrefix(rest[ml + 1..]) == Some(dl)
  {
    if |rest| >= 3 && MonthToken(rest[..2]) && rest[2] == '-' && DayPrefix(rest[3..]).Some? then
      Some((2, DayPrefix(rest[3..]).value))
    else if |rest| >= 2 && MonthToken(rest[..1]) && rest[1] == '-' && DayPrefix(rest[2..]).Some? then
      Some((1, DayPrefix(rest[2..]).value))
    else None
  }

  datatype DateParse = Parsed(date: Date) | Rejected(message: string)

  /** The `ValueError` text of `strptime` for input the format's pattern does not match; the input is shown by `repr`. */
  function NoMatchMessage(s: string): string {
    "time data " + Repr(s) + " does not match format '%Y-%m-%d'"
  }

  /**
   * `datetime.strptime(s, "%Y-%m-%d").date()`: four digits, `-`, a month,
   * `-`, a day, nothing after, and then a date that exists (year 0 and days
   * past the end of the month are refused).
   */
  function ParseDate(s: string): (r: DateParse)
    ensures r.Parsed? ==> ValidDate(r.date)
  {
    if |s| < 5 || !(IsDigit(s[0]) && IsDigit(s[1]) && IsDigit(s[2]) && IsDigit(s[3])) || s[4] != '-' then
      Rejected(NoMatchMessage(s))
    else
      match MatchMonthDay(s[5..])
      case None => Rejected(NoMatchMessage(s))
      case Some((ml, dl)) =>
        var end := 5 + ml + 1 + dl;
        if end < |s| then Rejected("unconverted data remains: " + s[end..])
        else
          var year := 1000 * DigitValue(s[0]) + 100 * DigitValue(s[1]) + 10 * DigitValue(s[2]) + DigitValue(s[3]);
          var month := MonthValue(s[5..5 + ml]);
          var day := DayValue(s[6 + ml..end]);
          if year < 1 then Rejected("year 0 is out of range")
          else if day > DaysInMonth(year, month) then Rejected("day is out of range for month")
          else Parsed(Date(year, month, day))
  }

  function Pad2(n: int): (r: string)
    requires 0 <= n <= 99
    ensures |r| == 2
  {
    [DigitChar(n / 10), DigitChar(n % 10)]
  }

  /** `date.strftime("%Y-%m-%d")`, with the year written as four digits. */
  function FormatDate(d: Date): (r: string)
    requires ValidDate(d)
    ensures |r| == 10
  {
    [DigitChar(d.year / 1000), DigitChar(d.year / 100 % 10), DigitChar(d.year / 10 % 10), DigitChar(d.year % 10)]
    + "-" + Pad2(d.month) + "-" + Pad2(d.day)
  }

  lemma Pad2Month(m: int)
    requires 1 <= m <= 12
    ensures MonthToken(Pad2(m)) && MonthValue(Pad2(m)) == m
  {
  }

  lemma Pad2Day(d: int)
    requires 1 <= d <= 31
    ensures DayPrefix(Pad2(d)) == Some(2) && DayValue(Pad2(d)) == d
  {
  }

  lemma YearDigits(y: int)
    requires 1 <= y <= 9999
    ensures 1000 * (y / 1000) + 100 * (y / 100 % 10) + 10 * (y / 10 % 10) + y % 10 == y
  {
    var t := y / 10;
    var h := t / 10;
    assert y == 10 * t + y % 10;
    assert t == 10 * h + t % 10;
    assert h == 10 * (h / 10) + h % 10;
    assert h == y / 100;
    assert h / 10 == y / 1000;
  }

  /** Every valid date is read back from the text it is written as. */
  lemma ParseFormatRoundTrip(d: Date)
    requires ValidDate(d)
    ensures ParseDate(FormatDate(d)) == Parsed(d)
  {
    var s := FormatDate(d);
    var rest := s[5..];
    Pad2Month(d.month);
    Pad2Day(d.day);
    YearDigits(d.year);
    assert rest[..2] == Pad2(d.month);
    assert rest[2] == '-';
    assert rest[3..] == Pad2(d.day);
    assert MatchMonthDay(rest) == Some((2, 2));
    assert s[5..7] == Pad2(d.month);
    assert s[8..10] == Pad2(d.day);
  }

  // ------------------------------------------------------------ the clock

  /** A reading of the clock in one time zone. */
  /** The current time in one zone; `isoText` is what `isoformat()` prints for it. */
  datatype LocalTime = LocalTime(date: Date, hour: int, minute: int, second: int, unixTimestamp: int, isoText: string)

  /**
   * The server's clock: today's local date and the current time in every
   * time zone the zone database knows.
   */
  datatype Clock = Clock(today: Date, zones: map<string, LocalTime>) {
    predicate Valid() {
      ValidDate(today)
      && forall z :: z in zones ==>
        ValidDate(zones[z].date) && 0 <= zones[z].hour < 24 && 0 <= zones[z].minute < 60 && 0 <= zones[z].second < 60
    }
  }

  // ------------------------------------------------ get_current_datetime

  const DateTimeSchema := ToolSchema(
    "get_current_datetime", "Get Current DateTime",
    "Get current date, time, day of week, and timestamp", Time,
    [ParamSpec("timezone", "string", "IANA timezone (e.g., 'Asia/Kolkata', 'UTC', 'America/New_York')", Some(VStr("UTC")))],
    [], "object",
    [map["input" := VOther("dict", true), "output" := VOther("dict", true)]])

  datatype DateTimeData = DateTimeData(
    datetime: string, date: string, time: string, dayOfWeek: string, timezone: string,
    unixTimestamp: int, hour: int, minute: int, second: int)

  /**
   * `get_current_datetime(timezone="UTC")`. A zone the database does not
   * know sends the code to its fallback `timezone.utc`, where `timezone` is
   * the parameter rather than the module, so the call fails.
   */
  function CurrentDateTime(schema: Option<ToolSchema>, timezone: Value, clock: Clock): (r: ToolResult<DateTimeData>)
    requires clock.Valid()
    ensures r.toolName == if schema.Some? then schema.value.name else "unknown"
    ensures r.success <==>
      ValidationOf(schema, {"timezone"}).Validated? && timezone.VStr? && timezone.s in clock.zones
    ensures r.success ==>
      var now := clock.zones[timezone.s];
      r.data.Some? && r.data.value.datetime == now.isoText && r.data.value.date == FormatDate(now.date)
      && r.data.value.time == Pad2(now.hour) + ":" + Pad2(now.minute) + ":" + Pad2(now.second)
      && r.data.value.dayOfWeek == WeekdayNames[Weekday(now.date)]
      && r.data.value.timezone == timezone.s && r.data.value.unixTimestamp == now.unixTimestamp
      && r.data.value.hour == now.hour && r.data.value.minute == now.minute && r.data.value.second == now.second
    ensures !r.success ==> r.data.None? && r.error.Some?
  {
    match ValidationOf(schema, {"timezone"})
    case MissingParameter(m) => Failed(schema, "Error getting datetime: " + m)
    case Validated(_) =>
      if timezone.VStr? && timezone.s in clock.zones then
        var now := clock.zones[timezone.s];
        Succeeded(schema, DateTimeData(
          now.isoText, FormatDate(now.date), Pad2(now.hour) + ":" + Pad2(now.minute) + ":" + Pad2(now.second),
          WeekdayNames[Weekday(now.date)], timezone.s, now.unixTimestamp, now.hour, now.minute, now.second))
      else
        Failed(schema, "Error getting datetime: '" + timezone.TypeName() + "' object has no attribute 'utc'")
  }

  // ------------------------------------------------------- calculate_age

  const CalculateAgeSchema := ToolSchema(
    "calculate_age", "Calculate Age",
    "Calculate patient age in years, months, days from birthdate", Medical,
    [ParamSpec("birthdate", "string", "Birth date in YYYY-MM-DD format", None),
     ParamSpec("reference_date", "string", "Reference date (default: today) in YYYY-MM-DD format", None)],
    ["birthdate"], "object",
    [map["input" := VOther("dict", true), "output" := VOther("dict", true)]])

  /** Whole years between two dates: one less when the anniversary has not yet come round. */
  function CompletedYears(birth: Date, ref: Date): int {
    ref.year - birth.year - (if MonthDayBefore(ref, birth) then 1 else 0)
  }

  /** Whole months between two dates: one less when the day of the month has not yet come round. */
  function CompletedMonths(birth: Date, ref: Date): int {
    12 * (ref.year - birth.year) + (ref.month - birth.month) - (if ref.day < birth.day then 1 else 0)
  }

  /**
   * The age arithmetic of `calculate_age`: differences of year, month and
   * day, a negative day count borrowing a 30-day month and a negative month
   * count borrowing a year.
   */
  method ComputeAge(birth: Date, ref: Date) returns (years: int, months: int, days: int)
    requires ValidDate(birth) && ValidDate(ref)
    ensures years == CompletedYears(birth, ref)
    ensures 12 * years + months == CompletedMonths(birth, ref) && 0 <= months < 12
    ensures 0 <= days <= 30
    ensures days == AgeDays(birth, ref)
  {
    years := ref.year - birth.year;
    months := ref.month - birth.month;
    days := ref.day - birth.day;
    if days < 0 {
      months := months - 1;
      days := days + 30;
    }
    if months < 0 {
      years := years - 1;
      months := months + 12;
    }
  }

  datatype AgeData = AgeData(
    ageYears: int, ageMonths: int, ageDays: int, birthdate: string, referenceDate: string,
    isBirthdayToday: bool, totalDaysLived: int)

  /** The days part of the age: a day of the month not yet reached borrows a 30-day month. */
  function AgeDays(birth: Date, ref: Date): int {
    if ref.day < birth.day then ref.day - birth.day + 30 else ref.day - birth.day
  }

  function AgeOf(birthText: string, birth: Date, ref: Date): AgeData
    requires ValidDate(birth) && ValidDate(ref)
  {
    var years := CompletedYears(birth, ref);
    AgeData(years, CompletedMonths(birth, ref) - 12 * years, AgeDays(birth, ref), birthText, FormatDate(ref),
      ref.month == birth.month && ref.day == birth.day, Ordinal(ref) - Ordinal(birth))
  }

  /**
   * What the age reports mean: the months and days stay in range, a
   * birthday has no months or days, and the years, the day count and the
   * order of the two dates agree in sign.
   */
  lemma AgeFacts(birthText: string, birth: Date, ref: Date)
    requires ValidDate(birth) && ValidDate(ref)
    ensures var a := AgeOf(birthText, birth, ref);
      0 <= a.ageMonths < 12 && 0 <= a.ageDays <= 30
      && (a.isBirthdayToday ==> a.ageMonths == 0 && a.ageDays == 0 && a.ageYears == ref.year - birth.year)
      && (a.ageYears >= 0 <==> !Before(ref, birth))
      && (a.totalDaysLived >= 0 <==> !Before(ref, birth))
      && (a.totalDaysLived == 0 <==> ref == birth)
  {
    OrdinalOrder(ref, birth);
  }

  const InvalidDatePrefix := "Invalid date format. Use YYYY-MM-DD: "
  const AgeErrorPrefix := "Error calculating age: "

  /** Reading a date argument: a non-string is a `TypeError`, bad text a `ValueError`. */
  datatype DateRead = Got(date: Date) | BadFormat(message: string) | BadType(message: string)

  /** How CPython's argument checks name a wrongly typed argument: `None` itself, otherwise its type. */
  function ArgumentTypeText(v: Value): string {
    if v.VNull? then "None" else v.TypeName()
  }

  function ReadDate(v: Value): (r: DateRead)
    ensures r.Got? ==> ValidDate(r.date)
  {
    if !v.VStr? then BadType("strptime() argument 1 must be str, not " + ArgumentTypeText(v))
    else
      match ParseDate(v.s)
      case Parsed(d) => Got(d)
      case Rejected(m) => BadFormat(m)
  }

  /** The reference date: the argument when it is truthy, otherwise today. */
  function ReadReference(referenceDate: Value, clock: Clock): (r: DateRead)
    requires clock.Valid()
    ensures r.Got? ==> ValidDate(r.date)
  {
    if referenceDate.Truthy() then ReadDate(referenceDate) else Got(clock.today)
  }

  function DateReadFailure(schema: Option<ToolSchema>, r: DateRead): ToolResult<AgeData>
    requires !r.Got?
  {
    if r.BadFormat? then Failed(schema, InvalidDatePrefix + r.message)
    else Failed(schema, AgeErrorPrefix + r.message)
  }

  /** `calculate_age(birthdate, reference_date=None)` as a function of its arguments and the clock. */
  function CalculateAgeResult(schema: Option<ToolSchema>, birthdate: Value, referenceDate: Value, clock: Clock)
    : (r: ToolResult<AgeData>)
    requires clock.Valid()
    ensures r.toolName == if schema.Some? then schema.value.name else "unknown"
    ensures r.success <==>
      ValidationOf(schema, {"birthdate"}).Validated?
      && ReadDate(birthdate).Got? && ReadReference(referenceDate, clock).Got?
    ensures r.success ==>
      r.data == Some(AgeOf(birthdate.s, ReadDate(birthdate).date, ReadReference(referenceDate, clock).date))
    ensures !r.success ==> r.data.None? && r.error.Some?
    ensures ValidationOf(schema, {"birthdate"}).MissingParameter? ==>
      r.error == Some(InvalidDatePrefix + ValidationOf(schema, {"birthdate"}).message)
    ensures ValidationOf(schema, {"birthdate"}).Validated? && ReadDate(birthdate).BadFormat? ==>
      r.error == Some(InvalidDatePrefix + ReadDate(birthdate).message)
    ensures ValidationOf(schema, {"birthdate"}).Validated? && ReadDate(birthdate).BadType? ==>
      r.error == Some(AgeErrorPrefix + ReadDate(birthdate).message)
    ensures ValidationOf(schema, {"birthdate"}).Validated? && ReadDate(birthdate).Got?
            && ReadReference(referenceDate, clock).BadFormat? ==>
      r.error == Some(InvalidDatePrefix + ReadReference(referenceDate, clock).message)
    ensures ValidationOf(schema, {"birthdate"}).Validated? && ReadDate(birthdate).Got?
            && ReadReference(referenceDate, clock).BadType? ==>
      r.error == Some(AgeErrorPrefix + ReadReference(referenceDate, clock).message)
  {
    match ValidationOf(schema, {"birthdate"})
    case MissingParameter(m) => Failed(schema, InvalidDatePrefix + m)
    case Validated(_) =>
      var b := ReadDate(birthdate);
      if !b.Got? then DateReadFailure(schema, b)
      else
        var rf := ReadReference(referenceDate, clock);
        if !rf.Got? then DateReadFailure(schema, rf)
        else Succeeded(schema, AgeOf(birthdate.s, b.date, rf.date))
  }

  /** A null birth date fails in `strptime`'s argument check, which writes the argument as `None`. */
  lemma NullBirthdateMessage(schema: Option<ToolSchema>, referenceDate: Value, clock: Clock)
    requires clock.Valid() && ValidationOf(schema, {"birthdate"}).Validated?
    ensures CalculateAgeResult(schema, VNull, referenceDate, clock).error
      == Some(AgeErrorPrefix + ("strptime() argument 1 must be str, not " + "None"))
  {
    assert ReadDate(VNull) == BadType("strptime() argument 1 must be str, not " + "None");
  }

  /** The data `calculate_age` reports once both dates are read, built from the borrowing steps. */
  method MeasureAge(birthText: string, birth: Date, ref: Date) returns (data: AgeData)
    requires ValidDate(birth) && ValidDate(ref)
    ensures data == AgeOf(birthText, birth, ref)
  {
    var years, months, days := ComputeAge(birth, ref);
    var isBirthday := ref.month == birth.month && ref.day == birth.day;
    data := AgeData(years, months, days, birthText, FormatDate(ref), isBirthday, Ordinal(ref) - Ordinal(birth));
  }

  /** The branches of `CalculateAgeResult`, one per way the call can end. */
  lemma CalculateAgeCases(schema: Option<ToolSchema>, birthdate: Value, referenceDate: Value, clock: Clock)
    requires clock.Valid()
    ensures var v := ValidationOf(schema, {"birthdate"});
      var r := CalculateAgeResult(schema, birthdate, referenceDate, clock);
      (v.MissingParameter? ==> r == Failed(schema, InvalidDatePrefix + v.message))
      && (v.Validated? && !ReadDate(birthdate).Got? ==> r == DateReadFailure(schema, ReadDate(birthdate)))
      && (v.Validated? && ReadDate(birthdate).Got? && !ReadReference(referenceDate, clock).Got? ==>
            r == DateReadFailure(schema, ReadReference(referenceDate, clock)))
  {
  }

  /** The body of `calculate_age`, step by step. */
  method ExecuteCalculateAge(schema: Option<ToolSchema>, birthdate: Value, referenceDate: Value, clock: Clock)
    returns (r: ToolResult<AgeData>)
    requires clock.Valid()
    ensures r == CalculateAgeResult(schema, birthdate, referenceDate, clock)
  {
    CalculateAgeCases(schema, birthdate, referenceDate, clock);
    var v := ValidateParams(schema, {"birthdate"});
    if v.MissingParameter? {
      return Failed(schema, InvalidDatePrefix + v.message);
    }
    var b := ReadDate(birthdate);
    if !b.Got? {
      return DateReadFailure(schema, b);
    }
    var rf := ReadReference(referenceDate, clock);
    if !rf.Got? {
      return DateReadFailure(schema, rf);
    }
    var data := MeasureAge(birthdate.s, b.date, rf.date);
    return Succeeded(schema, data);
  }

  // --------------------------------------------------- get_working_hours

  /** One department's entry in the hospital schedule; absent keys are `None`. */
  datatype Department = Department(
    name: string, hours: Option<string>, mondayFriday: Option<string>, saturday: Option<string>,
    sunday: Option<string>, is247: bool, note: Option<string>)

  const ScheduleKeys: seq<string> := ["emergency", "icu", "opd", "pharmacy", "billing"]

  const Schedule: map<string, Department> := map[
    "emergency" := Department("Emergency Department", Some("24/7"), None, None, None, true, Some("Always open")),
    "icu" := Department("Intensive Care Unit", Some("24/7"), None, None, None, true, Some("Always open")),
    "opd" := Department("Out Patient Department", None, Some("09:00 - 17:00"), Some("09:00 - 13:00"), Some("Closed"), false, None),
    "pharmacy" := Department("Pharmacy", None, Some("08:00 - 20:00"), Some("09:00 - 18:00"), Some("10:00 - 15:00"), false, None),
    "billing" := Department("Billing Department", None, Some("10:00 - 16:00"), Some("10:00 - 14:00"), Some("Closed"), false, None)
  ]

  /**
   * The schedule lists its departments in key order, exactly the
   * round-the-clock ones give `hours` and a note, and the others give
   * weekday, Saturday and Sunday hours instead.
   */
  lemma ScheduleShape()
    ensures forall k :: k in Schedule <==> k in ScheduleKeys
    ensures forall k :: k in Schedule ==>
      (Schedule[k].is247 <==> k == "emergency" || k == "icu")
      && (Schedule[k].is247 ==> Schedule[k].hours == Some("24/7") && Schedule[k].note.Some?
                                && Schedule[k].mondayFriday.None?)
      && (!Schedule[k].is247 ==> Schedule[k].hours.None? && Schedule[k].mondayFriday.Some?
                                 && Schedule[k].saturday.Some? && Schedule[k].sunday.Some?)
  {
  }

  const WorkingHoursSchema := ToolSchema(
    "get_working_hours", "Get Working Hours", "Get working hours for hospital departments", Hospital,
    [ParamSpec("department", "string", "Department name (emergency, icu, opd, pharmacy, billing)", None)],
    ["department"], "object",
    [map["input" := VOther("dict", true), "output" := VOther("dict", true)]])

  /** The refusal for an unknown department names every known key, in schedule order. */
  const DepartmentNotFound := "Department not found. Available: " + Join(ScheduleKeys, ", ")

  /** The department key as looked up: lower-cased, then stripped. */
  function DepartmentKey(department: string): string {
    Strip(Lower(department))
  }

  /**
   * `get_working_hours(department)`: a case- and space-insensitive lookup;
   * an unknown department is refused with the list of known ones.
   */
  function WorkingHours(schema: Option<ToolSchema>, department: Value): (r: ToolResult<Department>)
    ensures r.toolName == if schema.Some? then schema.value.name else "unknown"
    ensures r.success <==>
      ValidationOf(schema, {"department"}).Validated? && department.VStr? && DepartmentKey(department.s) in Schedule
    ensures r.success ==> r.data == Some(Schedule[DepartmentKey(department.s)])
    ensures !r.success ==> r.data.None? && r.error.Some?
    ensures ValidationOf(schema, {"department"}).Validated? && department.VStr? && DepartmentKey(department.s) !in Schedule
      ==> r.error == Some(DepartmentNotFound)
  {
    match ValidationOf(schema, {"department"})
    case MissingParameter(m) => Failed(schema, "Error fetching working hours: " + m)
    case Validated(_) =>
      if !department.VStr? then
        Failed(schema, "Error fetching working hours: '" + department.TypeName() + "' object has no attribute 'lower'")
      else
        var key := DepartmentKey(department.s);
        if key !in Schedule then
          Failed(schema, DepartmentNotFound)
        else Succeeded(schema, Schedule[key])
  }

  /** Upper case and surrounding blanks do not matter: ` OPD ` finds the out-patient department. */
  lemma WorkingHoursNormalisesKey()
    ensures WorkingHours(Some(WorkingHoursSchema), VStr(" OPD ")).data == Some(Schedule["opd"])
  {
    assert Lower(" OPD ") == " opd ";
    assert TrimStart(" opd ") == "opd ";
    assert TrimEnd("opd ") == "opd";
    assert ValidationOf(Some(WorkingHoursSchema), {"department"}) == Validated(true);
  }
}
